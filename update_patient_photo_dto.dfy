/** `UpdatePatientPhotoDto`: the four decorators on `photoUrl` and the
    messages they report. */
module PhotoValidation {
  import opened Text
  import opened JsonValues
  import opened PatientValidation

  const PHOTO_MESSAGE: string := "Photo must be a JPG or PNG image"
  const PHOTO_NOT_EMPTY: string := "photoUrl should not be empty"
  const PHOTO_NOT_STRING: string := "photoUrl must be a string"
  const PHOTO_NOT_URL: string := "photoUrl must be a URL address"

  /** `/\.(jpg|jpeg|png)$/i` */
  predicate ImageSuffix(s: string) {
    var l := Lower(s);
    EndsWith(l, ".jpg") || EndsWith(l, ".jpeg") || EndsWith(l, ".png")
  }

  /** The messages `UpdatePatientPhotoDto` reports for a `photoUrl` value. */
  function PhotoErrors(photoUrl: Json, f: Formats): (errs: set<string>)
    ensures errs == {} <==> photoUrl.Str? && photoUrl.s != "" && f.isUrl(photoUrl.s) && ImageSuffix(photoUrl.s)
    ensures photoUrl.Str? && !ImageSuffix(photoUrl.s) ==> PHOTO_MESSAGE in errs
    ensures photoUrl == Str("") || photoUrl.Undefined? || photoUrl.Null? ==> PHOTO_NOT_EMPTY in errs
  {
    (if photoUrl == Str("") || photoUrl.Undefined? || photoUrl.Null? then {PHOTO_NOT_EMPTY} else {})
    + (if !photoUrl.Str? then {PHOTO_NOT_STRING} else {})
    + (if !(photoUrl.Str? && f.isUrl(photoUrl.s)) then {PHOTO_NOT_URL} else {})
    + (if !(photoUrl.Str? && ImageSuffix(photoUrl.s)) then {PHOTO_MESSAGE} else {})
  }

  /** The suffix test ignores letter case. */
  lemma ImageSuffixAnyCase(stem: string)
    ensures ImageSuffix(stem + ".JPG") && ImageSuffix(stem + ".Png") && ImageSuffix(stem + ".jpeg")
    ensures !ImageSuffix(stem + ".gif")
  {
    var a, b, c, d := stem + ".JPG", stem + ".Png", stem + ".jpeg", stem + ".gif";
    assert Lower(a)[|a| - 4..] == ".jpg";
    assert Lower(b)[|b| - 4..] == ".png";
    assert Lower(c)[|c| - 5..] == ".jpeg";
    assert Lower(d)[|d| - 1] == 'f';
    assert Lower(d)[|d| - 2] == 'i';
  }
}
