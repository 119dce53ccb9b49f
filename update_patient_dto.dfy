/** `generateMRN`: a medical record number `HS-<year>-<8 upper-case hex digits>`. */
module MedicalRecordNumber {
  import opened Text
  import opened Hex

  /** The output of `randomBytes(4)`. */
  type Bytes4 = b: seq<byte> | |b| == 4 witness [0, 0, 0, 0]

  const PREFIX: string := "HS"

  /** `generateMRN()` in the year `year` with the random bytes `random`. */
  function GenerateMrn(year: int, random: Bytes4): (mrn: string)
    ensures StartsWith(mrn, PREFIX + "-")
  {
    var r := PREFIX + "-" + IntToString(year) + "-" + ToUpperHex(random);
    assert r[..3] == PREFIX + "-";
    r
  }

  /** The random part: 8 characters from `0-9A-F`. */
  function Suffix(random: Bytes4): (s: string)
    ensures |s| == 8
    ensures forall k :: 0 <= k < |s| ==> '0' <= s[k] <= '9' || 'A' <= s[k] <= 'F'
  {
    ToUpperHex(random)
  }

  /** For a year written without a sign, the `-`-separated components are
      the prefix, the year and the random part. */
  lemma MrnComponents(year: int, random: Bytes4)
    requires year >= 0
    ensures Split(GenerateMrn(year, random), '-') == [PREFIX, IntToString(year), Suffix(random)]
  {
    var y, h := IntToString(year), ToUpperHex(random);
    assert '-' !in PREFIX;
    assert '-' !in h by {
      forall k | 0 <= k < |h| ensures h[k] != '-' { }
    }
    assert GenerateMrn(year, random) == PREFIX + ['-'] + (y + ['-'] + h);
    SplitAtFirst(PREFIX, '-', y + ['-'] + h);
    SplitAtFirst(y, '-', h);
    SplitNoSeparator(h, '-');
  }

  /** Within one year, distinct random bytes give distinct record numbers. */
  lemma MrnInjective(year: int, a: Bytes4, b: Bytes4)
    requires GenerateMrn(year, a) == GenerateMrn(year, b)
    ensures a == b
  {
    var p := PREFIX + "-" + IntToString(year) + "-";
    assert GenerateMrn(year, a)[|p|..] == ToUpperHex(a);
    assert GenerateMrn(year, b)[|p|..] == ToUpperHex(b);
    ToUpperHexInjective(a, b);
  }
}
