/** `DataEncryptionService`: the injectable copy of the envelope, keyed by
    the configured `ENCRYPTION_KEY`, which passes empty input through as
    `null` and re-throws failures with a prefix. */
module DataEncryption {
  import opened Wrappers
  import opened Text
  import opened Envelope
  import EncryptionUtility

  const MISSING_KEY: string := "ENCRYPTION_KEY must be set in environment variables"

  /** `!value` for a string that may be `null`. */
  predicate Blank(value: Option<string>) {
    value.None? || value.value == ""
  }

  datatype DataEncryptionService = DataEncryptionService(encryptionKey: string) {

    /** `encrypt(plainText)`: `null` for empty input, else the base64 envelope. */
    function Encrypt(p: Primitives, plainText: Option<string>, salt: Block16, iv: Block16): (r: Result<Option<string>, string>)
      ensures Blank(plainText) ==> r == Ok(None)
      ensures !Blank(plainText) ==>
        match EncryptionUtility.Encrypt(p, plainText.value, encryptionKey, salt, iv)
        case Ok(c) => r == Ok(Some(c))
        case Err(e) => r == Err(e) && StartsWith(e, EncryptionUtility.ENCRYPTION_FAILED)
    {
      if Blank(plainText) then Ok(None)
      else
        match EncryptionUtility.Encrypt(p, plainText.value, encryptionKey, salt, iv)
        case Ok(c) => Ok(Some(c))
        case Err(e) => Err(e)
    }

    /** `decrypt(encryptedData)`: `null` for empty input, else the text. */
    function Decrypt(p: Primitives, encryptedData: Option<string>): (r: Result<Option<string>, string>)
      ensures Blank(encryptedData) ==> r == Ok(None)
      ensures !Blank(encryptedData) ==>
        match EncryptionUtility.Decrypt(p, encryptedData.value, encryptionKey)
        case Ok(t) => r == Ok(Some(t))
        case Err(e) => r == Err(e) && StartsWith(e, EncryptionUtility.DECRYPTION_FAILED)
    {
      if Blank(encryptedData) then Ok(None)
      else
        match EncryptionUtility.Decrypt(p, encryptedData.value, encryptionKey)
        case Ok(t) => Ok(Some(t))
        case Err(e) => Err(e)
    }
  }

  /** The constructor: fails unless `ENCRYPTION_KEY` is configured and non-empty. */
  function NewDataEncryptionService(configured: Option<string>): (r: Result<DataEncryptionService, string>)
    ensures r.Ok? <==> !Blank(configured)
    ensures r.Ok? ==> r.value.encryptionKey == configured.value
    ensures r.Err? ==> r.error == MISSING_KEY
  {
    if Blank(configured) then Err(MISSING_KEY) else Ok(DataEncryptionService(configured.value))
  }

  /** Under the configured key, decrypting what was encrypted gives back the
      text; empty input stays `null` both ways. */
  lemma DecryptEncrypt(p: Primitives, configured: Option<string>, plainText: Option<string>, salt: Block16, iv: Block16)
    requires Sound(p)
    requires NewDataEncryptionService(configured).Ok?
    ensures var svc := NewDataEncryptionService(configured).value;
      var c := svc.Encrypt(p, plainText, salt, iv);
      && c.Ok?
      && (Blank(plainText) <==> c.value.None?)
      && svc.Decrypt(p, c.value) == Ok(if Blank(plainText) then None else plainText)
  {
    var svc := NewDataEncryptionService(configured).value;
    if !Blank(plainText) {
      EncryptionUtility.DecryptEncrypt(p, plainText.value, svc.encryptionKey, salt, iv);
      OpenSealText(p, svc.encryptionKey, plainText.value, salt, iv);
    }
  }
}
