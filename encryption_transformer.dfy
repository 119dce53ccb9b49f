/** `EncryptionTransformer`: the column transformer copy of the envelope,
    keyed by `process.env.ENCRYPTION_KEY`. It never throws from `to` or
    `from`: a failure is logged and the column value becomes `null`. */
module FieldEncryption {
  import opened Wrappers
  import opened Envelope
  import DataEncryption

  datatype EncryptionTransformer = EncryptionTransformer(encryptionKey: string) {

    /** `to(value)`: the stored form of an entity value. */
    function To(p: Primitives, value: Option<string>, salt: Block16, iv: Block16): (r: Option<string>)
      ensures r.None? <==> DataEncryption.Blank(value) || Seal(p, encryptionKey, value.value, salt, iv).Err?
      ensures r.Some? ==> r.value == p.base64Encode(Seal(p, encryptionKey, value.value, salt, iv).value)
    {
      if DataEncryption.Blank(value) then None
      else
        match Seal(p, encryptionKey, value.value, salt, iv)
        case Ok(data) => Some(p.base64Encode(data))
        case Err(_) => None
    }

    /** `from(value)`: the entity value of a stored column; a bad tag, a
        truncated envelope or a wrong key all read as `null`. */
    function From(p: Primitives, value: Option<string>): (r: Option<string>)
      ensures r.None? <==> DataEncryption.Blank(value) || Open(p, encryptionKey, p.base64Decode(value.value)).Err?
      ensures r.Some? ==> r.value == Open(p, encryptionKey, p.base64Decode(value.value)).value
    {
      if DataEncryption.Blank(value) then None
      else
        match Open(p, encryptionKey, p.base64Decode(value.value))
        case Ok(text) => Some(text)
        case Err(_) => None
    }
  }

  /** The constructor: fails unless `ENCRYPTION_KEY` is set and non-empty. */
  function NewEncryptionTransformer(env: Option<string>): (r: Result<EncryptionTransformer, string>)
    ensures r.Ok? <==> !DataEncryption.Blank(env)
    ensures r.Ok? ==> r.value.encryptionKey == env.value
    ensures r.Err? ==> r.error == DataEncryption.MISSING_KEY
  {
    if DataEncryption.Blank(env) then Err(DataEncryption.MISSING_KEY) else Ok(EncryptionTransformer(env.value))
  }

  /** Reading back a written column gives the entity value, except that an
      empty string comes back as `null`. */
  lemma FromTo(p: Primitives, t: EncryptionTransformer, value: Option<string>, salt: Block16, iv: Block16)
    requires Sound(p)
    ensures t.From(p, t.To(p, value, salt, iv)) == if value == Some("") then None else value
  {
    if !DataEncryption.Blank(value) {
      OpenSealText(p, t.encryptionKey, value.value, salt, iv);
    }
  }
}
