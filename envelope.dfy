/** The field envelope shared by `EncryptionUtil`, `DataEncryptionService`
    and `EncryptionTransformer`: AES-256-GCM under a scrypt-derived key, laid
    out as `salt(16) || iv(16) || tag(16) || ciphertext` and base64-encoded.
    The cipher, the key derivation and the text/base64 codecs are parameters;
    `Sound` states the one fact about each that the envelope relies on. */
module Envelope {
  import opened Wrappers
  import opened Hex

  type Bytes = seq<byte>

  /** The output of `randomBytes(16)`. */
  type Block16 = b: Bytes | |b| == 16 witness [0, 0, 0, 0, 0, 0, 0, 0, 0, 0, 0, 0, 0, 0, 0, 0]

  const KEY_LENGTH: nat := 32
  const IV_LENGTH: nat := 16
  const SALT_LENGTH: nat := 16
  const TAG_LENGTH: nat := 16
  /** Where the ciphertext starts. */
  const HEADER_LENGTH: nat := SALT_LENGTH + IV_LENGTH + TAG_LENGTH

  /** `cipher.update(..) ++ cipher.final()` and `cipher.getAuthTag()`. */
  datatype Sealed = Sealed(ciphertext: Bytes, tag: Bytes)

  /** The library calls the envelope makes. A call that throws in Node
      returns `Err(error.message)` here. */
  datatype Primitives = Primitives(
    /** `scrypt(password, salt, keylen)` */
    scrypt: (string, Bytes, nat) -> Bytes,
    /** `createCipheriv('aes-256-gcm', key, iv)`, fed the plaintext */
    seal: (Bytes, Bytes, Bytes) -> Result<Sealed, string>,
    /** `createDecipheriv('aes-256-gcm', key, iv)` with `setAuthTag(tag)`, fed the ciphertext */
    open: (Bytes, Bytes, Bytes, Bytes) -> Result<Bytes, string>,
    /** `Buffer.from(s, 'utf8')` and `buf.toString('utf8')` */
    utf8Encode: string -> Bytes,
    utf8Decode: Bytes -> string,
    /** `buf.toString('base64')` and `Buffer.from(s, 'base64')` */
    base64Encode: Bytes -> string,
    base64Decode: string -> Bytes)

  /** What the envelope requires of the library: scrypt returns the length
      asked for; sealing under a 32-byte key and a 16-byte iv succeeds with a
      16-byte tag; opening with the same key, iv and tag returns the
      plaintext (NIST SP 800-38D); text and base64 decoding invert encoding
      (section 4 of RFC 4648), and base64 of some bytes is not empty. */
  ghost predicate Sound(p: Primitives) {
    && (forall pw, salt, n :: |p.scrypt(pw, salt, n)| == n)
    && (forall key, iv, pt :: |key| == KEY_LENGTH && |iv| == IV_LENGTH ==> p.seal(key, iv, pt).Ok?)
    && (forall key, iv, pt :: p.seal(key, iv, pt).Ok? ==>
          |p.seal(key, iv, pt).value.tag| == TAG_LENGTH
          && p.open(key, iv, p.seal(key, iv, pt).value.tag, p.seal(key, iv, pt).value.ciphertext) == Ok(pt))
    && (forall s :: p.utf8Decode(p.utf8Encode(s)) == s)
    && (forall bs :: p.base64Decode(p.base64Encode(bs)) == bs)
    && (forall bs :: |bs| > 0 ==> p.base64Encode(bs) != "")
  }

  /** `Buffer.concat([salt, iv, tag, encrypted])` */
  function Pack(salt: Bytes, iv: Bytes, tag: Bytes, ciphertext: Bytes): Bytes {
    salt + iv + tag + ciphertext
  }

  /** `data.subarray(start, end)`: both ends clamped to the buffer, empty when they cross. */
  function Subarray(data: Bytes, start: nat, end: nat): (r: Bytes)
    ensures |r| <= |data|
    ensures start <= end <= |data| ==> r == data[start..end]
  {
    var s := if start <= |data| then start else |data|;
    var e := if end <= |data| then end else |data|;
    if s <= e then data[s..e] else []
  }

  datatype Parts = Parts(salt: Bytes, iv: Bytes, tag: Bytes, ciphertext: Bytes)

  /** `decrypt`'s slicing at offsets 0, 16, 32 and 48. */
  function Unpack(data: Bytes): Parts {
    Parts(
      Subarray(data, 0, SALT_LENGTH),
      Subarray(data, SALT_LENGTH, SALT_LENGTH + IV_LENGTH),
      Subarray(data, SALT_LENGTH + IV_LENGTH, HEADER_LENGTH),
      Subarray(data, HEADER_LENGTH, |data|))
  }

  /** Slicing recovers exactly what was concatenated. */
  lemma UnpackPack(salt: Bytes, iv: Bytes, tag: Bytes, ciphertext: Bytes)
    requires |salt| == SALT_LENGTH && |iv| == IV_LENGTH && |tag| == TAG_LENGTH
    ensures Unpack(Pack(salt, iv, tag, ciphertext)) == Parts(salt, iv, tag, ciphertext)
  {
    var d := Pack(salt, iv, tag, ciphertext);
    assert d[0..16] == salt;
    assert d[16..32] == iv;
    assert d[32..48] == tag;
    assert d[48..|d|] == ciphertext;
  }

  /** Every buffer of at least 48 bytes is the concatenation of its slices;
      a shorter one loses at least its tag bytes. */
  lemma PackUnpack(data: Bytes)
    ensures |data| >= HEADER_LENGTH ==> var q := Unpack(data); Pack(q.salt, q.iv, q.tag, q.ciphertext) == data
    ensures |data| < HEADER_LENGTH ==> |Unpack(data).tag| < TAG_LENGTH && Unpack(data).ciphertext == []
  {
    if |data| >= HEADER_LENGTH {
      var q := Unpack(data);
      assert data == data[0..16] + data[16..32] + data[32..48] + data[48..|data|];
    }
  }

  /** The key both directions derive from the salt. */
  function DeriveKey(p: Primitives, password: string, salt: Bytes): (key: Bytes)
    ensures Sound(p) ==> |key| == KEY_LENGTH
  {
    p.scrypt(password, salt, KEY_LENGTH)
  }

  /** The body of `encrypt` up to the base64 step, for the given random salt and iv. */
  function Seal(p: Primitives, password: string, plainText: string, salt: Block16, iv: Block16): (r: Result<Bytes, string>)
    ensures r.Ok? ==>
      var s := p.seal(DeriveKey(p, password, salt), iv, p.utf8Encode(plainText));
      && s.Ok?
      && r.value == Pack(salt, iv, s.value.tag, s.value.ciphertext)
      && r.value[..SALT_LENGTH] == salt
      && r.value[SALT_LENGTH..SALT_LENGTH + IV_LENGTH] == iv
    ensures r.Err? ==> p.seal(DeriveKey(p, password, salt), iv, p.utf8Encode(plainText)) == Err(r.error)
  {
    var key := DeriveKey(p, password, salt);
    match p.seal(key, iv, p.utf8Encode(plainText))
    case Err(e) => Err(e)
    case Ok(s) =>
      var r := Pack(salt, iv, s.tag, s.ciphertext);
      assert r[..SALT_LENGTH] == salt;
      assert r[SALT_LENGTH..SALT_LENGTH + IV_LENGTH] == iv;
      Ok(r)
  }

  /** The body of `decrypt` after the base64 step. */
  function Open(p: Primitives, password: string, data: Bytes): (r: Result<string, string>)
    ensures var q := Unpack(data);
      var o := p.open(DeriveKey(p, password, q.salt), q.iv, q.tag, q.ciphertext);
      && (r.Ok? <==> o.Ok?)
      && (r.Err? ==> r.error == o.error)
      && (r.Ok? ==> r.value == p.utf8Decode(o.value))
  {
    var q := Unpack(data);
    match p.open(DeriveKey(p, password, q.salt), q.iv, q.tag, q.ciphertext)
    case Err(e) => Err(e)
    case Ok(pt) => Ok(p.utf8Decode(pt))
  }

  /** With sound primitives sealing always succeeds, the envelope is at
      least 48 bytes, and opening it under the same password gives the text back. */
  lemma OpenSeal(p: Primitives, password: string, plainText: string, salt: Block16, iv: Block16)
    requires Sound(p)
    ensures Seal(p, password, plainText, salt, iv).Ok?
    ensures |Seal(p, password, plainText, salt, iv).value| >= HEADER_LENGTH
    ensures Open(p, password, Seal(p, password, plainText, salt, iv).value) == Ok(plainText)
  {
    var key := DeriveKey(p, password, salt);
    var pt := p.utf8Encode(plainText);
    assert |key| == KEY_LENGTH;
    assert p.seal(key, iv, pt).Ok?;
    var s := p.seal(key, iv, pt).value;
    UnpackPack(salt, iv, s.tag, s.ciphertext);
  }

  /** The same round trip through the base64 text form the three copies store. */
  lemma OpenSealText(p: Primitives, password: string, plainText: string, salt: Block16, iv: Block16)
    requires Sound(p)
    ensures Seal(p, password, plainText, salt, iv).Ok?
    ensures var text := p.base64Encode(Seal(p, password, plainText, salt, iv).value);
      text != "" && Open(p, password, p.base64Decode(text)) == Ok(plainText)
  {
    OpenSeal(p, password, plainText, salt, iv);
  }
}
