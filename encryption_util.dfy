/** `EncryptionUtil`: the static envelope encrypt/decrypt, the
    `salt:hash` password hash, key generation and display masking. */
module EncryptionUtility {
  import opened Wrappers
  import opened Text
  import opened Hex
  import opened Envelope

  /** The prefixes of the re-thrown error messages. */
  const ENCRYPTION_FAILED: string := "Encryption failed: "
  const DECRYPTION_FAILED: string := "Decryption failed: "
  const HASH_LENGTH: nat := 64

  /** `encrypt(plainText, encryptionKey)` for the random `salt` and `iv`:
      the base64 envelope, or the library's failure re-thrown with a prefix. */
  function Encrypt(p: Primitives, plainText: string, encryptionKey: string, salt: Block16, iv: Block16): (r: Result<string, string>)
    ensures r.Ok? <==> Seal(p, encryptionKey, plainText, salt, iv).Ok?
    ensures r.Ok? ==> r.value == p.base64Encode(Seal(p, encryptionKey, plainText, salt, iv).value)
    ensures r.Err? ==>
      StartsWith(r.error, ENCRYPTION_FAILED) && r.error[|ENCRYPTION_FAILED|..] == Seal(p, encryptionKey, plainText, salt, iv).error
  {
    match Seal(p, encryptionKey, plainText, salt, iv)
    case Ok(data) => Ok(p.base64Encode(data))
    case Err(e) => Err(ENCRYPTION_FAILED + e)
  }

  /** `decrypt(encryptedData, encryptionKey)`: the text, or the failure re-thrown with a prefix. */
  function Decrypt(p: Primitives, encryptedData: string, encryptionKey: string): (r: Result<string, string>)
    ensures r.Ok? <==> Open(p, encryptionKey, p.base64Decode(encryptedData)).Ok?
    ensures r.Ok? ==> r.value == Open(p, encryptionKey, p.base64Decode(encryptedData)).value
    ensures r.Err? ==>
      StartsWith(r.error, DECRYPTION_FAILED) && r.error[|DECRYPTION_FAILED|..] == Open(p, encryptionKey, p.base64Decode(encryptedData)).error
  {
    match Open(p, encryptionKey, p.base64Decode(encryptedData))
    case Ok(text) => Ok(text)
    case Err(e) => Err(DECRYPTION_FAILED + e)
  }

  /** `decrypt(encrypt(p, k), k) == p` for every text and key. */
  lemma DecryptEncrypt(p: Primitives, plainText: string, encryptionKey: string, salt: Block16, iv: Block16)
    requires Sound(p)
    ensures Encrypt(p, plainText, encryptionKey, salt, iv).Ok?
    ensures Decrypt(p, Encrypt(p, plainText, encryptionKey, salt, iv).value, encryptionKey) == Ok(plainText)
  {
    OpenSealText(p, encryptionKey, plainText, salt, iv);
  }

  // ------------------------------------------------------------------ hash

  /** The salt `hash` uses: the supplied hex salt, else the random one. */
  function HashSalt(salt: Option<string>, random: Block16): (r: Bytes)
    ensures salt.None? || salt == Some("") ==> r == random
    ensures salt.Some? && salt.value != "" ==> |r| <= |salt.value| / 2
  {
    if salt.Some? && salt.value != "" then FromHex(salt.value) else random
  }

  /** `hash(data, salt?)`: `hex(salt) + ':' + hex(scrypt(data, salt, 64))`. */
  function Hash(p: Primitives, data: string, salt: Option<string>, random: Block16): (h: string)
    ensures var parts := Split(h, ':');
      && |parts| == 2
      && FromHex(parts[0]) == HashSalt(salt, random)
      && parts[1] == ToHex(p.scrypt(data, HashSalt(salt, random), HASH_LENGTH))
  {
    var saltBuffer := HashSalt(salt, random);
    var digest := p.scrypt(data, saltBuffer, HASH_LENGTH);
    SplitHash(saltBuffer, digest);
    FromHexToHex(saltBuffer);
    ToHex(saltBuffer) + ":" + ToHex(digest)
  }

  /** `verifyHash(data, hashedData)`: recompute from the salt before the
      first `:` and compare with the part after it (a missing part never matches). */
  function VerifyHash(p: Primitives, data: string, hashedData: string): (b: bool)
    ensures ':' !in hashedData ==> !b
    ensures b ==> var parts := Split(hashedData, ':');
      |parts| > 1 && parts[1] == ToHex(p.scrypt(data, FromHex(parts[0]), HASH_LENGTH))
  {
    var parts := Split(hashedData, ':');
    assert ':' !in hashedData ==> |parts| == 1 by {
      if ':' !in hashedData {
        SplitNoSeparator(hashedData, ':');
      }
    }
    var hash := if |parts| > 1 then Some(parts[1]) else None;
    hash == Some(ToHex(p.scrypt(data, FromHex(parts[0]), HASH_LENGTH)))
  }

  /** A stored hash splits back into its salt and digest. */
  lemma SplitHash(salt: Bytes, digest: Bytes)
    ensures Split(ToHex(salt) + ":" + ToHex(digest), ':') == [ToHex(salt), ToHex(digest)]
  {
    ToHexHasNoColon(salt);
    ToHexHasNoColon(digest);
    SplitAtFirst(ToHex(salt), ':', ToHex(digest));
    SplitNoSeparator(ToHex(digest), ':');
  }

  /** A hash verifies against a text exactly when the key derivation gives
      that text the same digest under the stored salt; in particular every
      text verifies against its own hash. */
  lemma VerifyHashIff(p: Primitives, data: string, other: string, salt: Option<string>, random: Block16)
    ensures var sb := HashSalt(salt, random);
      VerifyHash(p, other, Hash(p, data, salt, random)) <==>
        p.scrypt(other, sb, HASH_LENGTH) == p.scrypt(data, sb, HASH_LENGTH)
    ensures VerifyHash(p, data, Hash(p, data, salt, random))
  {
    var sb := HashSalt(salt, random);
    SplitHash(sb, p.scrypt(data, sb, HASH_LENGTH));
    FromHexToHex(sb);
    if ToHex(p.scrypt(other, sb, HASH_LENGTH)) == ToHex(p.scrypt(data, sb, HASH_LENGTH)) {
      ToHexInjective(p.scrypt(other, sb, HASH_LENGTH), p.scrypt(data, sb, HASH_LENGTH));
    }
  }

  /** Passing back the salt part of a hash reproduces that hash. */
  lemma HashReusesSalt(p: Primitives, data: string, random: Block16, other: Block16)
    ensures Hash(p, data, Some(ToHex(random)), other) == Hash(p, data, None, random)
  {
    FromHexToHex(random);
  }

  // ------------------------------------------------------------ generateKey

  type Bytes32 = b: Bytes | |b| == KEY_LENGTH
    witness [0, 0, 0, 0, 0, 0, 0, 0, 0, 0, 0, 0, 0, 0, 0, 0, 0, 0, 0, 0, 0, 0, 0, 0, 0, 0, 0, 0, 0, 0, 0, 0]

  /** `generateKey()` for the random bytes `random`: 64 lower-case hex digits. */
  function GenerateKey(random: Bytes32): (k: string)
    ensures |k| == 2 * KEY_LENGTH
    ensures forall i :: 0 <= i < |k| ==> IsLowerHexChar(k[i])
  {
    ToHex(random)
  }

  /** The key text carries the drawn bytes and nothing else. */
  lemma GenerateKeyDecodes(random: Bytes32)
    ensures FromHex(GenerateKey(random)) == random
  {
    FromHexToHex(random);
  }

  // ------------------------------------------------------------------- mask

  const MASK: string := "****"
  const DEFAULT_VISIBLE_CHARS: int := 4

  function Stars(n: nat): (r: string)
    ensures |r| == n && forall i :: 0 <= i < n ==> r[i] == '*'
  {
    seq(n, _ => '*')
  }

  /** `maskSensitiveData(data, visibleChars)`; a negative `visibleChars`
      keeps nothing and pads with extra stars, as `substring` and `repeat` do. */
  function MaskSensitiveData(data: string, visibleChars: int := DEFAULT_VISIBLE_CHARS): (r: string)
    ensures data == "" || |data| <= visibleChars ==> r == MASK
    ensures 0 <= visibleChars < |data| ==>
      |r| == |data| && r[..visibleChars] == data[..visibleChars]
      && forall i :: visibleChars <= i < |r| ==> r[i] == '*'
    ensures forall i :: 0 <= i < |r| && r[i] != '*' ==> 0 <= i < visibleChars && i < |data| && r[i] == data[i]
  {
    if data == "" || |data| <= visibleChars then MASK
    else
      var kept := if visibleChars >= 0 then visibleChars else 0;
      data[..kept] + Stars(|data| - visibleChars)
  }
}
