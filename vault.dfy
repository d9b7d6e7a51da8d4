/**
 * The credential vault of the main process: a machine-derived passphrase,
 * encryption of the API key under it, and fail-soft decryption.
 *
 * The host lookups, SHA-256 and the AES passphrase scheme are foreign
 * code; they are the fields of a `Platform` value, about which nothing
 * is known except what a lemma states as a hypothesis.
 */
module Vault {
  import opened Js

  /** What the `os` module reports; `firstCpuModel` is `None` when no CPU is listed. */
  datatype HostInfo = HostInfo(
    hostname: JsString,
    platform: JsString,
    arch: JsString,
    firstCpuModel: Option<JsString>)

  /** What decrypting and then decoding the bytes as UTF-8 gives: a string, or a thrown error. */
  datatype Decoded = Decoded(text: JsString) | Malformed

  /** The random salt the passphrase scheme draws on every encryption. */
  type Salt = nat

  /** The foreign pieces the vault is built on. */
  datatype Platform = Platform(
    host: HostInfo,
    sha256Hex: JsString -> JsString,
    aesEncrypt: (JsString, JsString, Salt) -> JsString,
    aesDecrypt: (JsString, JsString) -> Decoded)

  /**
   * The property the vault needs of the cipher: decrypting under the same
   * passphrase undoes encrypting, for every text the cipher accepts, that
   * is, every well-formed one.
   */
  ghost predicate CipherRoundTrips(p: Platform) {
    forall text, passphrase, salt :: WellFormedUtf16(text) ==>
      p.aesDecrypt(p.aesEncrypt(text, passphrase, salt), passphrase) == Decoded(text)
  }

  /** UTF-8 decoding never yields an unpaired surrogate. */
  ghost predicate DecodesWellFormed(p: Platform) {
    forall ciphertext, passphrase :: p.aesDecrypt(ciphertext, passphrase).Decoded? ==>
      WellFormedUtf16(p.aesDecrypt(ciphertext, passphrase).text)
  }

  /** Both hypotheses can hold together, so the lemmas resting on them are not vacuous. */
  lemma CipherHypothesesSatisfiable()
    ensures exists p :: CipherRoundTrips(p) && DecodesWellFormed(p)
  {
    var h := HostInfo([], [], [], None);
    var p := Platform(h, s => s, (text, passphrase, salt) => text,
      (c, passphrase) => if WellFormedUtf16(c) then Decoded(c) else Malformed);
    assert CipherRoundTrips(p);
    assert DecodesWellFormed(p);
  }

  /** The error reading `model` of a missing first CPU throws. */
  const MissingCpuError: JsString := Literal("Cannot read properties of undefined (reading 'model')")

  /** The error UTF-8 encoding throws on an unpaired surrogate. */
  const UriMalformedError: JsString := Literal("URI malformed")

  /** What `encrypt` gives: a ciphertext, or the error it throws. */
  datatype Encrypted = Ciphertext(value: JsString) | EncryptError(error: JsString)

  /**
   * The machine identifier: host name, platform, architecture and first
   * CPU model joined by hyphens; `None` when there is no first CPU, where
   * the lookup throws.
   */
  function MachineId(h: HostInfo): (id: Option<JsString>)
    ensures id.Some? <==> h.firstCpuModel.Some?
    ensures id.Some? ==>
      id.value == h.hostname + [HyphenMinus] + h.platform + [HyphenMinus] + h.arch + [HyphenMinus] + h.firstCpuModel.value
  {
    match h.firstCpuModel
    case None => None
    case Some(cpu) =>
      Some(h.hostname + [HyphenMinus] + h.platform + [HyphenMinus] + h.arch + [HyphenMinus] + cpu)
  }

  /** Hyphens inside the parts make two different hosts share an identifier, hence a passphrase. */
  lemma MachineIdCollides()
    ensures exists h1, h2 :: h1 != h2 && MachineId(h1).Some? && MachineId(h1) == MachineId(h2)
  {
    var a, b, c: CodeUnit := 0x61, 0x62, 0x63;
    var h1 := HostInfo([a, HyphenMinus, b], [c], [a], Some([a]));
    var h2 := HostInfo([a], [b, HyphenMinus, c], [a], Some([a]));
    assert MachineId(h1).value == [a, HyphenMinus, b, HyphenMinus, c, HyphenMinus, a, HyphenMinus, a];
    assert MachineId(h2).value == [a, HyphenMinus, b, HyphenMinus, c, HyphenMinus, a, HyphenMinus, a];
    assert h1.hostname != h2.hostname;
  }

  /** The passphrase: the hexadecimal SHA-256 digest of the machine identifier. */
  function MachineSecret(p: Platform): (secret: Option<JsString>)
    ensures secret.Some? <==> p.host.firstCpuModel.Some?
    ensures secret.Some? ==> secret.value == p.sha256Hex(MachineId(p.host).value)
  {
    match MachineId(p.host)
    case None => None
    case Some(id) => Some(p.sha256Hex(id))
  }

  /**
   * `encrypt`: the ciphertext under the machine passphrase. Deriving the
   * passphrase throws first when no CPU is listed; encoding the text as
   * UTF-8 then throws on an unpaired surrogate.
   */
  function Encrypt(p: Platform, text: JsString, salt: Salt): (c: Encrypted)
    ensures c.Ciphertext? <==> p.host.firstCpuModel.Some? && WellFormedUtf16(text)
    ensures p.host.firstCpuModel.None? ==> c == EncryptError(MissingCpuError)
    ensures p.host.firstCpuModel.Some? && !WellFormedUtf16(text) ==> c == EncryptError(UriMalformedError)
    ensures c.Ciphertext? ==> c.value == p.aesEncrypt(text, MachineSecret(p).value, salt)
  {
    match MachineSecret(p)
    case None => EncryptError(MissingCpuError)
    case Some(secret) =>
      if WellFormedUtf16(text) then Ciphertext(p.aesEncrypt(text, secret, salt)) else EncryptError(UriMalformedError)
  }

  /** A lone high surrogate, `'\uD800'`, cannot be saved: `encrypt` throws. */
  lemma LoneSurrogateRefused(p: Platform, salt: Salt)
    requires p.host.firstCpuModel.Some?
    ensures Encrypt(p, [0xD800], salt) == EncryptError(UriMalformedError)
  {
    assert !PairedAt([0xD800], 0);
  }

  /**
   * `decrypt`: total. A thrown error, whether from deriving the passphrase
   * or from decoding, becomes the empty string.
   */
  function Decrypt(p: Platform, ciphertext: JsString): (text: JsString)
    ensures text != [] ==>
      MachineSecret(p).Some? && p.aesDecrypt(ciphertext, MachineSecret(p).value) == Decoded(text)
    ensures MachineSecret(p).None? ==> text == []
    ensures MachineSecret(p).Some? && p.aesDecrypt(ciphertext, MachineSecret(p).value).Malformed? ==> text == []
    ensures MachineSecret(p).Some? && p.aesDecrypt(ciphertext, MachineSecret(p).value).Decoded? ==>
      text == p.aesDecrypt(ciphertext, MachineSecret(p).value).text
  {
    match MachineSecret(p)
    case None => []
    case Some(secret) =>
      match p.aesDecrypt(ciphertext, secret)
      case Decoded(t) => t
      case Malformed => []
  }

  /** `getApiKey` on a stored ciphertext: empty ciphertext gives `''` whatever the cipher does with it. */
  function StoredApiKey(p: Platform, encryptedApiKey: JsString): (apiKey: JsString)
    ensures encryptedApiKey == [] ==> apiKey == []
    ensures encryptedApiKey != [] ==> apiKey == Decrypt(p, encryptedApiKey)
  {
    if encryptedApiKey == [] then [] else Decrypt(p, encryptedApiKey)
  }

  /** Under the cipher's round trip, decrypting what `Encrypt` produced gives the plaintext back. */
  lemma DecryptEncrypt(p: Platform, text: JsString, salt: Salt)
    requires CipherRoundTrips(p)
    ensures Encrypt(p, text, salt).Ciphertext? ==> Decrypt(p, Encrypt(p, text, salt).value) == text
  {
    if Encrypt(p, text, salt).Ciphertext? {
      var secret := MachineSecret(p).value;
      assert p.aesDecrypt(p.aesEncrypt(text, secret, salt), secret) == Decoded(text);
    }
  }

  /** A key that was stored is read back, unless its ciphertext is empty, when `''` is read. */
  lemma StoredApiKeyRoundTrip(p: Platform, apiKey: JsString, salt: Salt)
    requires CipherRoundTrips(p)
    requires Encrypt(p, apiKey, salt).Ciphertext?
    ensures var c := Encrypt(p, apiKey, salt).value;
      StoredApiKey(p, c) == if c == [] then [] else apiKey
  {
    DecryptEncrypt(p, apiKey, salt);
  }

  /** Two different hosts derive the same passphrase, so each can read the other's stored key. */
  lemma PassphraseCollides(p: Platform)
    ensures exists h1, h2 ::
      && h1 != h2
      && MachineSecret(p.(host := h1)).Some?
      && MachineSecret(p.(host := h1)) == MachineSecret(p.(host := h2))
  {
    MachineIdCollides();
    var h1, h2 :| h1 != h2 && MachineId(h1).Some? && MachineId(h1) == MachineId(h2);
    assert MachineSecret(p.(host := h1)) == Some(p.sha256Hex(MachineId(h1).value));
    assert MachineSecret(p.(host := h2)) == Some(p.sha256Hex(MachineId(h2).value));
  }

  /** What `decrypt` returns is always well-formed text, so it could be encrypted again. */
  lemma DecryptWellFormed(p: Platform, ciphertext: JsString)
    requires DecodesWellFormed(p)
    ensures WellFormedUtf16(Decrypt(p, ciphertext))
  {
    if MachineSecret(p).Some? && p.aesDecrypt(ciphertext, MachineSecret(p).value).Decoded? {
      assert WellFormedUtf16(p.aesDecrypt(ciphertext, MachineSecret(p).value).text);
    }
  }

  /** The short cut matters: a cipher may decrypt `''` to something, yet `getApiKey` still gives `''`. */
  lemma EmptyCiphertextSkipsDecrypt(p: Platform)
    requires p.host.firstCpuModel.Some?
    requires p.aesDecrypt([], MachineSecret(p).value).Decoded?
    ensures Decrypt(p, []) == p.aesDecrypt([], MachineSecret(p).value).text
    ensures StoredApiKey(p, []) == []
  {
  }
}
