/**
What the encryption filter does to a configuration, on values: the plugins, the handler that
picks one of them, and the filter around the handler.  AES, base64 and the key management service
are parameters known only to be invertible.
 */
module EncryptionSpec {
  import opened Sequences
  import opened Wrappers
  import opened Utf8
  import opened AesEcb

  const CIPHER_PREFIX := "cipher-"
  const KMS_AES_128_ALGORITHM_NAME := "cipher-kms-aes-128"
  const KMS_AES_256_ALGORITHM_NAME := "cipher-kms-aes-256"
  const KMS_ALGORITHM_NAME := "cipher"

  datatype Plugin = KmsAes128 | KmsAes256 | KmsBase

  function AlgorithmName(plugin: Plugin): string {
    match plugin
    case KmsAes128 => KMS_AES_128_ALGORITHM_NAME
    case KmsAes256 => KMS_AES_256_ALGORITHM_NAME
    case KmsBase => KMS_ALGORITHM_NAME
  }

  /** `generate` answers a plain data key and the same key encrypted. */
  datatype Kms = Kms(
    encrypt: (Bytes, Bytes) -> Result<Bytes, int>,
    decrypt: Bytes -> Result<Bytes, int>,
    generate: (Bytes, Plugin) -> Result<(Bytes, Bytes), int>,
    version1: bool,
    defaultKeyId: Bytes)

  datatype Base64 = Base64(encode: Bytes -> Bytes, decode: Bytes -> Option<Bytes>)

  datatype Env = Env(aes: Aes, base64: Base64, kms: Kms)

  // What is known of the foreign parts

  ghost predicate IsBase64(b: Base64) {
    && (forall x :: b.decode(b.encode(x)) == Some(x))
    && (forall x :: x != [] ==> b.encode(x) != [])
    && (forall x :: forall i :: 0 <= i < |b.encode(x)| ==> '+' as int <= b.encode(x)[i] <= 'z' as int)
  }

  /** A ciphertext is never blank and decrypts to what was encrypted. */
  ghost predicate IsKms(kms: Kms) {
    && (forall x, keyId :: kms.encrypt(x, keyId).Ok? ==>
          kms.decrypt(kms.encrypt(x, keyId).value) == Ok(x) && !Blank(kms.encrypt(x, keyId).value))
    && (forall keyId, plugin :: kms.generate(keyId, plugin).Ok? ==>
          kms.decrypt(kms.generate(keyId, plugin).value.1) == Ok(kms.generate(keyId, plugin).value.0))
  }

  ghost predicate IsEnv(env: Env) {
    IsBlockCipher(env.aes) && IsBase64(env.base64) && IsKms(env.kms)
  }

  // Text

  predicate IsSpace(r: int) {
    || 0x09 <= r <= 0x0D || r == 0x20 || r == 0x85 || r == 0xA0 || r == 0x1680 || 0x2000 <= r <= 0x200A
    || r == 0x2028 || r == 0x2029 || r == 0x202F || r == 0x205F || r == 0x3000
  }

  /** `strings.TrimSpace(s)` is empty. */
  predicate Blank(s: Bytes) {
    forall i | 0 <= i < |Runes(s)| :: IsSpace(Runes(s)[i])
  }

  predicate Contains(s: string, sub: string) {
    exists i | 0 <= i <= |s| :: sub <= s[i..]
  }

  /** The bytes of `DecodeString2Utf8Bytes`. */
  function ToBytes(s: Bytes): Bytes {
    Encode(Runes(s))
  }

  /** The string of `EncodeUtf8Bytes2String`. */
  function ToText(b: Bytes): Bytes {
    Encode(Windowed(b, 0, 0))
  }

  // Plugins

  datatype Param = Param(dataId: string, content: Bytes, encryptedDataKey: Bytes, plainDataKey: Bytes, keyId: Bytes)

  function KeyIdParamCheck(kms: Kms, keyId: Bytes): Result<Bytes, Error> {
    if Blank(keyId) then (if kms.version1 then Ok(kms.defaultKeyId) else Err(KeyIdParamCheckError)) else Ok(keyId)
  }

  /** The parameter after the call and the plain secret key. */
  function GenerateSecretKey(env: Env, plugin: Plugin, p: Param): (Param, Result<Bytes, Error>) {
    if plugin == KmsBase then (p, Ok([]))
    else
      match KeyIdParamCheck(env.kms, p.keyId)
      case Err(e) => (p, Err(e))
      case Ok(keyId) =>
        match env.kms.generate(keyId, plugin)
        case Err(code) => (p, Err(KmsError(code)))
        case Ok((plain, encrypted)) =>
          var q := p.(plainDataKey := plain, encryptedDataKey := encrypted);
          if plain == [] then (q, Err(EmptyPlainDataKeyError))
          else if encrypted == [] then (q, Err(EmptyEncryptedDataKeyError))
          else (q, Ok(plain))
  }

  function DecryptSecretKey(env: Env, plugin: Plugin, p: Param): (Param, Result<Bytes, Error>) {
    if plugin == KmsBase then (p, Ok([]))
    else if p.encryptedDataKey == [] then (p, Err(EmptyEncryptedDataKeyError))
    else
      match env.kms.decrypt(p.encryptedDataKey)
      case Err(code) => (p, Err(KmsError(code)))
      case Ok(plain) => if plain == [] then (p, Err(EmptyPlainDataKeyError)) else (p.(plainDataKey := plain), Ok(plain))
  }

  function AesEncryptContent(env: Env, plainDataKey: Bytes, content: Bytes): Result<Bytes, Error> {
    if plainDataKey == [] then Err(KeyIdParamCheckError)
    else if content == [] then Err(ContentParamCheckError)
    else
      match env.base64.decode(ToBytes(plainDataKey))
      case None => Err(Base64Error)
      case Some(key) =>
        match Encrypted(env.aes, ToBytes(content), key)
        case Err(e) => Err(e)
        case Ok(c) => Ok(ToText(env.base64.encode(c)))
  }

  function AesDecryptContent(env: Env, plainDataKey: Bytes, content: Bytes): Result<Bytes, Error> {
    if plainDataKey == [] then Err(KeyIdParamCheckError)
    else if content == [] then Err(ContentParamCheckError)
    else
      match env.base64.decode(ToBytes(plainDataKey))
      case None => Err(Base64Error)
      case Some(key) =>
        match env.base64.decode(ToBytes(content))
        case None => Err(Base64Error)
        case Some(cipher) =>
          match Decrypted(env.aes, cipher, key)
          case Err(e) => Err(e)
          case Ok(plain) => Ok(ToText(plain))
  }

  function BaseEncryptContent(env: Env, keyId: Bytes, content: Bytes): Result<Bytes, Error> {
    match KeyIdParamCheck(env.kms, keyId)
    case Err(e) => Err(e)
    case Ok(id) =>
      if content == [] then Err(EmptyContentError)
      else
        match env.kms.encrypt(content, id)
        case Err(code) => Err(KmsError(code))
        case Ok(c) => Ok(c)
  }

  function BaseDecryptContent(env: Env, content: Bytes): Result<Bytes, Error> {
    if content == [] then Ok(content)
    else
      match env.kms.decrypt(content)
      case Err(code) => Err(KmsError(code))
      case Ok(c) => Ok(c)
  }

  function EncryptContent(env: Env, plugin: Plugin, p: Param): Result<Bytes, Error> {
    if plugin == KmsBase then BaseEncryptContent(env, p.keyId, p.content)
    else AesEncryptContent(env, p.plainDataKey, p.content)
  }

  function DecryptContent(env: Env, plugin: Plugin, p: Param): Result<Bytes, Error> {
    if plugin == KmsBase then BaseDecryptContent(env, p.content) else AesDecryptContent(env, p.plainDataKey, p.content)
  }

  function WithContent(p: Param, r: Result<Bytes, Error>): (Param, Option<Error>) {
    match r
    case Err(e) => (p, Some(e))
    case Ok(content) => (p.(content := content), None)
  }

  // Handler

  /** `plugin` is registered under a name that occurs in `dataId`, and no longer registered name does. */
  ghost predicate Picks(plugins: map<string, Plugin>, dataId: string, plugin: Plugin) {
    exists name :: name in plugins && plugins[name] == plugin && name != "" && Contains(dataId, name)
      && forall other :: other in plugins && Contains(dataId, other) ==> |other| <= |name|
  }

  ghost predicate AnyMatch(plugins: map<string, Plugin>, dataId: string) {
    exists name :: name in plugins && name != "" && Contains(dataId, name)
  }

  function EncryptWith(env: Env, plugin: Plugin, p: Param): (Param, Option<Error>) {
    var (q, key) := GenerateSecretKey(env, plugin, p);
    match key
    case Err(e) => (q, Some(e))
    case Ok(plain) =>
      var keyed := q.(plainDataKey := plain);
      WithContent(keyed, EncryptContent(env, plugin, keyed))
  }

  function DecryptWith(env: Env, plugin: Plugin, p: Param): (Param, Option<Error>) {
    var (q, key) := DecryptSecretKey(env, plugin, p);
    match key
    case Err(e) => (q, Some(e))
    case Ok(plain) =>
      var keyed := q.(plainDataKey := plain);
      WithContent(keyed, DecryptContent(env, plugin, keyed))
  }

  function ParamCheck(p: Param): Option<Error> {
    if !Contains(p.dataId, CIPHER_PREFIX) then Some(DataIdParamCheckError)
    else if p.content == [] then Some(ContentParamCheckError)
    else None
  }

  datatype Direction = Encrypting | Decrypting

  function With(env: Env, d: Direction, plugin: Plugin, p: Param): (Param, Option<Error>) {
    match d
    case Encrypting => EncryptWith(env, plugin, p)
    case Decrypting => DecryptWith(env, plugin, p)
  }

  /** The handler may turn `p` into `q` with outcome `err`; plugins of equal name length are picked freely. */
  ghost predicate Handles(env: Env, plugins: map<string, Plugin>, d: Direction, p: Param, q: Param,
                          err: Option<Error>) {
    if ParamCheck(p).Some? then q == p && err == ParamCheck(p)
    else if !AnyMatch(plugins, p.dataId) then q == p && err == Some(PluginNotFoundError)
    else exists plugin :: Picks(plugins, p.dataId, plugin) && (q, err) == With(env, d, plugin, p)
  }

  // Filter

  datatype Usage = RequestType | ResponseType | OtherUsage

  datatype Config = Config(dataId: string, content: Bytes, encryptedDataKey: Bytes, kmsKeyId: Bytes, usage: Usage)

  /** The configurations the filter leaves alone. */
  predicate NoNeedEncryption(c: Config) {
    !(CIPHER_PREFIX <= c.dataId) || Blank(c.content)
  }

  ghost predicate Filters(env: Env, plugins: map<string, Plugin>, before: Config, after: Config, err: Option<Error>) {
    if NoNeedEncryption(before) || before.usage == OtherUsage then after == before && err == None
    else if before.usage == RequestType then
      exists q :: Handles(env, plugins, Encrypting, Param(before.dataId, before.content, [], [], before.kmsKeyId), q,
                          err)
        && after == if err == None then before.(content := q.content, encryptedDataKey := q.encryptedDataKey)
          else before
    else
      exists q :: Handles(env, plugins, Decrypting,
                          Param(before.dataId, before.content, before.encryptedDataKey, [], []), q, err)
        && after == if err == None then before.(content := q.content) else before
  }
}
