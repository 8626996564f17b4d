/** Filtering a configuration as a request and then as a response restores it. */
module EncryptionRoundTrip {
  import opened Sequences
  import opened Wrappers
  import opened Utf8
  import opened AesEcb
  import opened EncryptionSpec

  // The assumptions on the foreign parts can be met

  function High(b: byte): byte { '0' as int + b / 16 }

  function Low(b: byte): byte { '0' as int + b % 16 }

  function Both(high: byte, low: byte): Option<byte> {
    var b := (high as int - '0' as int) * 16 + low as int - '0' as int;
    if 0 <= b < 256 then Some(b) else None
  }

  lemma BothParts(b: byte)
    ensures Both(High(b), Low(b)) == Some(b)
    ensures '+' as int <= High(b) <= 'z' as int && '+' as int <= Low(b) <= 'z' as int
  {
  }

  function Spell(x: Bytes): Bytes {
    if x == [] then [] else [High(x[0]), Low(x[0])] + Spell(x[1..])
  }

  function Unspell(s: Bytes): Option<Bytes> {
    if |s| < 2 then Some([])
    else
      var b, rest := Both(s[0], s[1]), Unspell(s[2..]);
      if b.Some? && rest.Some? then Some([b.value] + rest.value) else None
  }

  lemma {:induction false} SpellRoundTrip(x: Bytes)
    ensures Unspell(Spell(x)) == Some(x)
    ensures forall i :: 0 <= i < |Spell(x)| ==> '+' as int <= Spell(x)[i] <= 'z' as int
  {
    if x != [] {
      SpellRoundTrip(x[1..]);
      BothParts(x[0]);
      assert Spell(x)[2..] == Spell(x[1..]);
      assert x == [x[0]] + x[1..];
    }
  }

  function Mirror(key: Bytes, block: Bytes): Bytes {
    if |block| == BLOCK_SIZE then block else Repeat(0, BLOCK_SIZE)
  }

  lemma SpellIsBase64()
    ensures IsBase64(SPELLING)
  {
    forall x: Bytes
      ensures Unspell(Spell(x)) == Some(x) && (x != [] ==> Spell(x) != [])
      ensures forall i :: 0 <= i < |Spell(x)| ==> '+' as int <= Spell(x)[i] <= 'z' as int
    {
      SpellRoundTrip(x);
    }
  }

  function Refuse(x: Bytes, keyId: Bytes): Result<Bytes, int> {
    Err(0)
  }

  function ZeroKey(): Bytes {
    Spell(Repeat(0, BLOCK_SIZE))
  }

  function OneKey(x: Bytes): Result<Bytes, int> {
    Ok(ZeroKey())
  }

  function OneKeyPair(keyId: Bytes, plugin: Plugin): Result<(Bytes, Bytes), int> {
    Ok((ZeroKey(), ZeroKey()))
  }

  const SPELLING: Base64 := Base64(Spell, Unspell)

  const ONE_KEY: Kms := Kms(Refuse, OneKey, OneKeyPair, true, [0])

  const MIRRORS: Env := Env(Aes(Mirror, Mirror), SPELLING, ONE_KEY)

  lemma OneKeyIsKms()
    ensures IsKms(ONE_KEY)
  {
  }

  lemma MirrorIsBlockCipher()
    ensures IsBlockCipher(Aes(Mirror, Mirror))
  {
  }

  lemma IsEnvOf(env: Env)
    requires IsBlockCipher(env.aes) && IsBase64(env.base64) && IsKms(env.kms)
    ensures IsEnv(env)
  {
  }

  lemma EnvExists()
    ensures IsEnv(MIRRORS)
  {
    SpellIsBase64();
    OneKeyIsKms();
    MirrorIsBlockCipher();
    IsEnvOf(MIRRORS);
  }

  // Text

  lemma ValidText(s: Bytes)
    ensures Valid(s) <==> ToBytes(s) == s
    ensures Valid(s) <==> ToText(s) == s
  {
    ReencodeIffValid(s);
    WindowIffValid(s);
  }

  lemma BytesAreValid(s: Bytes)
    ensures Valid(ToBytes(s)) && ToText(ToBytes(s)) == ToBytes(s)
    ensures s != [] ==> ToBytes(s) != []
  {
    assert Scalars(Runes(s)) && Encode(Runes(s)) == ToBytes(s);
    ValidText(ToBytes(s));
  }

  lemma Base64Text(b: Base64, x: Bytes)
    requires IsBase64(b) && x != []
    ensures ToBytes(b.encode(x)) == b.encode(x) && ToText(b.encode(x)) == b.encode(x)
    ensures b.encode(x) != [] && !Blank(b.encode(x))
  {
    var e := b.encode(x);
    AsciiIsValid(e);
    ValidText(e);
    assert !IsSpace(Runes(e)[0]);
  }

  // Plugins

  lemma AesContentRoundTrip(env: Env, plainDataKey: Bytes, content: Bytes)
    requires IsEnv(env) && AesEncryptContent(env, plainDataKey, content).Ok?
    ensures var c := AesEncryptContent(env, plainDataKey, content).value;
            c != [] && !Blank(c) && AesDecryptContent(env, plainDataKey, c) == Ok(ToBytes(content))
  {
    var key := env.base64.decode(ToBytes(plainDataKey)).value;
    BytesAreValid(content);
    AesRoundTrip(env.aes, ToBytes(content), key);
    Base64Text(env.base64, Encrypted(env.aes, ToBytes(content), key).value);
  }

  lemma BaseContentRoundTrip(env: Env, keyId: Bytes, content: Bytes)
    requires IsEnv(env) && BaseEncryptContent(env, keyId, content).Ok?
    ensures var c := BaseEncryptContent(env, keyId, content).value;
            c != [] && !Blank(c) && BaseDecryptContent(env, c) == Ok(content)
  {
    var id := KeyIdParamCheck(env.kms, keyId).value;
    assert env.kms.encrypt(content, id).Ok?;
    assert Runes([]) == [];
  }

  /** In that environment the AES plugins encrypt every non-empty content, so encrypted round trips exist. */
  lemma EnvEncrypts(p: Param, plugin: Plugin)
    requires plugin != KmsBase && p.content != []
    ensures EncryptWith(MIRRORS, plugin, p).1 == None
  {
    ZeroKeyDecodes();
    ZeroKeyEncrypts(MIRRORS, p.content);
    assert GenerateSecretKey(MIRRORS, plugin, p).1 == Ok(ZeroKey());
  }

  lemma ZeroKeyDecodes()
    ensures ZeroKey() != [] && SPELLING.decode(ToBytes(ZeroKey())) == Some(Repeat(0, BLOCK_SIZE))
  {
    SpellIsBase64();
    SpellRoundTrip(Repeat(0, BLOCK_SIZE));
    Base64Text(SPELLING, Repeat(0, BLOCK_SIZE));
    assert SPELLING.encode(Repeat(0, BLOCK_SIZE)) == ZeroKey();
  }

  lemma ZeroKeyEncrypts(env: Env, content: Bytes)
    requires content != [] && ZeroKey() != []
    requires env.base64.decode(ToBytes(ZeroKey())) == Some(Repeat(0, BLOCK_SIZE))
    ensures AesEncryptContent(env, ZeroKey(), content).Ok?
  {
  }

  /** What a round trip through `plugin` gives back: the AES plugins replace bytes that are not UTF-8. */
  function Restored(plugin: Plugin, content: Bytes): Bytes {
    if plugin == KmsBase then content else ToBytes(content)
  }

  lemma PluginRoundTrip(env: Env, p: Param, encryptor: Plugin, decryptor: Plugin)
    requires IsEnv(env) && EncryptWith(env, encryptor, p).1 == None
    requires encryptor == KmsBase <==> decryptor == KmsBase
    ensures var q := EncryptWith(env, encryptor, p).0;
            var r := DecryptWith(env, decryptor, Param(p.dataId, q.content, q.encryptedDataKey, [], []));
            q.content != [] && !Blank(q.content) && r.1 == None && r.0.content == Restored(encryptor, p.content)
  {
    var keyed := GenerateSecretKey(env, encryptor, p).0;
    if encryptor == KmsBase {
      BaseContentRoundTrip(env, p.keyId, p.content);
    } else {
      var keyId := KeyIdParamCheck(env.kms, p.keyId).value;
      assert env.kms.generate(keyId, encryptor).Ok?;
      AesContentRoundTrip(env, keyed.plainDataKey, p.content);
    }
  }

  // Handler

  /** Every plugin is registered under its own name. */
  ghost predicate Registered(plugins: map<string, Plugin>) {
    forall name :: name in plugins ==> name == AlgorithmName(plugins[name])
  }

  /** Plugins picked for one data id either all use AES or none does. */
  lemma PicksAgree(plugins: map<string, Plugin>, dataId: string, a: Plugin, b: Plugin)
    requires Registered(plugins) && Picks(plugins, dataId, a) && Picks(plugins, dataId, b)
    ensures a == KmsBase <==> b == KmsBase
  {
    var m :| m in plugins && plugins[m] == a && m != "" && Contains(dataId, m)
      && forall other :: other in plugins && Contains(dataId, other) ==> |other| <= |m|;
    var n :| n in plugins && plugins[n] == b && n != "" && Contains(dataId, n)
      && forall other :: other in plugins && Contains(dataId, other) ==> |other| <= |n|;
    assert |m| == |n|;
  }

  // Filter

  /** The plugins that a request for `dataId` may be encrypted with use AES. */
  ghost predicate UsesAes(plugins: map<string, Plugin>, dataId: string) {
    exists plugin :: plugin != KmsBase && Picks(plugins, dataId, plugin)
  }

  /** The content a round trip restores. */
  ghost function RestoredContent(plugins: map<string, Plugin>, c: Config): Bytes {
    if !NoNeedEncryption(c) && UsesAes(plugins, c.dataId) then ToBytes(c.content) else c.content
  }

  lemma UsesAesIff(plugins: map<string, Plugin>, dataId: string, plugin: Plugin)
    requires Registered(plugins) && Picks(plugins, dataId, plugin)
    ensures UsesAes(plugins, dataId) <==> plugin != KmsBase
  {
    if UsesAes(plugins, dataId) {
      var other :| other != KmsBase && Picks(plugins, dataId, other);
      PicksAgree(plugins, dataId, plugin, other);
    }
  }

  /** The plugin behind a handled parameter that passed the checks. */
  lemma Picked(env: Env, plugins: map<string, Plugin>, d: Direction, p: Param, q: Param,
               err: Option<Error>) returns (plugin: Plugin)
    requires Handles(env, plugins, d, p, q, err) && ParamCheck(p) == None && AnyMatch(plugins, p.dataId)
    ensures Picks(plugins, p.dataId, plugin) && (q, err) == With(env, d, plugin, p)
  {
    plugin :| Picks(plugins, p.dataId, plugin) && (q, err) == With(env, d, plugin, p);
  }

  lemma HandlerRoundTrip(env: Env, plugins: map<string, Plugin>, p: Param, q: Param, r: Param, err: Option<Error>)
    requires IsEnv(env) && Registered(plugins)
    requires Handles(env, plugins, Encrypting, p, q, None)
    requires Handles(env, plugins, Decrypting, Param(p.dataId, q.content, q.encryptedDataKey, [], []), r, err)
    ensures err == None
    ensures r.content == if UsesAes(plugins, p.dataId) then ToBytes(p.content) else p.content
  {
    var encryptor := Picked(env, plugins, Encrypting, p, q, None);
    PluginRoundTrip(env, p, encryptor, encryptor);
    var decryptor := Picked(env, plugins, Decrypting, Param(p.dataId, q.content, q.encryptedDataKey, [], []), r, err);
    PicksAgree(plugins, p.dataId, encryptor, decryptor);
    PluginRoundTrip(env, p, encryptor, decryptor);
    UsesAesIff(plugins, p.dataId, encryptor);
  }

  /**
  If filtering `c` as a request succeeds with `sent`, then filtering `sent` as a response succeeds
  with `back`, whichever longest-matching plugin each side picks.  The content is restored exactly
  when it is valid UTF-8, or was left alone, or went to the service as it is.
   */
  lemma FilterRoundTrip(env: Env, plugins: map<string, Plugin>, c: Config, sent: Config, back: Config,
                        err: Option<Error>)
    requires IsEnv(env) && Registered(plugins)
    requires c.usage == RequestType && Filters(env, plugins, c, sent, None)
    requires Filters(env, plugins, sent.(usage := ResponseType), back, err)
    ensures err == None && back.content == RestoredContent(plugins, c)
    ensures back.content == c.content <==> Valid(c.content) || NoNeedEncryption(c) || !UsesAes(plugins, c.dataId)
  {
    ValidText(c.content);
    if !NoNeedEncryption(c) {
      var p := Param(c.dataId, c.content, [], [], c.kmsKeyId);
      var q :| Handles(env, plugins, Encrypting, p, q, None)
        && sent == c.(content := q.content, encryptedDataKey := q.encryptedDataKey);
      SentIsFiltered(env, plugins, p, q);
      var r :| Handles(env, plugins, Decrypting, Param(c.dataId, q.content, q.encryptedDataKey, [], []), r, err)
        && back == if err == None then sent.(usage := ResponseType).(content := r.content)
          else sent.(usage := ResponseType);
      HandlerRoundTrip(env, plugins, p, q, r, err);
    }
  }

  /** What a request sends is not blank, so the response filter does not leave it alone. */
  lemma SentIsFiltered(env: Env, plugins: map<string, Plugin>, p: Param, q: Param)
    requires IsEnv(env) && Handles(env, plugins, Encrypting, p, q, None)
    ensures !Blank(q.content)
  {
    var encryptor := Picked(env, plugins, Encrypting, p, q, None);
    PluginRoundTrip(env, p, encryptor, encryptor);
  }

  // The caller's key

  /** The key id that is used: the caller's, or the default of the first version of the service. */
  function KeyUsed(env: Env, keyId: Bytes): Bytes {
    if Blank(keyId) then env.kms.defaultKeyId else keyId
  }

  /** The content an AES plugin makes of `content` under the data key `plain`, which must decode to an AES key. */
  ghost predicate AesEncrypts(env: Env, plain: Bytes, content: Bytes, encrypted: Bytes) {
    exists key, cipher ::
      && env.base64.decode(ToBytes(plain)) == Some(key)
      && Encrypted(env.aes, ToBytes(content), key) == Ok(cipher)
      && encrypted == ToText(env.base64.encode(cipher))
  }

  /** What a successful encryption hands on, computed from the service's answers for the key id. */
  ghost predicate EncryptedWith(env: Env, plugin: Plugin, keyId: Bytes, p: Param, q: Param) {
    if plugin == KmsBase then
      env.kms.encrypt(p.content, keyId) == Ok(q.content) && q == p.(plainDataKey := [], content := q.content)
    else
      && env.kms.generate(keyId, plugin) == Ok((q.plainDataKey, q.encryptedDataKey))
      && q.plainDataKey != [] && q.encryptedDataKey != []
      && AesEncrypts(env, q.plainDataKey, p.content, q.content)
      && q == p.(plainDataKey := q.plainDataKey, encryptedDataKey := q.encryptedDataKey, content := q.content)
  }

  /**
  Encryption succeeds exactly when there is a content and a key id, the caller's or the default one
  that only version 1 has, and the service's answers for that key id can be used; it then hands on
  exactly what they give.
   */
  lemma KeyIdIsUsed(env: Env, plugin: Plugin, p: Param, q: Param)
    ensures EncryptWith(env, plugin, p) == (q, None) <==>
      && p.content != [] && (Blank(p.keyId) ==> env.kms.version1)
      && EncryptedWith(env, plugin, KeyUsed(env, p.keyId), p, q)
  {
    if plugin == KmsBase {
      BaseKeyIdIsUsed(env, p, q);
    } else {
      AesKeyIdIsUsed(env, plugin, p, q);
    }
  }

  lemma BaseKeyIdIsUsed(env: Env, p: Param, q: Param)
    ensures EncryptWith(env, KmsBase, p) == (q, None) <==>
      && p.content != [] && (Blank(p.keyId) ==> env.kms.version1)
      && EncryptedWith(env, KmsBase, KeyUsed(env, p.keyId), p, q)
  {
  }

  lemma AesContentIs(env: Env, plain: Bytes, content: Bytes, encrypted: Bytes)
    requires plain != []
    ensures AesEncryptContent(env, plain, content) == Ok(encrypted) <==>
      content != [] && AesEncrypts(env, plain, content, encrypted)
  {
  }

  lemma AesKeyIdIsUsed(env: Env, plugin: Plugin, p: Param, q: Param)
    requires plugin != KmsBase
    ensures EncryptWith(env, plugin, p) == (q, None) <==>
      && p.content != [] && (Blank(p.keyId) ==> env.kms.version1)
      && EncryptedWith(env, plugin, KeyUsed(env, p.keyId), p, q)
  {
    if q.plainDataKey != [] {
      AesContentIs(env, q.plainDataKey, p.content, q.content);
    }
    var generated := env.kms.generate(KeyUsed(env, p.keyId), plugin);
    if generated.Ok? && generated.value.0 != [] {
      AesContentIs(env, generated.value.0, p.content, q.content);
    }
  }

  /** A request through the filter uses the key id of the configuration. */
  lemma FilterUsesKeyId(env: Env, plugins: map<string, Plugin>, before: Config, after: Config)
    requires Filters(env, plugins, before, after, None) && ToFilter(before) && before.usage == RequestType
    ensures Blank(before.kmsKeyId) ==> env.kms.version1
    ensures exists plugin, q ::
      && Picks(plugins, before.dataId, plugin)
      && EncryptedWith(env, plugin, KeyUsed(env, before.kmsKeyId), ParamOf(before), q)
      && after == before.(content := q.content, encryptedDataKey := q.encryptedDataKey)
  {
    var p := Param(before.dataId, before.content, [], [], before.kmsKeyId);
    var q :| Handles(env, plugins, Encrypting, p, q, None)
             && after == before.(content := q.content, encryptedDataKey := q.encryptedDataKey);
    var plugin :| Picks(plugins, p.dataId, plugin) && (q, None) == With(env, Encrypting, plugin, p);
    KeyIdIsUsed(env, plugin, p, q);
    assert p == ParamOf(before);
  }

  // Decryption

  ghost predicate AesDecrypts(env: Env, plain: Bytes, content: Bytes, decrypted: Bytes) {
    exists key, cipher, text ::
      && env.base64.decode(ToBytes(plain)) == Some(key)
      && env.base64.decode(ToBytes(content)) == Some(cipher)
      && Decrypted(env.aes, cipher, key) == Ok(text)
      && decrypted == ToText(text)
  }

  ghost predicate DecryptedWith(env: Env, plugin: Plugin, p: Param, q: Param) {
    if plugin == KmsBase then
      && q == p.(plainDataKey := [], content := q.content)
      && if p.content == [] then q.content == [] else env.kms.decrypt(p.content) == Ok(q.content)
    else
      && p.content != [] && p.encryptedDataKey != []
      && q.plainDataKey != [] && env.kms.decrypt(p.encryptedDataKey) == Ok(q.plainDataKey)
      && AesDecrypts(env, q.plainDataKey, p.content, q.content)
      && q == p.(plainDataKey := q.plainDataKey, content := q.content)
  }

  /** Decryption succeeds exactly with the answers of the service for the encrypted data key, or for the content. */
  lemma DecryptsExactly(env: Env, plugin: Plugin, p: Param, q: Param)
    ensures DecryptWith(env, plugin, p) == (q, None) <==> DecryptedWith(env, plugin, p, q)
  {
    if plugin != KmsBase {
      AesDecryptsExactly(env, plugin, p, q);
    }
  }

  lemma AesPlainIs(env: Env, plain: Bytes, content: Bytes, decrypted: Bytes)
    requires plain != []
    ensures AesDecryptContent(env, plain, content) == Ok(decrypted) <==>
      content != [] && AesDecrypts(env, plain, content, decrypted)
  {
    var key, cipher := env.base64.decode(ToBytes(plain)), env.base64.decode(ToBytes(content));
    if content != [] && key.Some? && cipher.Some? {
      var text := Decrypted(env.aes, cipher.value, key.value);
      assert AesDecryptContent(env, plain, content) == if text.Ok? then Ok(ToText(text.value)) else Err(text.error);
    }
  }

  lemma AesDecryptsExactly(env: Env, plugin: Plugin, p: Param, q: Param)
    requires plugin != KmsBase
    ensures DecryptWith(env, plugin, p) == (q, None) <==> DecryptedWith(env, plugin, p, q)
  {
    if q.plainDataKey != [] {
      AesPlainIs(env, q.plainDataKey, p.content, q.content);
    }
    var key := env.kms.decrypt(p.encryptedDataKey);
    if key.Ok? && key.value != [] {
      AesPlainIs(env, key.value, p.content, q.content);
    }
  }

  /** Empty data keys have errors of their own. */
  lemma EmptyKeysAreReported(env: Env, plugin: Plugin, p: Param)
    requires plugin != KmsBase
    ensures var keys := env.kms.generate(KeyUsed(env, p.keyId), plugin);
            keys.Ok? && (Blank(p.keyId) ==> env.kms.version1) ==>
              && (keys.value.0 == [] ==> EncryptWith(env, plugin, p).1 == Some(EmptyPlainDataKeyError))
              && (keys.value.0 != [] && keys.value.1 == [] ==>
                    EncryptWith(env, plugin, p).1 == Some(EmptyEncryptedDataKeyError))
    ensures p.encryptedDataKey == [] ==> DecryptWith(env, plugin, p).1 == Some(EmptyEncryptedDataKeyError)
    ensures p.encryptedDataKey != [] && env.kms.decrypt(p.encryptedDataKey) == Ok([]) ==>
      DecryptWith(env, plugin, p).1 == Some(EmptyPlainDataKeyError)
  {
  }

  /** The code points with the property White_Space. */
  lemma SpacesAre(r: int)
    ensures IsSpace(r) <==> r in {
      0x09, 0x0A, 0x0B, 0x0C, 0x0D, 0x20, 0x85, 0xA0, 0x1680, 0x2000, 0x2001, 0x2002, 0x2003, 0x2004, 0x2005,
      0x2006, 0x2007, 0x2008, 0x2009, 0x200A, 0x2028, 0x2029, 0x202F, 0x205F, 0x3000}
  {
  }

  // What the filter passes on

  predicate IsCut(s: string, a: string, sub: string, b: string) {
    s == a + sub + b
  }

  lemma ContainsExact(s: string, sub: string)
    ensures Contains(s, sub) <==> exists a, b :: IsCut(s, a, sub, b)
  {
    if Contains(s, sub) {
      var i :| 0 <= i <= |s| && sub <= s[i..];
      assert IsCut(s, s[..i], sub, s[i + |sub|..]);
    }
    if exists a, b :: IsCut(s, a, sub, b) {
      var a, b :| IsCut(s, a, sub, b);
      assert sub <= s[|a|..];
    }
  }

  /** The handler refuses a data id without the prefix, an empty content, and a data id that names no plugin. */
  lemma HandlerRefuses(env: Env, plugins: map<string, Plugin>, d: Direction, p: Param, q: Param, err: Option<Error>)
    requires Handles(env, plugins, d, p, q, err)
    ensures var named := exists name :: name in plugins && name != "" && Contains(p.dataId, name);
            if !(exists a, b :: IsCut(p.dataId, a, "cipher-", b)) then q == p && err == Some(DataIdParamCheckError)
            else if p.content == [] then q == p && err == Some(ContentParamCheckError)
            else if !named then q == p && err == Some(PluginNotFoundError)
            else exists plugin :: Picks(plugins, p.dataId, plugin) && (q, err) == With(env, d, plugin, p)
  {
    ContainsExact(p.dataId, CIPHER_PREFIX);
  }

  /** It always has an outcome. */
  lemma HandlerAnswers(env: Env, plugins: map<string, Plugin>, d: Direction, p: Param)
    returns (q: Param, err: Option<Error>)
    ensures Handles(env, plugins, d, p, q, err)
  {
    PickedIffAnyMatch(plugins, p.dataId);
    if ParamCheck(p).Some? {
      q, err := p, ParamCheck(p);
    } else if !AnyMatch(plugins, p.dataId) {
      q, err := p, Some(PluginNotFoundError);
    } else {
      var plugin :| Picks(plugins, p.dataId, plugin);
      q, err := With(env, d, plugin, p).0, With(env, d, plugin, p).1;
    }
  }

  /** What the filter is for: data ids with the prefix and a content that is not blank, sent or received. */
  predicate ToFilter(c: Config) {
    "cipher-" <= c.dataId && !Blank(c.content) && (c.usage == RequestType || c.usage == ResponseType)
  }

  /** The filter leaves everything else alone, and changes nothing when it fails. */
  lemma FilterLeavesAlone(env: Env, plugins: map<string, Plugin>, before: Config, after: Config, err: Option<Error>)
    requires Filters(env, plugins, before, after, err)
    ensures !ToFilter(before) ==> after == before && err == None
    ensures err != None ==> after == before
  {
  }

  lemma {:induction false} LongestOf(names: set<string>) returns (name: string)
    requires names != {}
    ensures name in names && forall other :: other in names ==> |other| <= |name|
    decreases |names|
  {
    var some :| some in names;
    var rest := names - {some};
    assert forall other :: other in names ==> other == some || other in rest;
    name := some;
    if rest != {} {
      var longest := LongestOf(rest);
      name := if |longest| > |some| then longest else some;
    }
  }

  /** `name` occurs in the data id, and no longer registered name does. */
  predicate LongestName(plugins: map<string, Plugin>, dataId: string, name: string) {
    && name in plugins && Contains(dataId, name)
    && forall other :: other in plugins && Contains(dataId, other) ==> |other| <= |name|
  }

  /** A plugin is picked exactly when some registered name occurs in the data id; it has a longest such name. */
  lemma PickedIffAnyMatch(plugins: map<string, Plugin>, dataId: string)
    ensures (exists plugin :: Picks(plugins, dataId, plugin)) <==>
      exists name :: name in plugins && name != "" && Contains(dataId, name)
    ensures forall plugin :: Picks(plugins, dataId, plugin) ==>
      exists name :: LongestName(plugins, dataId, name) && plugins[name] == plugin
  {
    forall plugin | Picks(plugins, dataId, plugin)
      ensures AnyMatch(plugins, dataId)
      ensures exists name :: LongestName(plugins, dataId, name) && plugins[name] == plugin
    {
      var name :| name in plugins && plugins[name] == plugin && name != "" && Contains(dataId, name)
                  && forall other :: other in plugins && Contains(dataId, other) ==> |other| <= |name|;
      assert LongestName(plugins, dataId, name);
    }
    if AnyMatch(plugins, dataId) {
      var some :| some in plugins && some != "" && Contains(dataId, some);
      var names := set name | name in plugins && Contains(dataId, name);
      assert some in names;
      var name := LongestOf(names);
      assert |some| <= |name|;
      assert Picks(plugins, dataId, plugins[name]);
    }
  }

  function DirectionOf(c: Config): Direction {
    if c.usage == RequestType then Encrypting else Decrypting
  }

  /** What the filter hands to the handler: the key id with a request, the encrypted data key with a response. */
  function ParamOf(c: Config): Param {
    if c.usage == RequestType then Param(c.dataId, c.content, [], [], c.kmsKeyId)
    else Param(c.dataId, c.content, c.encryptedDataKey, [], [])
  }

  /** Whatever the filter hands to the handler passes its checks of data id and content. */
  lemma FilteredPassesChecks(env: Env, plugins: map<string, Plugin>, before: Config, after: Config, err: Option<Error>)
    requires Filters(env, plugins, before, after, err) && ToFilter(before)
    ensures if !AnyMatch(plugins, before.dataId) then err == Some(PluginNotFoundError)
            else exists plugin :: Picks(plugins, before.dataId, plugin)
                                  && err == With(env, DirectionOf(before), plugin, ParamOf(before)).1
  {
    assert IsCut(before.dataId, [], CIPHER_PREFIX, before.dataId[|CIPHER_PREFIX|..]);
    ContainsExact(before.dataId, CIPHER_PREFIX);
    assert Runes([]) == [];
  }

  /** A response is decrypted with its own data key by a picked plugin. */
  lemma FilterDecrypts(env: Env, plugins: map<string, Plugin>, before: Config, after: Config)
    requires Filters(env, plugins, before, after, None) && ToFilter(before) && before.usage == ResponseType
    ensures exists plugin, q ::
      && Picks(plugins, before.dataId, plugin)
      && DecryptedWith(env, plugin, ParamOf(before), q)
      && after == before.(content := q.content)
  {
    var p := ParamOf(before);
    var q :| Handles(env, plugins, Decrypting, p, q, None) && after == before.(content := q.content);
    var plugin :| Picks(plugins, p.dataId, plugin) && (q, None) == With(env, Decrypting, plugin, p);
    DecryptsExactly(env, plugin, p, q);
  }
}
