/** The encryption plugins, handler and filter, which overwrite the fields of their parameters in place. */
module Encryption {
  import opened Sequences
  import opened Wrappers
  import opened Utf8
  import opened AesEcb
  import opened EncryptionSpec
  import RoundTrip = EncryptionRoundTrip

  class HandlerParam {
    var dataId: string
    var content: Bytes
    var encryptedDataKey: Bytes
    var plainDataKey: Bytes
    var keyId: Bytes

    constructor (dataId: string, content: Bytes, encryptedDataKey: Bytes, keyId: Bytes)
      ensures Value() == Param(dataId, content, encryptedDataKey, [], keyId)
    {
      this.dataId, this.content, this.encryptedDataKey, this.plainDataKey, this.keyId :=
        dataId, content, encryptedDataKey, [], keyId;
    }

    ghost function Value(): Param
      reads this
    {
      Param(dataId, content, encryptedDataKey, plainDataKey, keyId)
    }
  }

  // The AES plugins

  method AesEncrypt(env: Env, param: HandlerParam) returns (err: Option<Error>)
    modifies param
    ensures (param.Value(), err) ==
      WithContent(old(param.Value()), AesEncryptContent(env, old(param.plainDataKey), old(param.content)))
  {
    if |param.plainDataKey| == 0 {
      return Some(KeyIdParamCheckError);
    }
    if |param.content| == 0 {
      return Some(ContentParamCheckError);
    }
    var keyBytes := DecodeString2Utf8Bytes(param.plainDataKey);
    var key := env.base64.decode(keyBytes);
    if key.None? {
      return Some(Base64Error);
    }
    var contentUtf8Bytes := DecodeString2Utf8Bytes(param.content);
    var encryptedContent := AesEcbPkcs5PaddingEncrypt(env.aes, contentUtf8Bytes, key.value);
    if encryptedContent.Err? {
      return Some(encryptedContent.error);
    }
    param.content := EncodeUtf8Bytes2String(env.base64.encode(encryptedContent.value));
    err := None;
  }

  method AesDecrypt(env: Env, param: HandlerParam) returns (err: Option<Error>)
    modifies param
    ensures (param.Value(), err) ==
      WithContent(old(param.Value()), AesDecryptContent(env, old(param.plainDataKey), old(param.content)))
  {
    if |param.plainDataKey| == 0 {
      return Some(KeyIdParamCheckError);
    }
    if |param.content| == 0 {
      return Some(ContentParamCheckError);
    }
    var keyBytes := DecodeString2Utf8Bytes(param.plainDataKey);
    var key := env.base64.decode(keyBytes);
    if key.None? {
      return Some(Base64Error);
    }
    var contentBytes := DecodeString2Utf8Bytes(param.content);
    var cipher := env.base64.decode(contentBytes);
    if cipher.None? {
      return Some(Base64Error);
    }
    var decryptedContent := AesEcbPkcs5PaddingDecrypt(env.aes, cipher.value, key.value);
    if decryptedContent.Err? {
      return Some(decryptedContent.error);
    }
    param.content := EncodeUtf8Bytes2String(decryptedContent.value);
    err := None;
  }

  // The plugin that leaves the content to the key management service

  method BaseEncrypt(env: Env, param: HandlerParam) returns (err: Option<Error>)
    modifies param
    ensures (param.Value(), err) ==
      WithContent(old(param.Value()), BaseEncryptContent(env, old(param.keyId), old(param.content)))
  {
    var keyId := KeyIdParamCheck(env.kms, param.keyId);
    if keyId.Err? {
      return Some(keyId.error);
    }
    if |param.content| == 0 {
      return Some(EmptyContentError);
    }
    var encryptedContent := env.kms.encrypt(param.content, keyId.value);
    if encryptedContent.Err? {
      return Some(KmsError(encryptedContent.error));
    }
    param.content := encryptedContent.value;
    err := None;
  }

  method BaseDecrypt(env: Env, param: HandlerParam) returns (err: Option<Error>)
    modifies param
    ensures (param.Value(), err) == WithContent(old(param.Value()), BaseDecryptContent(env, old(param.content)))
  {
    if |param.content| == 0 {
      return None;
    }
    var plainContent := env.kms.decrypt(param.content);
    if plainContent.Err? {
      return Some(KmsError(plainContent.error));
    }
    param.content := plainContent.value;
    err := None;
  }

  // The plugin interface

  method Generate(env: Env, plugin: Plugin, param: HandlerParam) returns (key: Result<Bytes, Error>)
    modifies param
    ensures (param.Value(), key) == GenerateSecretKey(env, plugin, old(param.Value()))
  {
    if plugin == KmsBase {
      return Ok([]);
    }
    var keyId := KeyIdParamCheck(env.kms, param.keyId);
    if keyId.Err? {
      return Err(keyId.error);
    }
    var generated := env.kms.generate(keyId.value, plugin);
    if generated.Err? {
      return Err(KmsError(generated.error));
    }
    param.plainDataKey := generated.value.0;
    param.encryptedDataKey := generated.value.1;
    if |param.plainDataKey| == 0 {
      return Err(EmptyPlainDataKeyError);
    }
    if |param.encryptedDataKey| == 0 {
      return Err(EmptyEncryptedDataKeyError);
    }
    key := Ok(generated.value.0);
  }

  method DecryptKey(env: Env, plugin: Plugin, param: HandlerParam) returns (key: Result<Bytes, Error>)
    modifies param
    ensures (param.Value(), key) == DecryptSecretKey(env, plugin, old(param.Value()))
  {
    if plugin == KmsBase {
      return Ok([]);
    }
    if |param.encryptedDataKey| == 0 {
      return Err(EmptyEncryptedDataKeyError);
    }
    var plainDataKey := env.kms.decrypt(param.encryptedDataKey);
    if plainDataKey.Err? {
      return Err(KmsError(plainDataKey.error));
    }
    if |plainDataKey.value| == 0 {
      return Err(EmptyPlainDataKeyError);
    }
    param.plainDataKey := plainDataKey.value;
    key := Ok(plainDataKey.value);
  }

  method EncryptBy(env: Env, plugin: Plugin, param: HandlerParam) returns (err: Option<Error>)
    modifies param
    ensures (param.Value(), err) == EncryptWith(env, plugin, old(param.Value()))
  {
    var plainSecretKey := Generate(env, plugin, param);
    if plainSecretKey.Err? {
      return Some(plainSecretKey.error);
    }
    param.plainDataKey := plainSecretKey.value;
    if plugin == KmsBase {
      err := BaseEncrypt(env, param);
    } else {
      err := AesEncrypt(env, param);
    }
  }

  method DecryptBy(env: Env, plugin: Plugin, param: HandlerParam) returns (err: Option<Error>)
    modifies param
    ensures (param.Value(), err) == DecryptWith(env, plugin, old(param.Value()))
  {
    var plainSecretKey := DecryptKey(env, plugin, param);
    if plainSecretKey.Err? {
      return Some(plainSecretKey.error);
    }
    param.plainDataKey := plainSecretKey.value;
    if plugin == KmsBase {
      err := BaseDecrypt(env, param);
    } else {
      err := AesDecrypt(env, param);
    }
  }

  class KmsHandler {
    var encryptionPlugins: map<string, Plugin>
    const env: Env

    constructor (env: Env)
      ensures this.env == env && encryptionPlugins == map[]
    {
      this.env := env;
      encryptionPlugins := map[];
    }

    method RegisterPlugin(plugin: Plugin)
      requires RoundTrip.Registered(encryptionPlugins)
      modifies this
      ensures RoundTrip.Registered(encryptionPlugins)
      ensures encryptionPlugins == old(encryptionPlugins)[AlgorithmName(plugin) := plugin]
    {
      encryptionPlugins := encryptionPlugins[AlgorithmName(plugin) := plugin];
    }

    /** Plugins are visited in any order, and a longer matching name replaces a shorter one. */
    method GetPluginByDataIdPrefix(dataId: string) returns (r: Result<Plugin, Error>)
      ensures r.Ok? ==> AnyMatch(encryptionPlugins, dataId) && Picks(encryptionPlugins, dataId, r.value)
      ensures r.Err? ==> !AnyMatch(encryptionPlugins, dataId) && r.error == PluginNotFoundError
    {
      var matchedCount := 0;
      var matchedPlugin: Option<Plugin> := None;
      ghost var matchedName := "";
      var todo := encryptionPlugins.Keys;
      while todo != {}
        invariant todo <= encryptionPlugins.Keys
        invariant matchedCount == |matchedName|
        invariant matchedPlugin.None? <==> matchedName == ""
        invariant matchedPlugin.Some? ==>
          matchedName in encryptionPlugins && encryptionPlugins[matchedName] == matchedPlugin.value
            && Contains(dataId, matchedName)
        invariant forall name :: name in encryptionPlugins.Keys - todo && Contains(dataId, name) ==>
          |name| <= matchedCount
      {
        var k :| k in todo;
        todo := todo - {k};
        if Contains(dataId, k) {
          if |k| > matchedCount {
            matchedCount, matchedPlugin, matchedName := |k|, Some(encryptionPlugins[k]), k;
          }
        }
      }
      if matchedPlugin.None? {
        return Err(PluginNotFoundError);
      }
      r := Ok(matchedPlugin.value);
    }

    method EncryptionHandler(param: HandlerParam) returns (err: Option<Error>)
      modifies param
      ensures Handles(env, encryptionPlugins, Encrypting, old(param.Value()), param.Value(), err)
    {
      if !Contains(param.dataId, CIPHER_PREFIX) {
        return Some(DataIdParamCheckError);
      }
      if |param.content| == 0 {
        return Some(ContentParamCheckError);
      }
      var plugin := GetPluginByDataIdPrefix(param.dataId);
      if plugin.Err? {
        return Some(plugin.error);
      }
      err := EncryptBy(env, plugin.value, param);
      assert (param.Value(), err) == With(env, Encrypting, plugin.value, old(param.Value()));
    }

    method DecryptionHandler(param: HandlerParam) returns (err: Option<Error>)
      modifies param
      ensures Handles(env, encryptionPlugins, Decrypting, old(param.Value()), param.Value(), err)
    {
      if !Contains(param.dataId, CIPHER_PREFIX) {
        return Some(DataIdParamCheckError);
      }
      if |param.content| == 0 {
        return Some(ContentParamCheckError);
      }
      var plugin := GetPluginByDataIdPrefix(param.dataId);
      if plugin.Err? {
        return Some(plugin.error);
      }
      err := DecryptBy(env, plugin.value, param);
      assert (param.Value(), err) == With(env, Decrypting, plugin.value, old(param.Value()));
    }
  }

  class ConfigParam {
    var dataId: string
    var content: Bytes
    var encryptedDataKey: Bytes
    var kmsKeyId: Bytes
    var usage: Usage

    constructor (c: Config)
      ensures Value() == c
    {
      dataId, content, encryptedDataKey := c.dataId, c.content, c.encryptedDataKey;
      kmsKeyId, usage := c.kmsKeyId, c.usage;
    }

    ghost function Value(): Config
      reads this
    {
      Config(dataId, content, encryptedDataKey, kmsKeyId, usage)
    }
  }

  method DoFilter(handler: KmsHandler, param: ConfigParam) returns (err: Option<Error>)
    modifies param
    ensures Filters(handler.env, handler.encryptionPlugins, old(param.Value()), param.Value(), err)
  {
    if !(CIPHER_PREFIX <= param.dataId) || Blank(param.content) {
      return None;
    }
    if param.usage == RequestType {
      var encryptionParam := new HandlerParam(param.dataId, param.content, [], param.kmsKeyId);
      err := handler.EncryptionHandler(encryptionParam);
      if err.None? {
        param.content := encryptionParam.content;
        param.encryptedDataKey := encryptionParam.encryptedDataKey;
      }
      assert Handles(handler.env, handler.encryptionPlugins, Encrypting,
                     Param(old(param.dataId), old(param.content), [], [], old(param.kmsKeyId)),
                     encryptionParam.Value(), err);
    } else if param.usage == ResponseType {
      var decryptionParam := new HandlerParam(param.dataId, param.content, param.encryptedDataKey, []);
      err := handler.DecryptionHandler(decryptionParam);
      if err.None? {
        param.content := decryptionParam.content;
      }
      assert Handles(handler.env, handler.encryptionPlugins, Decrypting,
                     Param(old(param.dataId), old(param.content), old(param.encryptedDataKey), [], []),
                     decryptionParam.Value(), err);
    } else {
      err := None;
    }
  }

  /** A request and its response through one handler; `None` when the request is refused. */
  method SendAndReceive(handler: KmsHandler, c: Config) returns (received: Option<Bytes>)
    requires IsEnv(handler.env) && RoundTrip.Registered(handler.encryptionPlugins) && c.usage == RequestType
    ensures received.Some? ==> received.value == RoundTrip.RestoredContent(handler.encryptionPlugins, c)
    ensures received.Some? ==>
      (received.value == c.content <==>
        Valid(c.content) || NoNeedEncryption(c) || !RoundTrip.UsesAes(handler.encryptionPlugins, c.dataId))
  {
    var param := new ConfigParam(c);
    var err := DoFilter(handler, param);
    if err.Some? {
      return None;
    }
    ghost var sent := param.Value();
    param.usage := ResponseType;
    err := DoFilter(handler, param);
    RoundTrip.FilterRoundTrip(handler.env, handler.encryptionPlugins, c, sent, param.Value(), err);
    received := Some(param.content);
  }
}
