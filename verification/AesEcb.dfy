/**
AES in ECB mode with PKCS padding (section 6.3 of RFC 5652).  The block cipher is a parameter of
which only invertibility is known.
 */
module AesEcb {
  import opened Sequences
  import opened Wrappers
  import opened Utf8

  const BLOCK_SIZE := 16

  datatype Error =
    | KeySizeError
    | NotFullBlocks
    | Base64Error
    | DataIdParamCheckError
    | ContentParamCheckError
    | KeyIdParamCheckError
    | PluginNotFoundError
    | EmptyEncryptedDataKeyError
    | EmptyPlainDataKeyError
    | EmptyContentError
    | KmsError(code: int)
    | Panic

  /** What `aes.NewCipher(key)` encrypts and decrypts one block with. */
  datatype Aes = Aes(encrypt: (Bytes, Bytes) -> Bytes, decrypt: (Bytes, Bytes) -> Bytes)

  ghost predicate IsBlockCipher(aes: Aes) {
    && (forall key, block :: |aes.encrypt(key, block)| == BLOCK_SIZE)
    && (forall key, block :: |aes.decrypt(key, block)| == BLOCK_SIZE)
    && (forall key, block :: |block| == BLOCK_SIZE ==> aes.decrypt(key, aes.encrypt(key, block)) == block)
  }

  predicate KeySizeOk(key: Bytes) {
    |key| == 16 || |key| == 24 || |key| == 32
  }

  // Padding

  function Repeat(b: byte, n: nat): (r: Bytes)
    ensures |r| == n && forall i :: 0 <= i < n ==> r[i] == b
  {
    seq(n, _ => b)
  }

  function PKCS5Padding(text: Bytes): Bytes {
    var padding := BLOCK_SIZE - |text| % BLOCK_SIZE;
    text + Repeat(padding, padding)
  }

  /** `None` is the panic of an index or a slice bound out of range. */
  function PKCS5UnPadding(origData: Bytes): Option<Bytes> {
    if origData == [] then None
    else
      var unpadding := origData[|origData| - 1];
      if unpadding > |origData| then None else Some(origData[..|origData| - unpadding])
  }

  /** `padded` is `text` and between one and sixteen bytes, each of them their number, in full blocks. */
  ghost predicate IsPadded(text: Bytes, padded: Bytes) {
    && |text| < |padded| <= |text| + BLOCK_SIZE && |padded| % BLOCK_SIZE == 0
    && padded[..|text|] == text
    && forall i :: |text| <= i < |padded| ==> padded[i] == |padded| - |text|
  }

  /** The padded text is the one that section 6.3 of RFC 5652 describes. */
  lemma PaddingExact(text: Bytes, padded: Bytes)
    ensures PKCS5Padding(text) == padded <==> IsPadded(text, padded)
  {
    var p := PKCS5Padding(text);
    assert p[..|text|] == text && IsPadded(text, p);
    if IsPadded(text, padded) {
      assert |padded| == |p|;
      assert forall i :: 0 <= i < |text| ==> padded[i] == padded[..|text|][i] == p[..|text|][i] == p[i];
    }
  }

  lemma UnpadPad(text: Bytes)
    ensures PKCS5UnPadding(PKCS5Padding(text)) == Some(text)
    ensures |PKCS5Padding(text)| % BLOCK_SIZE == 0 && |PKCS5Padding(text)| > |text|
  {
    var padded := PKCS5Padding(text);
    assert padded[..|text|] == text;
  }

  // Blocks

  function EncryptBlocks(aes: Aes, key: Bytes, src: Bytes): Bytes {
    if |src| < BLOCK_SIZE then []
    else
      var n := |src| - BLOCK_SIZE;
      EncryptBlocks(aes, key, src[..n]) + aes.encrypt(key, src[n..])
  }

  function DecryptBlocks(aes: Aes, key: Bytes, src: Bytes): Bytes {
    if |src| < BLOCK_SIZE then []
    else
      var n := |src| - BLOCK_SIZE;
      DecryptBlocks(aes, key, src[..n]) + aes.decrypt(key, src[n..])
  }

  lemma {:induction false} BlocksRoundTrip(aes: Aes, key: Bytes, src: Bytes)
    requires IsBlockCipher(aes) && |src| % BLOCK_SIZE == 0
    ensures |EncryptBlocks(aes, key, src)| == |src|
    ensures DecryptBlocks(aes, key, EncryptBlocks(aes, key, src)) == src
  {
    if src != [] {
      var n := |src| - BLOCK_SIZE;
      BlocksRoundTrip(aes, key, src[..n]);
      var front, last := EncryptBlocks(aes, key, src[..n]), aes.encrypt(key, src[n..]);
      assert (front + last)[..n] == front && (front + last)[n..] == last;
      assert src == src[..n] + src[n..];
    }
  }

  lemma NextBlock(i: nat, n: nat)
    requires i % BLOCK_SIZE == 0 && n % BLOCK_SIZE == 0 && i < n
    ensures i + BLOCK_SIZE <= n && (i + BLOCK_SIZE) % BLOCK_SIZE == 0
  {
    assert i == BLOCK_SIZE * (i / BLOCK_SIZE) && n == BLOCK_SIZE * (n / BLOCK_SIZE);
  }

  lemma EncryptNext(aes: Aes, key: Bytes, src: Bytes, i: nat)
    requires i + BLOCK_SIZE <= |src|
    ensures EncryptBlocks(aes, key, src[..i + BLOCK_SIZE]) ==
      EncryptBlocks(aes, key, src[..i]) + aes.encrypt(key, src[i..i + BLOCK_SIZE])
  {
    var next := src[..i + BLOCK_SIZE];
    assert next[..i] == src[..i] && next[i..] == src[i..i + BLOCK_SIZE];
  }

  method BlockEncrypt(aes: Aes, key: Bytes, src: Bytes) returns (r: Result<Bytes, Error>)
    ensures r == if |src| % BLOCK_SIZE == 0 then Ok(EncryptBlocks(aes, key, src)) else Err(NotFullBlocks)
  {
    if |src| % BLOCK_SIZE != 0 {
      return Err(NotFullBlocks);
    }
    var dst: Bytes := [];
    var i := 0;
    while i < |src|
      invariant i <= |src| && i % BLOCK_SIZE == 0
      invariant dst == EncryptBlocks(aes, key, src[..i])
    {
      NextBlock(i, |src|);
      EncryptNext(aes, key, src, i);
      var buf := aes.encrypt(key, src[i..i + BLOCK_SIZE]);
      dst := dst + buf;
      i := i + BLOCK_SIZE;
    }
    assert src[..i] == src;
    r := Ok(dst);
  }

  lemma DecryptNext(aes: Aes, key: Bytes, src: Bytes, i: nat)
    requires i + BLOCK_SIZE <= |src|
    ensures DecryptBlocks(aes, key, src[..i + BLOCK_SIZE]) ==
      DecryptBlocks(aes, key, src[..i]) + aes.decrypt(key, src[i..i + BLOCK_SIZE])
  {
    var next := src[..i + BLOCK_SIZE];
    assert next[..i] == src[..i] && next[i..] == src[i..i + BLOCK_SIZE];
  }

  method BlockDecrypt(aes: Aes, key: Bytes, src: Bytes) returns (r: Result<Bytes, Error>)
    ensures r == if |src| % BLOCK_SIZE == 0 then Ok(DecryptBlocks(aes, key, src)) else Err(NotFullBlocks)
  {
    if |src| % BLOCK_SIZE != 0 {
      return Err(NotFullBlocks);
    }
    var dst: Bytes := [];
    var i := 0;
    while i < |src|
      invariant i <= |src| && i % BLOCK_SIZE == 0
      invariant dst == DecryptBlocks(aes, key, src[..i])
    {
      NextBlock(i, |src|);
      DecryptNext(aes, key, src, i);
      var buf := aes.decrypt(key, src[i..i + BLOCK_SIZE]);
      dst := dst + buf;
      i := i + BLOCK_SIZE;
    }
    assert src[..i] == src;
    r := Ok(dst);
  }

  // The two operations

  function Encrypted(aes: Aes, plain: Bytes, key: Bytes): Result<Bytes, Error> {
    if plain == [] then Ok([])
    else if !KeySizeOk(key) then Err(KeySizeError)
    else Ok(EncryptBlocks(aes, key, PKCS5Padding(plain)))
  }

  function Decrypted(aes: Aes, cipher: Bytes, key: Bytes): Result<Bytes, Error> {
    if cipher == [] then Ok([])
    else if !KeySizeOk(key) then Err(KeySizeError)
    else if |cipher| % BLOCK_SIZE != 0 then Err(NotFullBlocks)
    else
      match PKCS5UnPadding(DecryptBlocks(aes, key, cipher))
      case None => Err(Panic)
      case Some(plain) => Ok(plain)
  }

  method AesEcbPkcs5PaddingEncrypt(aes: Aes, plainContent: Bytes, key: Bytes) returns (r: Result<Bytes, Error>)
    ensures r == Encrypted(aes, plainContent, key)
  {
    if |plainContent| == 0 {
      return Ok([]);
    }
    if !KeySizeOk(key) {
      return Err(KeySizeError);
    }
    UnpadPad(plainContent);
    r := BlockEncrypt(aes, key, PKCS5Padding(plainContent));
  }

  method AesEcbPkcs5PaddingDecrypt(aes: Aes, cipherContent: Bytes, key: Bytes) returns (r: Result<Bytes, Error>)
    ensures r == Decrypted(aes, cipherContent, key)
  {
    if |cipherContent| == 0 {
      return Ok([]);
    }
    if !KeySizeOk(key) {
      return Err(KeySizeError);
    }
    var blocks := BlockDecrypt(aes, key, cipherContent);
    if blocks.Err? {
      return blocks;
    }
    match PKCS5UnPadding(blocks.value) {
      case None => r := Err(Panic);
      case Some(plain) => r := Ok(plain);
    }
  }

  /** The block of `src` that begins at `at`. */
  function BlockAt(src: Bytes, at: nat): Bytes
    requires at + BLOCK_SIZE <= |src|
  {
    src[at..at + BLOCK_SIZE]
  }

  lemma BlockIn(src: Bytes, front: Bytes, last: Bytes, at: nat)
    requires src == front + last && |last| == BLOCK_SIZE && (at + BLOCK_SIZE <= |front| || at == |front|)
    ensures BlockAt(src, at) == if at == |front| then last else BlockAt(front, at)
  {
  }

  lemma {:induction false} BlocksAre(aes: Aes, key: Bytes, src: Bytes, at: nat)
    requires IsBlockCipher(aes) && |src| % BLOCK_SIZE == 0 && at % BLOCK_SIZE == 0 && at + BLOCK_SIZE <= |src|
    ensures |EncryptBlocks(aes, key, src)| == |src|
    ensures BlockAt(EncryptBlocks(aes, key, src), at) == aes.encrypt(key, BlockAt(src, at))
    decreases |src|
  {
    var n := |src| - BLOCK_SIZE;
    assert n % BLOCK_SIZE == 0;
    var front, last := src[..n], src[n..];
    BlocksRoundTrip(aes, key, front);
    if at < n {
      NextBlock(at, n);
      BlocksAre(aes, key, front, at);
    }
    LastBlock(aes, key, src, front, last);
    BlockIn(src, front, last, at);
    BlockIn(EncryptBlocks(aes, key, src), EncryptBlocks(aes, key, front), aes.encrypt(key, last), at);
  }

  lemma LastBlock(aes: Aes, key: Bytes, src: Bytes, front: Bytes, last: Bytes)
    requires src == front + last && |last| == BLOCK_SIZE
    ensures EncryptBlocks(aes, key, src) == EncryptBlocks(aes, key, front) + aes.encrypt(key, last)
  {
    assert src[..|front|] == front && src[|front|..] == last;
  }

  /**
  Encryption fails exactly for a bad key size.  The ciphertext of a non-empty text is, block by
  block, the encryption of the padded text.
   */
  lemma CiphertextIs(aes: Aes, plain: Bytes, key: Bytes, padded: Bytes, at: nat)
    requires IsBlockCipher(aes) && plain != [] && IsPadded(plain, padded)
    requires at % BLOCK_SIZE == 0 && at < |padded|
    ensures Encrypted(aes, plain, key).Ok? <==> |key| in {16, 24, 32}
    ensures at + BLOCK_SIZE <= |padded|
    ensures Encrypted(aes, plain, key).Ok? ==>
      var cipher := Encrypted(aes, plain, key).value;
      |cipher| == |padded| && BlockAt(cipher, at) == aes.encrypt(key, BlockAt(padded, at))
  {
    PaddingExact(plain, padded);
    NextBlock(at, |padded|);
    BlocksAre(aes, key, padded, at);
  }

  lemma {:induction false} DecryptedLength(aes: Aes, key: Bytes, src: Bytes)
    requires IsBlockCipher(aes) && |src| % BLOCK_SIZE == 0
    ensures |DecryptBlocks(aes, key, src)| == |src|
  {
    if src != [] {
      DecryptedLength(aes, key, src[..|src| - BLOCK_SIZE]);
    }
  }

  lemma {:induction false} DecryptedBlocksAre(aes: Aes, key: Bytes, src: Bytes, at: nat)
    requires IsBlockCipher(aes) && |src| % BLOCK_SIZE == 0 && at % BLOCK_SIZE == 0 && at + BLOCK_SIZE <= |src|
    ensures |DecryptBlocks(aes, key, src)| == |src|
    ensures BlockAt(DecryptBlocks(aes, key, src), at) == aes.decrypt(key, BlockAt(src, at))
    decreases |src|
  {
    var n := |src| - BLOCK_SIZE;
    assert n % BLOCK_SIZE == 0;
    var front, last := src[..n], src[n..];
    DecryptedLength(aes, key, front);
    if at < n {
      NextBlock(at, n);
      DecryptedBlocksAre(aes, key, front, at);
    }
    LastDecrypted(aes, key, src, front, last);
    BlockIn(src, front, last, at);
    BlockIn(DecryptBlocks(aes, key, src), DecryptBlocks(aes, key, front), aes.decrypt(key, last), at);
  }

  lemma LastDecrypted(aes: Aes, key: Bytes, src: Bytes, front: Bytes, last: Bytes)
    requires src == front + last && |last| == BLOCK_SIZE
    ensures DecryptBlocks(aes, key, src) == DecryptBlocks(aes, key, front) + aes.decrypt(key, last)
  {
    assert src[..|front|] == front && src[|front|..] == last;
  }

  /** `blocks` is, block by block, the decryption of `cipher`. */
  ghost predicate IsDecryption(aes: Aes, key: Bytes, cipher: Bytes, blocks: Bytes) {
    && |blocks| == |cipher|
    && forall at :: 0 <= at && at % BLOCK_SIZE == 0 && at + BLOCK_SIZE <= |cipher| ==>
         BlockAt(blocks, at) == aes.decrypt(key, BlockAt(cipher, at))
  }

  /**
  A non-empty ciphertext is refused for a bad key size, then for a partial block.  Otherwise as
  many bytes as the last decrypted byte says are cut off, and more than there are is a panic.
   */
  lemma PlaintextIs(aes: Aes, cipher: Bytes, key: Bytes) returns (blocks: Bytes)
    requires IsBlockCipher(aes) && cipher != []
    ensures Decrypted(aes, cipher, key) == Err(KeySizeError) <==> |key| !in {16, 24, 32}
    ensures Decrypted(aes, cipher, key) == Err(NotFullBlocks) <==> |key| in {16, 24, 32} && |cipher| % BLOCK_SIZE != 0
    ensures |key| in {16, 24, 32} && |cipher| % BLOCK_SIZE == 0 ==>
      && IsDecryption(aes, key, cipher, blocks)
      && var cut := blocks[|blocks| - 1];
         Decrypted(aes, cipher, key) == if cut > |blocks| then Err(Panic) else Ok(blocks[..|blocks| - cut])
  {
    blocks := DecryptBlocks(aes, key, cipher);
    if |cipher| % BLOCK_SIZE == 0 {
      DecryptedLength(aes, key, cipher);
      forall at | 0 <= at && at % BLOCK_SIZE == 0 && at + BLOCK_SIZE <= |cipher|
        ensures BlockAt(blocks, at) == aes.decrypt(key, BlockAt(cipher, at))
      {
        DecryptedBlocksAre(aes, key, cipher, at);
      }
    }
  }

  /** The empty text is its own ciphertext, whatever the key. */
  lemma EmptyStaysEmpty(aes: Aes, key: Bytes)
    ensures Encrypted(aes, [], key) == Ok([]) == Decrypted(aes, [], key)
  {
  }

  /** Every plaintext comes back, and a non-empty one has a non-empty ciphertext. */
  lemma AesRoundTrip(aes: Aes, plain: Bytes, key: Bytes)
    requires IsBlockCipher(aes) && Encrypted(aes, plain, key).Ok?
    ensures Decrypted(aes, Encrypted(aes, plain, key).value, key) == Ok(plain)
    ensures plain != [] ==> Encrypted(aes, plain, key).value != []
  {
    UnpadPad(plain);
    BlocksRoundTrip(aes, key, PKCS5Padding(plain));
  }
}
