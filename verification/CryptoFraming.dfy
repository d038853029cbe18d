/** The byte layouts of `Crypto.node.ts` around abstract primitives: HMAC
    (section 2 of RFC 2104), AES in CBC mode (section 6.2 of NIST SP 800-38A)
    with the padding of section 6.3 of RFC 5652, and SHA-256. */
module CryptoFraming {
  import opened Options

  type Bytes = seq<bv8>

  /** Decryption may fail, on a bad length or bad padding. */
  datatype Primitives = Primitives(hmac: (Bytes, Bytes) -> Bytes, sha256: Bytes -> Bytes,
                                   aesEncrypt: (Bytes, Bytes, Bytes) -> Bytes,
                                   aesDecrypt: (Bytes, Bytes, Bytes) -> Option<Bytes>)

  ghost predicate Sound(p: Primitives) {
    && (forall k, m :: |p.hmac(k, m)| == 32)
    && (forall m :: |p.sha256(m)| == 32)
    && (forall k, m, iv :: |k| == 32 && |iv| == 16 ==> p.aesDecrypt(k, p.aesEncrypt(k, m, iv), iv) == Some(m))
  }

  // ------------------------------------------------------------------- the loops

  function Xor(a: Bytes, b: Bytes): (c: Bytes)
    requires |a| == |b|
    ensures |c| == |a|
  {
    seq(|a|, i requires 0 <= i < |a| => a[i] ^ b[i])
  }

  /** None is the throw on different lengths. */
  method XorBytes(left: Bytes, right: Bytes) returns (result: Option<Bytes>)
    ensures result == if |left| != |right| then None else Some(Xor(left, right))
    ensures result.Some? ==>
              |result.value| == |left| && forall i :: 0 <= i < |left| ==> result.value[i] == left[i] ^ right[i]
  {
    if |left| != |right| { return None; }
    var out := new bv8[|left|];
    var i := 0;
    while i < |left|
      invariant 0 <= i <= |left|
      invariant forall k :: 0 <= k < i ==> out[k] == left[k] ^ right[k]
    {
      out[i] := left[i] ^ right[i];
      i := i + 1;
    }
    assert out[..] == Xor(left, right);
    return Some(out[..]);
  }

  lemma XorTwice(a: Bytes, b: Bytes)
    requires |a| == |b|
    ensures Xor(a, Xor(a, b)) == b
  {
    forall i | 0 <= i < |a| ensures Xor(a, Xor(a, b))[i] == b[i] {
      XorByteTwice(a[i], b[i]);
    }
  }

  lemma XorByteTwice(x: bv8, y: bv8)
    ensures x ^ (x ^ y) == y
  {
  }

  lemma OrIsZero(x: bv8, y: bv8)
    ensures x | y == 0 <==> x == 0 && y == 0
  {
  }

  lemma XorIsZero(x: bv8, y: bv8)
    ensures x ^ y == 0 <==> x == y
  {
  }

  predicate MacMatches(ours: Bytes, theirs: Bytes, length: nat) {
    |theirs| == length <= |ours| && theirs == ours[..length]
  }

  /** `verifyHmacSha256`: the loop of ORs accepts exactly the prefix. */
  method VerifyMac(ours: Bytes, theirs: Bytes, length: nat) returns (ok: bool)
    ensures ok <==> MacMatches(ours, theirs, length)
  {
    if |theirs| != length || |ours| < length { return false; }
    var result: bv8 := 0;
    var i := 0;
    while i < |theirs|
      invariant 0 <= i <= |theirs|
      invariant result == 0 <==> theirs[..i] == ours[..i]
    {
      OrIsZero(result, ours[i] ^ theirs[i]);
      XorIsZero(ours[i], theirs[i]);
      result := result | (ours[i] ^ theirs[i]);
      assert theirs[..i + 1] == theirs[..i] + [theirs[i]] && ours[..i + 1] == ours[..i] + [ours[i]];
      i := i + 1;
    }
    assert theirs[..i] == theirs;
    return result == 0;
  }

  function Zeroes(n: nat): (z: Bytes)
    ensures |z| == n
  {
    seq(n, i => 0)
  }

  /** A byte past the end of the computed digest reads as undefined, which the
      XOR takes for 0. */
  function DigestByte(digest: Bytes, i: nat): bv8 { if i < |digest| then digest[i] else 0 }

  predicate DigestMatches(ours: Bytes, theirs: Bytes) {
    forall i :: 0 <= i < |theirs| ==> theirs[i] == DigestByte(ours, i)
  }

  /** `verifyDigest` compares as many bytes as it is given, and no more. */
  method VerifyDigest(ours: Bytes, theirs: Bytes) returns (ok: bool)
    ensures ok <==> DigestMatches(ours, theirs)
    ensures |theirs| == |ours| ==> (ok <==> theirs == ours)
  {
    var result: bv8 := 0;
    var i := 0;
    while i < |theirs|
      invariant 0 <= i <= |theirs|
      invariant result == 0 <==> forall k :: 0 <= k < i ==> theirs[k] == DigestByte(ours, k)
    {
      OrIsZero(result, DigestByte(ours, i) ^ theirs[i]);
      XorIsZero(DigestByte(ours, i), theirs[i]);
      result := result | (DigestByte(ours, i) ^ theirs[i]);
      i := i + 1;
    }
    return result == 0;
  }

  // -------------------------------------------------------------------- HMAC-SIV

  const AUTH: Bytes := [0x61, 0x75, 0x74, 0x68]
  const ENC: Bytes := [0x65, 0x6e, 0x63]

  function EncryptHmacSIV(p: Primitives, key: Bytes, plaintext: Bytes): Option<Bytes>
    requires Sound(p)
  {
    if |key| != 32 || |plaintext| != 32 then None
    else
      var iv := p.hmac(p.hmac(key, AUTH), plaintext)[..16];
      Some(iv + Xor(p.hmac(p.hmac(key, ENC), iv), plaintext))
  }

  function DecryptHmacSIV(p: Primitives, key: Bytes, ciphertext: Bytes): Option<Bytes>
    requires Sound(p)
  {
    if |key| != 32 || |ciphertext| != 48 then None
    else
      var iv := ciphertext[..16];
      var plaintext := Xor(p.hmac(p.hmac(key, ENC), iv), ciphertext[16..]);
      if iv == p.hmac(p.hmac(key, AUTH), plaintext)[..16] then Some(plaintext) else None
  }

  /** The two are mutual inverses: every plaintext comes back, and whatever
      decrypts is the encryption of what it decrypts to. */
  lemma SIVInverse(p: Primitives, key: Bytes, plaintext: Bytes, ciphertext: Bytes)
    requires Sound(p)
    ensures EncryptHmacSIV(p, key, plaintext) == Some(ciphertext)
            <==> DecryptHmacSIV(p, key, ciphertext) == Some(plaintext)
  {
    if |key| == 32 && |plaintext| == 32 && |ciphertext| == 48 {
      var iv := p.hmac(p.hmac(key, AUTH), plaintext)[..16];
      var keyX := p.hmac(p.hmac(key, ENC), iv);
      XorTwice(keyX, plaintext);
      XorTwice(keyX, ciphertext[16..]);
      assert ciphertext == ciphertext[..16] + ciphertext[16..];
      var sealed := iv + Xor(keyX, plaintext);
      assert sealed[..16] == iv && sealed[16..] == Xor(keyX, plaintext);
    }
  }

  /** Layout and refusals: the first 16 bytes are the start of the MAC of the
      plaintext under the key derived for "auth", the rest is masked byte by
      byte with the MAC of those under the key derived for "enc", and nothing
      decrypts but what begins with the MAC of what it decrypts to. */
  lemma SIVLayout(p: Primitives, key: Bytes, plaintext: Bytes, ciphertext: Bytes)
    requires Sound(p) && |key| == 32
    ensures |plaintext| == 32 ==>
              var sealed := EncryptHmacSIV(p, key, plaintext).value;
              var iv := p.hmac(p.hmac(key, [0x61, 0x75, 0x74, 0x68]), plaintext)[..16];
              var mask := p.hmac(p.hmac(key, [0x65, 0x6e, 0x63]), iv);
              && EncryptHmacSIV(p, key, plaintext).Some? && |sealed| == 48 && sealed[..16] == iv
              && forall i :: 0 <= i < 32 ==> sealed[16 + i] == mask[i] ^ plaintext[i]
    ensures DecryptHmacSIV(p, key, ciphertext).Some? ==>
              && |ciphertext| == 48
              && ciphertext[..16]
                 == p.hmac(p.hmac(key, [0x61, 0x75, 0x74, 0x68]), DecryptHmacSIV(p, key, ciphertext).value)[..16]
  {
    if |plaintext| == 32 {
      var iv := p.hmac(p.hmac(key, AUTH), plaintext)[..16];
      var sealed := iv + Xor(p.hmac(p.hmac(key, ENC), iv), plaintext);
      assert sealed[..16] == iv;
    }
  }

  /** Keys, plaintexts and ciphertexts of any other length are refused. */
  lemma SIVLengths(p: Primitives, key: Bytes, text: Bytes)
    requires Sound(p)
    ensures EncryptHmacSIV(p, key, text).None? <==> |key| != 32 || |text| != 32
    ensures |key| != 32 || |text| != 48 ==> DecryptHmacSIV(p, key, text).None?
  {
  }

  // ------------------------------------------------------------------ attachments

  datatype Sealed = Sealed(ciphertext: Bytes, digest: Bytes)

  function EncryptAttachment(p: Primitives, plaintext: Bytes, keys: Bytes, iv: Bytes): Option<Sealed> {
    if |keys| != 64 then None
    else
      var body := iv + p.aesEncrypt(keys[..32], plaintext, iv);
      var bin := body + p.hmac(keys[32..], body);
      Some(Sealed(bin, p.sha256(bin)))
  }

  function DecryptAttachmentV1(p: Primitives, bin: Bytes, keys: Bytes, theirDigest: Option<Bytes>): Option<Bytes> {
    if |keys| != 64 || |bin| < 16 + 32 then None
    else
      var body, mac := bin[..|bin| - 32], bin[|bin| - 32..];
      if !MacMatches(p.hmac(keys[32..], body), mac, 32) then None
      else if theirDigest.Some? && !DigestMatches(p.sha256(bin), theirDigest.value) then None
      else p.aesDecrypt(keys[..32], body[16..], body[..16])
  }

  /** Decryption undoes encryption, with its digest or without one, and it
      refuses every other blob that differs in the MAC alone. */
  lemma AttachmentRoundTrip(p: Primitives, plaintext: Bytes, keys: Bytes, iv: Bytes, mac: Bytes)
    requires Sound(p) && |keys| == 64 && |iv| == 16
    ensures var sealed := EncryptAttachment(p, plaintext, keys, iv).value;
            var body := sealed.ciphertext[..|sealed.ciphertext| - 32];
            && DecryptAttachmentV1(p, sealed.ciphertext, keys, Some(sealed.digest)) == Some(plaintext)
            && DecryptAttachmentV1(p, sealed.ciphertext, keys, None) == Some(plaintext)
            && (|mac| == 32
                ==> (DecryptAttachmentV1(p, body + mac, keys, None).Some? <==> body + mac == sealed.ciphertext))
  {
    var c := p.aesEncrypt(keys[..32], plaintext, iv);
    var body := iv + c;
    var ours := p.hmac(keys[32..], body);
    var bin := body + ours;
    assert bin[..|bin| - 32] == body && bin[|bin| - 32..] == ours && ours[..32] == ours;
    assert body[16..] == c && body[..16] == iv;
    if |mac| == 32 {
      var other := body + mac;
      assert other[..|other| - 32] == body && other[|other| - 32..] == mac;
    }
  }

  /** Every blob and every key set: what decrypts has 64 bytes of keys, at least
      an IV and a MAC, ends in the MAC of what precedes it under the last 32 of
      the keys, and is the plain decryption of its middle under the first 32. A
      full-length digest other than its own is refused. */
  lemma AttachmentIsAuthentic(p: Primitives, bin: Bytes, keys: Bytes, digest: Option<Bytes>)
    requires Sound(p) && DecryptAttachmentV1(p, bin, keys, digest).Some?
    ensures |keys| == 64 && |bin| >= 48
    ensures bin[|bin| - 32..] == p.hmac(keys[32..], bin[..|bin| - 32])
    ensures DecryptAttachmentV1(p, bin, keys, digest) == p.aesDecrypt(keys[..32], bin[16..|bin| - 32], bin[..16])
    ensures digest.Some? && |digest.value| == 32 ==> digest.value == p.sha256(bin)
  {
    var ours := p.hmac(keys[32..], bin[..|bin| - 32]);
    assert ours[..32] == ours;
    assert bin[..|bin| - 32][16..] == bin[16..|bin| - 32] && bin[..|bin| - 32][..16] == bin[..16];
    if digest.Some? && |digest.value| == 32 {
      assert forall i :: 0 <= i < 32 ==> digest.value[i] == DigestByte(p.sha256(bin), i);
    }
  }

  /** What `verifyDigest` lets through: with a digest cut short, down to the
      empty one, or lengthened by zeroes, the blob is accepted all the same. */
  lemma CutOrPaddedDigestIsAccepted(p: Primitives, plaintext: Bytes, keys: Bytes, iv: Bytes, n: nat)
    requires Sound(p) && |keys| == 64 && |iv| == 16
    ensures var sealed := EncryptAttachment(p, plaintext, keys, iv).value;
            var given := if n <= 32 then sealed.digest[..n] else sealed.digest + Zeroes(n - 32);
            && |given| == n && (n != 32 ==> given != sealed.digest)
            && DecryptAttachmentV1(p, sealed.ciphertext, keys, Some(given)) == Some(plaintext)
  {
    AttachmentRoundTrip(p, plaintext, keys, iv, []);
  }

  /** So acceptance means equality exactly for digests of the full length. */
  lemma DigestDecidesExactlyWhen(ours: Bytes, n: nat)
    ensures (forall theirs :: |theirs| == n && DigestMatches(ours, theirs) ==> theirs == ours) <==> n == |ours|
  {
    if n == |ours| {
      forall theirs | |theirs| == n && DigestMatches(ours, theirs) ensures theirs == ours {
        assert forall i :: 0 <= i < n ==> theirs[i] == DigestByte(ours, i);
      }
    } else {
      var given := if n < |ours| then ours[..n] else ours + Zeroes(n - |ours|);
      assert |given| == n && DigestMatches(ours, given) && given != ours;
    }
  }

  // ------------------------------------------------------------------- symmetric

  function EncryptSymmetric(p: Primitives, key: Bytes, plaintext: Bytes, nonce: Bytes): Bytes
    requires Sound(p)
  {
    var cipherKey := p.hmac(key, nonce);
    var ciphertext := p.aesEncrypt(cipherKey, plaintext, Zeroes(16));
    nonce + ciphertext + p.hmac(p.hmac(key, cipherKey), ciphertext)[..16]
  }

  /** Anything shorter than a nonce and a MAC fails one check or another. */
  function DecryptSymmetric(p: Primitives, key: Bytes, data: Bytes): Option<Bytes>
    requires Sound(p)
  {
    if |data| < 32 then None
    else
      var cipherKey := p.hmac(key, data[..16]);
      var ciphertext := data[16..|data| - 16];
      if data[|data| - 16..] != p.hmac(p.hmac(key, cipherKey), ciphertext)[..16] then None
      else p.aesDecrypt(cipherKey, ciphertext, Zeroes(16))
  }

  lemma SymmetricRoundTrip(p: Primitives, key: Bytes, plaintext: Bytes, nonce: Bytes)
    requires Sound(p) && |nonce| == 16
    ensures DecryptSymmetric(p, key, EncryptSymmetric(p, key, plaintext, nonce)) == Some(plaintext)
  {
    var cipherKey := p.hmac(key, nonce);
    var c := p.aesEncrypt(cipherKey, plaintext, Zeroes(16));
    var mac := p.hmac(p.hmac(key, cipherKey), c)[..16];
    var data := nonce + c + mac;
    assert data[..16] == nonce && data[16..|data| - 16] == c && data[|data| - 16..] == mac;
  }

  /** What decrypts is a nonce, a ciphertext and the first 16 bytes of the MAC
      that nonce, key and ciphertext determine; so of all blobs that share nonce
      and ciphertext with an encryption, only the encryption itself decrypts. */
  lemma SymmetricIsAuthentic(p: Primitives, key: Bytes, data: Bytes, plaintext: Bytes, nonce: Bytes, mac: Bytes)
    requires Sound(p) && |nonce| == 16 && |mac| == 16
    ensures DecryptSymmetric(p, key, data).Some? ==>
              && |data| >= 32
              && data[|data| - 16..]
                 == p.hmac(p.hmac(key, p.hmac(key, data[..16])), data[16..|data| - 16])[..16]
              && DecryptSymmetric(p, key, data) == p.aesDecrypt(p.hmac(key, data[..16]), data[16..|data| - 16],
                                                                Zeroes(16))
    ensures var sealed := EncryptSymmetric(p, key, plaintext, nonce);
            var forged := sealed[..|sealed| - 16] + mac;
            DecryptSymmetric(p, key, forged).Some? <==> forged == sealed
  {
    SymmetricRoundTrip(p, key, plaintext, nonce);
    var cipherKey := p.hmac(key, nonce);
    var c := p.aesEncrypt(cipherKey, plaintext, Zeroes(16));
    var sealed := EncryptSymmetric(p, key, plaintext, nonce);
    var forged := sealed[..|sealed| - 16] + mac;
    assert sealed[..|sealed| - 16] == nonce + c;
    assert forged[..16] == nonce && forged[16..|forged| - 16] == c && forged[|forged| - 16..] == mac;
    assert sealed == sealed[..|sealed| - 16] + sealed[|sealed| - 16..];
  }
}
