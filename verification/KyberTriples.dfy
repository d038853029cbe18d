/** The string keys of the kyber triple cache: `serviceId:keyId` for a prekey
    and `serviceId:keyId:signedPreKeyId:hex(baseKey)` for a triple. The store
    compares triples, and purges those of a removed key, by these strings
    alone, so its correctness rests on the encoding being unambiguous. */
module KyberTriples {
  type Byte = b: int | 0 <= b < 256

  datatype Triple = Triple(id: string, signedPreKeyId: nat, baseKey: seq<Byte>)

  const DIGITS := "0123456789abcdef"

  function Decimal(n: nat): (s: string)
    ensures s != [] && ':' !in s
  {
    if n < 10 then [DIGITS[n]] else Decimal(n / 10) + [DIGITS[n % 10]]
  }

  function Hex(bs: seq<Byte>): string {
    if bs == [] then "" else [DIGITS[bs[0] / 16], DIGITS[bs[0] % 16]] + Hex(bs[1..])
  }

  function KeyId(serviceId: string, keyId: nat): string { serviceId + ":" + Decimal(keyId) }

  function CacheKey(t: Triple): string { t.id + ":" + Decimal(t.signedPreKeyId) + ":" + Hex(t.baseKey) }

  /** An ACI has no colon; a PNI is tagged `PNI:` and has none after it. */
  predicate IsServiceId(s: string) {
    if "PNI:" <= s then ':' !in s[4..] else ':' !in s && s != "PNI"
  }

  ghost predicate IsKeyId(id: string) {
    exists serviceId: string, keyId: nat :: IsServiceId(serviceId) && id == KeyId(serviceId, keyId)
  }

  /** ACIs and tagged PNIs both name keys. */
  lemma KeyIdsOfBothKinds(uuid: string, keyId: nat)
    requires ':' !in uuid && uuid != "PNI"
    ensures IsKeyId(uuid + ":" + Decimal(keyId)) && IsKeyId("PNI:" + uuid + ":" + Decimal(keyId))
  {
    BothAreServiceIds(uuid);
    assert KeyId(uuid, keyId) == uuid + ":" + Decimal(keyId);
    assert KeyId("PNI:" + uuid, keyId) == "PNI:" + uuid + ":" + Decimal(keyId);
  }

  lemma BothAreServiceIds(uuid: string)
    requires ':' !in uuid && uuid != "PNI"
    ensures IsServiceId(uuid) && IsServiceId("PNI:" + uuid)
  {
    assert "PNI:"[3] == ':';
    assert ("PNI:" + uuid)[4..] == uuid;
  }

  // ------------------------------------------------------------- peeling

  /** Two colon-free heads, each followed by a colon, agree as soon as one
      string is a prefix of the other. */
  lemma Peel(x: string, r: string, y: string, q: string)
    requires ':' !in x && ':' !in y
    requires x + ":" + r <= y + ":" + q
    ensures x == y && r <= q
  {
    var a, b := x + ":" + r, y + ":" + q;
    assert a[|x|] == b[|x|] == ':';
    assert b[|y|] == ':';
    assert forall k :: 0 <= k < |y| ==> b[k] == y[k];
    assert forall k :: 0 <= k < |x| ==> b[k] == a[k] == x[k];
    assert x == a[..|x|] == b[..|x|] == y;
    assert r == a[|x| + 1..] && q == b[|x| + 1..];
  }

  lemma {:induction false} DecimalInjective(m: nat, n: nat)
    requires Decimal(m) == Decimal(n)
    ensures m == n
  {
    DistinctDigits();
    assert m >= 10 ==> |Decimal(m)| >= 2;
    assert n >= 10 ==> |Decimal(n)| >= 2;
    if m >= 10 && n >= 10 {
      var a, b := Decimal(m), Decimal(n);
      assert a[..|a| - 1] == Decimal(m / 10) && b[..|b| - 1] == Decimal(n / 10);
      DecimalInjective(m / 10, n / 10);
      assert a[|a| - 1] == DIGITS[m % 10] && b[|b| - 1] == DIGITS[n % 10];
    }
  }

  lemma DistinctDigits()
    ensures forall i, j :: 0 <= i < 16 && 0 <= j < 16 && DIGITS[i] == DIGITS[j] ==> i == j
  {
  }

  lemma {:induction false} HexInjective(a: seq<Byte>, b: seq<Byte>)
    requires Hex(a) == Hex(b)
    ensures a == b
  {
    if a != [] && b != [] {
      DistinctDigits();
      assert Hex(a)[0] == DIGITS[a[0] / 16] && Hex(a)[1] == DIGITS[a[0] % 16];
      assert Hex(b)[0] == DIGITS[b[0] / 16] && Hex(b)[1] == DIGITS[b[0] % 16];
      assert a[0] == b[0];
      assert Hex(a)[2..] == Hex(a[1..]) && Hex(b)[2..] == Hex(b[1..]);
      HexInjective(a[1..], b[1..]);
      assert a == [a[0]] + a[1..] && b == [b[0]] + b[1..];
    }
  }

  /** The two key ids are compared segment by segment. */
  lemma PeelKeyId(s: string, n: nat, p: string, m: nat, r: string)
    requires IsServiceId(s) && IsServiceId(p)
    requires KeyId(s, n) + ":" <= KeyId(p, m) + ":" + r
    ensures s == p && n == m
  {
    var a, b := Decimal(n) + ":", Decimal(m) + ":" + r;
    assert KeyId(s, n) + ":" == s + ":" + a && KeyId(p, m) + ":" + r == p + ":" + b;
    if "PNI:" <= s && "PNI:" <= p {
      assert s + ":" + a == "PNI" + ":" + (s[4..] + ":" + a);
      assert p + ":" + b == "PNI" + ":" + (p[4..] + ":" + b);
      Peel("PNI", s[4..] + ":" + a, "PNI", p[4..] + ":" + b);
      Peel(s[4..], a, p[4..], b);
      assert s == "PNI:" + s[4..] && p == "PNI:" + p[4..];
    } else if "PNI:" <= s {
      assert s + ":" + a == "PNI" + ":" + (s[4..] + ":" + a);
      Peel("PNI", s[4..] + ":" + a, p, b);
    } else if "PNI:" <= p {
      assert p + ":" + b == "PNI" + ":" + (p[4..] + ":" + b);
      Peel(s, a, "PNI", p[4..] + ":" + b);
    } else {
      Peel(s, a, p, b);
    }
    assert a == Decimal(n) + ":" + "";
    Peel(Decimal(n), "", Decimal(m), r);
    DecimalInjective(n, m);
  }

  /** The prefix purge drops exactly the triples of the removed key. */
  lemma PrefixIsKey(id: string, t: Triple)
    requires IsKeyId(id) && IsKeyId(t.id)
    ensures id + ":" <= CacheKey(t) <==> id == t.id
  {
    var rest := Decimal(t.signedPreKeyId) + ":" + Hex(t.baseKey);
    assert CacheKey(t) == t.id + ":" + rest;
    if id + ":" <= CacheKey(t) {
      var s: string, n: nat :| IsServiceId(s) && id == KeyId(s, n);
      var p: string, m: nat :| IsServiceId(p) && t.id == KeyId(p, m);
      PeelKeyId(s, n, p, m, rest);
    }
  }

  lemma SameTail(m: nat, a: seq<Byte>, n: nat, b: seq<Byte>)
    requires Decimal(m) + ":" + Hex(a) == Decimal(n) + ":" + Hex(b)
    ensures m == n && a == b
  {
    Peel(Decimal(m), Hex(a), Decimal(n), Hex(b));
    Peel(Decimal(n), Hex(b), Decimal(m), Hex(a));
    DecimalInjective(m, n);
    HexInjective(a, b);
  }

  /** Equal cache keys come from equal triples. */
  lemma CacheKeyInjective(t: Triple, u: Triple)
    requires IsKeyId(t.id) && IsKeyId(u.id)
    requires CacheKey(t) == CacheKey(u)
    ensures t == u
  {
    var x := Decimal(t.signedPreKeyId) + ":" + Hex(t.baseKey);
    var y := Decimal(u.signedPreKeyId) + ":" + Hex(u.baseKey);
    assert CacheKey(t) == t.id + ":" + x && CacheKey(u) == u.id + ":" + y;
    PrefixIsKey(t.id, u);
    assert x == (t.id + ":" + x)[|t.id| + 1..] && y == (u.id + ":" + y)[|u.id| + 1..];
    SameTail(t.signedPreKeyId, t.baseKey, u.signedPreKeyId, u.baseKey);
  }
}
