/** The database key across launches: `getSQLKey` over the persistent user
    config, with a crash or a failed write possible between any two writes. */
module SqlKey {
  import opened Options

  /** A config value; `Sealed` is the hex of a key encrypted under a backend.
      It is a string too, and only ever stored as the encrypted key. */
  datatype Value = Undefined | Str(s: string) | Sealed(backend: Option<string>, key: string) | NotAString

  predicate IsString(v: Value) { v.Str? || v.Sealed? }

  datatype Config = Config(key: Value, encryptedKey: Value, safeStorageBackend: Value, decryptionError: Value)

  datatype Entry = Key(v: Value) | EncryptedKey(v: Value) | Backend(v: Value) | DecryptionError(v: Value)

  function Put(c: Config, e: Entry): Config {
    match e
    case Key(v) => c.(key := v)
    case EncryptedKey(v) => c.(encryptedKey := v)
    case Backend(v) => c.(safeStorageBackend := v)
    case DecryptionError(v) => c.(decryptionError := v)
  }

  function PutAll(c: Config, es: seq<Entry>): Config {
    if es == [] then c else Put(PutAll(c, es[..|es| - 1]), es[|es| - 1])
  }

  /** What a launch meets: the platform, the safe storage of the day with what
      it makes of the stored ciphertext, the user's answer to the dialog, and
      the key that would be generated. */
  datatype Env = Env(isLinux: bool, isFlatpak: bool, mayEncrypt: bool, storageAvailable: bool, backend: Option<string>,
                     decrypted: Option<string>, userQuits: bool, generated: string)

  predicate EncryptionAvailable(e: Env) {
    e.mayEncrypt && e.storageAvailable && (!e.isLinux || e.backend != Some("basic_text"))
  }

  function BackendValue(e: Env): Value { if e.backend.Some? then Str(e.backend.value) else Undefined }

  /** The backend that matters for sealing: only Linux has several. */
  function SealedUnder(e: Env): Option<string> { if e.isLinux then e.backend else None }

  // ---------------------------------------------------------------- getSQLKey

  /** The writes of a launch in order, and its key if it gets past them all. */
  datatype Plan = Plan(writes: seq<Entry>, key: Option<string>)

  const THROW := Plan([], None)

  function DecryptPlan(c: Config, e: Env): Plan {
    if !EncryptionAvailable(e) || e.decrypted.None? then THROW
    else
      var saveBackend := if e.isLinux && c.safeStorageBackend.Undefined? then [Backend(BackendValue(e))] else [];
      if !c.key.Str? then Plan(saveBackend, e.decrypted)
      else if c.key == Str(e.decrypted.value) then Plan([Key(Undefined)] + saveBackend, e.decrypted)
      else if c.decryptionError.Str? then Plan(saveBackend, PlainKey(c))
      else if e.userQuits then THROW
      else Plan([DecryptionError(Str("true"))] + saveBackend, PlainKey(c))
  }

  function PlainKey(c: Config): Option<string> { if c.key.Str? then Some(c.key.s) else None }

  function StorePlan(e: Env, key: string): Plan {
    if EncryptionAvailable(e) then
      Plan([EncryptedKey(Sealed(SealedUnder(e), key)), Key(if e.isFlatpak then Str(key) else Undefined)]
           + (if e.isLinux && e.backend.Some? then [Backend(BackendValue(e))] else []), Some(key))
    else Plan([Key(Str(key))], Some(key))
  }

  function LaunchPlan(c: Config, e: Env): Plan {
    if e.isLinux && c.safeStorageBackend.Str? && c.safeStorageBackend != BackendValue(e) then THROW
    else if IsString(c.encryptedKey) then DecryptPlan(c, e)
    else if c.key.Str? then
      if EncryptionAvailable(e) then StorePlan(e, c.key.s) else Plan([], Some(c.key.s))
    else StorePlan(e, e.generated)
  }

  /** A launch that gets through its first `n` writes. */
  function DiskAfter(c: Config, e: Env, n: nat): Config {
    var p := LaunchPlan(c, e);
    PutAll(c, p.writes[..if n < |p.writes| then n else |p.writes|])
  }

  function Returned(c: Config, e: Env, n: nat): Option<string> {
    if n < |LaunchPlan(c, e).writes| then None else LaunchPlan(c, e).key
  }

  // -------------------------------------------------------------- the invariant

  /** Every copy of a key in the config is a copy of `k`, and there is one. */
  predicate Pins(c: Config, k: string) {
    && (c.key.Str? || IsString(c.encryptedKey))
    && (c.key.Str? ==> c.key == Str(k))
    && (IsString(c.encryptedKey) ==> c.encryptedKey.Sealed? && c.encryptedKey.key == k)
  }

  predicate Keyless(c: Config) { !c.key.Str? && !IsString(c.encryptedKey) }

  /** Decryption, if it does not fail, inverts encryption; it may give a wrong key
      only while the plaintext copy is kept. */
  predicate Honest(c: Config, e: Env) {
    c.encryptedKey.Sealed? && e.decrypted.Some? ==> e.decrypted.value == c.encryptedKey.key || c.key.Str?
  }

  /** After any number of its writes, a launch on a config that pins `k` leaves
      one that pins `k`, and returns nothing else. */
  lemma LaunchKeepsKey(c: Config, e: Env, n: nat, k: string)
    requires Pins(c, k) && Honest(c, e)
    ensures Pins(DiskAfter(c, e, n), k)
    ensures Returned(c, e, n).Some? ==> Returned(c, e, n).value == k
  {
    PlanSteps(c, e, n);
  }

  /** A launch on a config without a key leaves it so, or pins the key that it
      generated, which is also the only one it can return. */
  lemma LaunchMakesKey(c: Config, e: Env, n: nat)
    requires Keyless(c)
    ensures Keyless(DiskAfter(c, e, n)) || Pins(DiskAfter(c, e, n), e.generated)
    ensures Returned(c, e, n).Some? ==> Returned(c, e, n).value == e.generated && Pins(DiskAfter(c, e, n), e.generated)
  {
    PlanSteps(c, e, n);
  }

  /** With at most three writes, the disk after each prefix spelled out. */
  lemma FewWrites(c: Config, ws: seq<Entry>, n: nat)
    requires |ws| <= 3
    ensures PutAll(c, ws[..if n < |ws| then n else |ws|]) ==
            if n == 0 || |ws| == 0 then c
            else if n == 1 || |ws| == 1 then Put(c, ws[0])
            else if n == 2 || |ws| == 2 then Put(Put(c, ws[0]), ws[1])
            else Put(Put(Put(c, ws[0]), ws[1]), ws[2])
  {
    var m := if n < |ws| then n else |ws|;
    assert PutAll(c, ws[..0]) == c;
    if m >= 1 { assert ws[..1][..0] == ws[..0]; assert PutAll(c, ws[..1]) == Put(c, ws[0]); }
    if m >= 2 { assert ws[..2][..1] == ws[..1]; assert PutAll(c, ws[..2]) == Put(Put(c, ws[0]), ws[1]); }
    if m >= 3 { assert ws[..3][..2] == ws[..2]; }
  }

  lemma PlanSteps(c: Config, e: Env, n: nat)
    ensures var ws := LaunchPlan(c, e).writes;
            && |ws| <= 3
            && DiskAfter(c, e, n) ==
               if n == 0 || |ws| == 0 then c
               else if n == 1 || |ws| == 1 then Put(c, ws[0])
               else if n == 2 || |ws| == 2 then Put(Put(c, ws[0]), ws[1])
               else Put(Put(Put(c, ws[0]), ws[1]), ws[2])
  {
    FewWrites(c, LaunchPlan(c, e).writes, n);
  }

  // ------------------------------------------------------------------- launches

  datatype Launch = Launch(env: Env, writesDone: nat)

  predicate AllHonest(c: Config, ls: seq<Launch>)
    decreases |ls|
  {
    ls != [] ==> Honest(c, ls[0].env) && AllHonest(DiskAfter(c, ls[0].env, ls[0].writesDone), ls[1..])
  }

  function Keys(c: Config, ls: seq<Launch>): seq<string>
    decreases |ls|
  {
    if ls == [] then []
    else
      var r := Returned(c, ls[0].env, ls[0].writesDone);
      (if r.Some? then [r.value] else []) + Keys(DiskAfter(c, ls[0].env, ls[0].writesDone), ls[1..])
  }

  lemma {:induction false} PinnedKeyIsReturned(c: Config, ls: seq<Launch>, k: string)
    requires Pins(c, k) && AllHonest(c, ls)
    ensures forall i :: 0 <= i < |Keys(c, ls)| ==> Keys(c, ls)[i] == k
    decreases |ls|
  {
    if ls != [] {
      LaunchKeepsKey(c, ls[0].env, ls[0].writesDone, k);
      PinnedKeyIsReturned(DiskAfter(c, ls[0].env, ls[0].writesDone), ls[1..], k);
    }
  }

  ghost predicate AllSame(ks: seq<string>) {
    forall i, j :: 0 <= i < |ks| && 0 <= j < |ks| ==> ks[i] == ks[j]
  }

  /** Over every sequence of launches, crashes between any two writes
      included, every launch that returns gives the key first returned. */
  lemma {:induction false} EveryLaunchReturnsTheFirstKey(c: Config, ls: seq<Launch>)
    requires (Keyless(c) || exists k :: Pins(c, k)) && AllHonest(c, ls)
    ensures AllSame(Keys(c, ls))
    decreases |ls|
  {
    if !Keyless(c) {
      var k :| Pins(c, k);
      PinnedKeyIsReturned(c, ls, k);
    } else if ls != [] {
      var c' := DiskAfter(c, ls[0].env, ls[0].writesDone);
      LaunchMakesKey(c, ls[0].env, ls[0].writesDone);
      var rest := Keys(c', ls[1..]);
      if Returned(c, ls[0].env, ls[0].writesDone).Some? {
        PinnedKeyIsReturned(c', ls[1..], ls[0].env.generated);
        assert Keys(c, ls) == [ls[0].env.generated] + rest;
      } else {
        EveryLaunchReturnsTheFirstKey(c', ls[1..]);
        assert Keys(c, ls) == [] + rest == rest;
      }
    }
  }

  /** Under Flatpak the plaintext copy goes only in a launch whose decryption
      gave back the very key that it held. */
  lemma PlaintextGoesOnlyAfterRoundTrip(c: Config, e: Env, n: nat)
    requires e.isFlatpak && c.key.Str? && !DiskAfter(c, e, n).key.Str?
    ensures e.decrypted == Some(c.key.s) && IsString(c.encryptedKey)
  {
    PlanSteps(c, e, n);
  }

  /** The assumption is needed: once the plaintext copy is gone, a launch
      returns whatever decryption yields. */
  lemma WrongDecryptionIsReturned(c: Config, e: Env, k: string)
    requires c.encryptedKey.Sealed? && c.encryptedKey.key == k && !c.key.Str?
    requires EncryptionAvailable(e) && e.decrypted.Some? && e.decrypted.value != k
    requires !e.isLinux || !c.safeStorageBackend.Str? || c.safeStorageBackend == BackendValue(e)
    ensures Pins(c, k) && !Honest(c, e)
    ensures Returned(c, e, |LaunchPlan(c, e).writes|).Some? && Returned(c, e, |LaunchPlan(c, e).writes|).value != k
  {
  }

  /** Where the plaintext copy is kept a wrong decryption does no harm: the launch
      returns the true key, once the user has accepted. */
  lemma WrongDecryptionIsCaught(c: Config, e: Env, k: string)
    requires Pins(c, k) && c.key.Str? && c.encryptedKey.Sealed?
    requires EncryptionAvailable(e) && e.decrypted.Some? && e.decrypted.value != k
    requires !e.isLinux || !c.safeStorageBackend.Str? || c.safeStorageBackend == BackendValue(e)
    ensures Honest(c, e)
    ensures Returned(c, e, 3) == if c.decryptionError.Str? || !e.userQuits then Some(k) else None
  {
  }

  // ------------------------------------------------------- when a launch returns

  /** From config and environment alone: a launch returns a key if and only if
      the backend did not change, an encrypted key can be decrypted and, if the
      plaintext says otherwise, that was accepted before or is now, and the
      writes that are due succeed. */
  lemma ReturnsExactlyWhen(c: Config, e: Env, n: nat)
    ensures var encrypts := e.mayEncrypt && e.storageAvailable && (!e.isLinux || e.backend != Some("basic_text"));
            var sameBackend := !e.isLinux || !c.safeStorageBackend.Str? || e.backend == Some(c.safeStorageBackend.s);
            var hasEncrypted := c.encryptedKey.Str? || c.encryptedKey.Sealed?;
            var mismatch := c.key.Str? && e.decrypted != Some(c.key.s);
            var accepted := c.decryptionError.Str? || !e.userQuits;
            var due := if hasEncrypted then
                         (if !c.key.Str? || (mismatch && c.decryptionError.Str?) then 0 else 1)
                         + (if e.isLinux && c.safeStorageBackend.Undefined? then 1 else 0)
                       else if encrypts then 2 + (if e.isLinux && e.backend.Some? then 1 else 0)
                       else if c.key.Str? then 0 else 1;
            Returned(c, e, n).Some? <==>
              sameBackend && (hasEncrypted ==> encrypts && e.decrypted.Some? && (mismatch ==> accepted)) && due <= n
  {
  }

  /** And which: the decrypted one unless the plaintext says otherwise, the
      plaintext one, or a new one. */
  lemma ReturnsWhich(c: Config, e: Env, n: nat)
    requires Returned(c, e, n).Some?
    ensures Returned(c, e, n).value ==
            if c.key.Str? then c.key.s
            else if c.encryptedKey.Str? || c.encryptedKey.Sealed? then e.decrypted.value
            else e.generated
  {
  }

  /** What a launch that decrypts leaves on disk: the plaintext is gone once
      decryption gave it back, an accepted mismatch and, on Linux, the backend
      are on record, and the encrypted key is as it was. */
  lemma DecryptingLeaves(c: Config, e: Env, n: nat)
    requires Returned(c, e, n).Some? && (c.encryptedKey.Str? || c.encryptedKey.Sealed?)
    ensures var d := DiskAfter(c, e, n);
            && d.encryptedKey == c.encryptedKey
            && d.key == (if c.key.Str? && e.decrypted == Some(c.key.s) then Undefined else c.key)
            && d.decryptionError == (if c.key.Str? && e.decrypted != Some(c.key.s) && !c.decryptionError.Str?
                                     then Str("true") else c.decryptionError)
            && d.safeStorageBackend == (if e.isLinux && c.safeStorageBackend.Undefined? && e.backend.Some?
                                        then Str(e.backend.value) else c.safeStorageBackend)
  {
    PlanSteps(c, e, n);
  }

  /** What a launch leaves that has only a plaintext key, or none: where there is
      encryption the key is stored encrypted under the backend of the day, in
      plaintext only under Flatpak, and on Linux the backend is on record; where
      there is none, it is stored in plaintext. */
  lemma StoringLeaves(c: Config, e: Env, n: nat)
    requires Returned(c, e, n).Some? && !c.encryptedKey.Str? && !c.encryptedKey.Sealed?
    ensures var d := DiskAfter(c, e, n);
            var k := Returned(c, e, n).value;
            && d.decryptionError == c.decryptionError
            && if e.mayEncrypt && e.storageAvailable && (!e.isLinux || e.backend != Some("basic_text")) then
                 && d.encryptedKey == Sealed(if e.isLinux then e.backend else None, k)
                 && d.key == (if e.isFlatpak then Str(k) else Undefined)
                 && d.safeStorageBackend == (if e.isLinux && e.backend.Some? then Str(e.backend.value)
                                             else c.safeStorageBackend)
               else
                 d.encryptedKey == c.encryptedKey && d.key == Str(k) && d.safeStorageBackend == c.safeStorageBackend
  {
    PlanSteps(c, e, n);
  }

  /** The machine has not changed, and what is sealed can be opened. */
  predicate SameMachine(d: Config, e: Env, e': Env) {
    && e'.isLinux == e.isLinux && e'.mayEncrypt == e.mayEncrypt
    && e'.storageAvailable == e.storageAvailable && e'.backend == e.backend
    && (d.encryptedKey.Sealed? ==> e'.decrypted == Some(d.encryptedKey.key))
  }

  /** So a launch that returned is followed by one that does: on the same machine
      the next launch returns the same key, if its writes succeed. */
  lemma NextLaunchReturns(c: Config, e: Env, n: nat, e': Env, k: string)
    requires (Keyless(c) || Pins(c, k)) && Honest(c, e) && Returned(c, e, n).Some?
    requires SameMachine(DiskAfter(c, e, n), e, e')
    ensures Returned(DiskAfter(c, e, n), e', 3) == Returned(c, e, n)
  {
    var d := DiskAfter(c, e, n);
    ReturnsExactlyWhen(c, e, n);
    ReturnsWhich(c, e, n);
    if c.encryptedKey.Str? || c.encryptedKey.Sealed? { DecryptingLeaves(c, e, n); } else { StoringLeaves(c, e, n); }
    ReturnsExactlyWhen(d, e', 3);
    if Returned(d, e', 3).Some? { ReturnsWhich(d, e', 3); }
  }

  // --------------------------------------------------------------- the two objects

  /** `base_config`. Started with `throwOnFilesystemErrors`, as the user config
      is, a value reaches the cache only once the file has been written; else it
      reaches the cache in any case. `writesLeft` is how many writes succeed
      before the disk fails or the process dies. */
  class UserConfig {
    var disk: Config
    var cached: Config
    var writesLeft: nat
    const throwOnFilesystemErrors: bool

    constructor (onDisk: Config, writes: nat, throws: bool)
      ensures disk == onDisk && cached == onDisk && writesLeft == writes && throwOnFilesystemErrors == throws
    {
      disk, cached, writesLeft, throwOnFilesystemErrors := onDisk, onDisk, writes, throws;
    }

    /** `ourSet`; false is its throw, or the crash. */
    method Set(e: Entry) returns (ok: bool)
      modifies this
      ensures ok <==> old(writesLeft) > 0 || !throwOnFilesystemErrors
      ensures cached == if ok then Put(old(cached), e) else old(cached)
      ensures disk == if old(writesLeft) > 0 then Put(old(cached), e) else old(disk)
      ensures writesLeft == if old(writesLeft) > 0 then old(writesLeft) - 1 else 0
    {
      var next := Put(cached, e);
      if !throwOnFilesystemErrors { cached := next; }
      if writesLeft == 0 { return !throwOnFilesystemErrors; }
      writesLeft := writesLeft - 1;
      disk := next;
      cached := next;
      return true;
    }
  }

  /** `handleSafeStorageDecryptionError`: true to go on with the plaintext key. */
  method HandleDecryptionError(config: UserConfig, e: Env) returns (goOn: bool, ok: bool)
    requires config.cached == config.disk && config.throwOnFilesystemErrors
    modifies config
    ensures config.cached == config.disk
    ensures if old(config.disk).decryptionError.Str? then goOn && ok && unchanged(config)
            else if e.userQuits then !goOn && ok && unchanged(config)
            else goOn && (ok <==> old(config.writesLeft) > 0)
                 && config.disk == (if ok then Put(old(config.disk), DecryptionError(Str("true")))
                                    else old(config.disk))
                 && config.writesLeft == (if ok then old(config.writesLeft) - 1 else 0)
  {
    if config.cached.decryptionError.Str? { return true, true; }
    if e.userQuits { return false, true; }
    ok := config.Set(DecryptionError(Str("true")));
    return true, ok;
  }

  /** The branch that decrypts; None is a throw or a crash. */
  method GetFromEncrypted(config: UserConfig, e: Env) returns (key: Option<string>)
    requires config.cached == config.disk && config.throwOnFilesystemErrors
    modifies config
    ensures config.cached == config.disk
    ensures var p := DecryptPlan(old(config.disk), e); var n := old(config.writesLeft);
            && config.disk == PutAll(old(config.disk), p.writes[..if n < |p.writes| then n else |p.writes|])
            && key == (if n < |p.writes| then None else p.key)
  {
    ghost var c, n := config.disk, config.writesLeft;
    ghost var p := DecryptPlan(c, e);
    FewWrites(c, p.writes, n);
    if !EncryptionAvailable(e) || e.decrypted.None? { return None; }
    var legacy := config.cached.key;
    var previousBackend := config.cached.safeStorageBackend;
    key := e.decrypted;
    if legacy.Str? {
      if legacy.s == e.decrypted.value {
        var ok := config.Set(Key(Undefined));
        if !ok { return None; }
      } else {
        var goOn, ok := HandleDecryptionError(config, e);
        if !goOn || !ok { return None; }
        key := Some(legacy.s);
      }
    }
    if e.isLinux && previousBackend.Undefined? {
      var ok := config.Set(Backend(BackendValue(e)));
      if !ok { return None; }
    }
  }

  /** The branch that writes the key back. */
  method StoreKey(config: UserConfig, e: Env, k: string) returns (key: Option<string>)
    requires config.cached == config.disk && config.throwOnFilesystemErrors
    modifies config
    ensures config.cached == config.disk
    ensures var p := StorePlan(e, k); var n := old(config.writesLeft);
            && config.disk == PutAll(old(config.disk), p.writes[..if n < |p.writes| then n else |p.writes|])
            && key == (if n < |p.writes| then None else p.key)
  {
    FewWrites(config.disk, StorePlan(e, k).writes, config.writesLeft);
    if EncryptionAvailable(e) {
      var ok := config.Set(EncryptedKey(Sealed(SealedUnder(e), k)));
      if !ok { return None; }
      ok := config.Set(Key(if e.isFlatpak then Str(k) else Undefined));
      if !ok { return None; }
      if e.isLinux && e.backend.Some? {
        ok := config.Set(Backend(BackendValue(e)));
        if !ok { return None; }
      }
    } else {
      var ok := config.Set(Key(Str(k)));
      if !ok { return None; }
    }
    return Some(k);
  }

  /** `getSQLKey`: one launch, with the writes it gets through. */
  method GetSQLKey(config: UserConfig, e: Env) returns (key: Option<string>)
    requires config.cached == config.disk && config.throwOnFilesystemErrors
    modifies config
    ensures config.cached == config.disk == DiskAfter(old(config.disk), e, old(config.writesLeft))
    ensures key == Returned(old(config.disk), e, old(config.writesLeft))
  {
    var legacyKey, modernKey := config.cached.key, config.cached.encryptedKey;
    var previousBackend := config.cached.safeStorageBackend;
    assert PutAll(config.disk, []) == config.disk;
    if e.isLinux && previousBackend.Str? && previousBackend != BackendValue(e) { return None; }
    if IsString(modernKey) {
      key := GetFromEncrypted(config, e);
    } else if legacyKey.Str? {
      if !EncryptionAvailable(e) { return Some(legacyKey.s); }
      key := StoreKey(config, e, legacyKey.s);
    } else {
      key := StoreKey(config, e, e.generated);
    }
  }
}
