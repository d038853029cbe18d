/** The store as the object that it is: one method for each stretch of code
    between two awaits, with its loops, proved to be a step of the model that
    ZoneLock, StoreTables and ZoneSystem reason about. */
module SignalProtocolStoreClass {
  import opened Options
  import opened KyberTriples
  import opened ZoneLock
  import opened StoreTables
  import ZoneSystem

  // ------------------------------------------------- the loops of a commit

  method SetAll<V>(m: map<Id, V>, updates: map<Id, V>) returns (r: map<Id, V>)
    ensures r == m + updates
  {
    r := m;
    var todo := updates.Keys;
    while todo != {}
      invariant todo <= updates.Keys
      invariant r.Keys == m.Keys + (updates.Keys - todo)
      invariant forall k :: k in r ==> r[k] == if k in updates && k !in todo then updates[k] else m[k]
      decreases |todo|
    {
      var k :| k in todo;
      r := r[k := updates[k]];
      todo := todo - {k};
    }
  }

  method DeleteAll<V>(m: map<Id, V>, ids: set<Id>) returns (r: map<Id, V>)
    ensures r == m - ids
  {
    r := m;
    var todo := ids;
    while todo != {}
      invariant todo <= ids && r == m - (ids - todo)
      decreases |todo|
    {
      var id :| id in todo;
      r := r - {id};
      todo := todo - {id};
    }
  }

  /** The inner loop: drop every cached triple that starts with `id:`. */
  method PurgePrefix(triples: set<string>, id: Id) returns (r: set<string>)
    ensures r == set k | k in triples && !(id + ":" <= k)
  {
    r := triples;
    var todo := triples;
    while todo != {}
      invariant todo <= r <= triples
      invariant forall k :: k in triples && k !in todo ==> (k in r <==> !(id + ":" <= k))
      decreases |todo|
    {
      var k :| k in todo;
      if id + ":" <= k { r := r - {k}; }
      todo := todo - {k};
    }
  }

  method PurgeRemovedKeys(triples: set<string>, ids: set<Id>) returns (r: set<string>)
    ensures r == set k | k in triples && !StartsWithAny(k, ids)
  {
    r := triples;
    var todo := ids;
    while todo != {}
      invariant todo <= ids
      invariant forall k :: k in r <==> k in triples && !StartsWithAny(k, ids - todo)
      decreases |todo|
    {
      var id :| id in todo;
      var next := PurgePrefix(r, id);
      forall k ensures StartsWithAny(k, ids - (todo - {id})) <==> StartsWithAny(k, ids - todo) || id + ":" <= k {
        if StartsWithAny(k, ids - todo) {
          var i :| i in ids - todo && i + ":" <= k;
          assert i in ids - (todo - {id});
        }
        if id + ":" <= k { assert id in ids - (todo - {id}); }
      }
      r := next;
      todo := todo - {id};
    }
    assert ids - todo == ids;
  }

  lemma {:induction false} LeadingRunIs(q: seq<Waiter>, m: nat)
    requires 0 < m <= |q|
    requires forall k :: 0 <= k < m ==> q[k].zone == q[0].zone
    requires m < |q| ==> q[m].zone != q[0].zone
    ensures LeadingRun(q) == m
  {
    if m > 1 {
      assert q[1..][0] == q[1];
      LeadingRunIs(q[1..], m - 1);
    }
  }

  /** The six size tests of `#commitZoneChanges`. */
  predicate AllSizesZero(p: Pending)
    ensures AllSizesZero(p) <==> p == NOTHING
  {
    && |p.kyberRemove| == 0 && |p.preKeyRemove| == 0 && |p.senderKeys| == 0
    && |p.sessions| == 0 && |p.unprocessed| == 0 && |p.triples| == 0
  }

  lemma SendPendingIs(st: Store, batch: Pending, owner: Option<nat>)
    requires batch == st.pending
    ensures SendPending(st, owner)
            == if AllSizesZero(batch) then st
               else st.(pending := NOTHING, sent := st.sent + [InFlight(owner, Commit(batch))])
  {
  }

  lemma AcknowledgeIs(st: Store, batch: Pending)
    requires st.performed != [] && st.performed[0].write == Commit(batch)
    ensures Acknowledge(st) == st.(cache := Acknowledged(st.cache, Commit(batch)), performed := st.performed[1..])
  {
  }

  /** The cache updates of a commit, in the order of the source. */
  method AcknowledgeCommit(c: Caches, batch: Pending) returns (c': Caches)
    ensures c' == Acknowledged(c, Commit(batch))
  {
    var kyberKeys := DeleteAll(c.kyberKeys, batch.kyberRemove);
    var triples := PurgeRemovedKeys(c.triples + batch.triples.Keys, batch.kyberRemove);
    var preKeys := DeleteAll(c.preKeys, batch.preKeyRemove);
    var senderKeys := SetAll(c.senderKeys, batch.senderKeys);
    var sessions := SetAll(c.sessions, batch.sessions);
    c' := Caches(sessions, senderKeys, preKeys, kyberKeys, triples);
  }

  class SignalProtocolStore {
    var currentZone: Option<Zone>
    var currentZoneDepth: nat
    var zoneQueue: seq<Waiter>
    ghost var inside: map<JobId, Zone>

    var sessions: map<Id, Blob>
    var senderKeys: map<Id, Blob>
    var preKeys: map<Id, Blob>
    var kyberPreKeys: map<Id, KyberKey>
    var kyberTriples: set<string>

    var pendingKyberPreKeysToRemove: set<Id>
    var pendingPreKeysToRemove: set<Id>
    var pendingSenderKeys: map<Id, Blob>
    var pendingSessions: map<Id, Blob>
    var pendingUnprocessed: map<Id, Blob>
    var pendingKyberTriples: map<string, Triple>

    // The other side of the await: the database and the writes in flight.
    ghost var db: Database
    ghost var sent: seq<InFlight>
    ghost var performed: seq<InFlight>

    ghost function LockState(): Lock
      reads this
    {
      Lock(currentZone, currentZoneDepth, zoneQueue, inside)
    }

    ghost function State(): Store
      reads this
    {
      Store(db, Caches(sessions, senderKeys, preKeys, kyberPreKeys, kyberTriples),
            Pending(pendingKyberPreKeysToRemove, pendingPreKeysToRemove, pendingSenderKeys,
                    pendingSessions, pendingUnprocessed, pendingKyberTriples),
            sent, performed)
    }

    /** Fresh caches over a database that has just been read. */
    constructor (ghost database: Database, s: map<Id, Blob>, sk: map<Id, Blob>, pk: map<Id, Blob>,
                 kk: map<Id, KyberKey>, triples: set<string>)
      requires View(database) == Caches(s, sk, pk, kk, triples) && ValidDatabase(database)
      ensures LockState() == UNLOCKED && Inv(LockState())
      ensures State() == Store(database, View(database), NOTHING, [], []) && StoreInv(State())
    {
      currentZone, currentZoneDepth, zoneQueue, inside := None, 0, [], map[];
      sessions, senderKeys, preKeys, kyberPreKeys, kyberTriples := s, sk, pk, kk, triples;
      pendingKyberPreKeysToRemove, pendingPreKeysToRemove := {}, {};
      pendingSenderKeys, pendingSessions, pendingUnprocessed, pendingKyberTriples := map[], map[], map[], map[];
      db, sent, performed := database, [], [];
    }

    // ------------------------------------------------------------- the lock

    method EnterZone(w: Waiter)
      modifies this`currentZone, this`currentZoneDepth, this`inside
      ensures LockState() == Enter(old(LockState()), w)
    {
      currentZoneDepth := currentZoneDepth + 1;
      if currentZoneDepth == 1 { currentZone := Some(w.zone); }
      inside := inside[w.job := w.zone];
    }

    /** The head of `withZone`; `entered` says whether the body may start. */
    method WithZone(w: Waiter) returns (entered: bool)
      modifies this`currentZone, this`currentZoneDepth, this`zoneQueue, this`inside
      ensures LockState() == CallZone(old(LockState()), w)
      ensures entered <==> zoneQueue == old(zoneQueue)
    {
      if currentZone.Some? && currentZone.value != w.zone {
        zoneQueue := zoneQueue + [w];
        return false;
      }
      EnterZone(w);
      return true;
    }

    method LeaveZone(job: JobId)
      requires 0 < currentZoneDepth
      modifies this`currentZone, this`currentZoneDepth, this`zoneQueue, this`inside
      ensures LockState() == ZoneLock.LeaveZone(old(LockState()), job)
    {
      currentZoneDepth := currentZoneDepth - 1;
      inside := inside - {job};
      if currentZoneDepth != 0 { return; }
      currentZone := None;
      if zoneQueue == [] { return; }
      ghost var all := zoneQueue;
      var next := zoneQueue[0];
      zoneQueue := zoneQueue[1..];
      var toEnter := [next];
      while zoneQueue != [] && zoneQueue[0].zone == next.zone
        invariant toEnter != [] && toEnter + zoneQueue == all
        invariant forall k :: 0 <= k < |toEnter| ==> toEnter[k].zone == next.zone
        invariant currentZone == None && currentZoneDepth == 0 && inside == old(inside) - {job}
        decreases |zoneQueue|
      {
        toEnter := toEnter + [zoneQueue[0]];
        zoneQueue := zoneQueue[1..];
      }
      assert all[0] == next && toEnter == all[..|toEnter|] && zoneQueue == all[|toEnter|..];
      LeadingRunIs(all, |toEnter|);
      ghost var drained := LockState();
      var i := 0;
      while i < |toEnter|
        invariant i <= |toEnter|
        invariant CallAll(drained, toEnter) == CallAll(LockState(), toEnter[i..])
      {
        var _ := WithZone(toEnter[i]);
        assert toEnter[i..][0] == toEnter[i] && toEnter[i..][1..] == toEnter[i + 1..];
        i := i + 1;
      }
      assert toEnter[i..] == [];
    }

    // ------------------------------------------------- commit and revert

    /** `#commitZoneChanges` up to its `await`. */
    method BeginCommit(ghost owner: Option<nat>) returns (batch: Pending, writes: bool)
      modifies this`pendingKyberPreKeysToRemove, this`pendingPreKeysToRemove, this`pendingSenderKeys,
               this`pendingSessions, this`pendingUnprocessed, this`pendingKyberTriples, this`sent
      ensures batch == old(State()).pending && (writes <==> batch != NOTHING)
      ensures State() == SendPending(old(State()), owner)
    {
      ghost var before := State();
      batch := Pending(pendingKyberPreKeysToRemove, pendingPreKeysToRemove, pendingSenderKeys,
                       pendingSessions, pendingUnprocessed, pendingKyberTriples);
      writes := !AllSizesZero(batch);
      SendPendingIs(before, batch, owner);
      if !writes { return; }
      ClearPending();
      sent := sent + [InFlight(owner, Commit(batch))];
    }

    /** The pending maps are replaced by empty ones. */
    method ClearPending()
      modifies this`pendingKyberPreKeysToRemove, this`pendingPreKeysToRemove, this`pendingSenderKeys,
               this`pendingSessions, this`pendingUnprocessed, this`pendingKyberTriples
      ensures State() == old(State()).(pending := NOTHING)
    {
      pendingKyberPreKeysToRemove, pendingPreKeysToRemove := {}, {};
      pendingSenderKeys, pendingSessions, pendingUnprocessed, pendingKyberTriples := map[], map[], map[], map[];
    }

    /** The rest of it, once the write has succeeded. */
    method FinishCommit(batch: Pending)
      requires performed != [] && performed[0].write == Commit(batch)
      modifies this`sessions, this`senderKeys, this`preKeys, this`kyberPreKeys, this`kyberTriples, this`performed
      ensures State() == Acknowledge(old(State()))
    {
      var c := AcknowledgeCommit(Caches(sessions, senderKeys, preKeys, kyberPreKeys, kyberTriples), batch);
      AcknowledgeIs(State(), batch);
      kyberPreKeys, kyberTriples, preKeys := c.kyberKeys, c.triples, c.preKeys;
      senderKeys, sessions := c.senderKeys, c.sessions;
      performed := performed[1..];
    }

    method RevertZoneChanges()
      modifies this`pendingKyberPreKeysToRemove, this`pendingPreKeysToRemove, this`pendingSenderKeys,
               this`pendingSessions, this`pendingUnprocessed
      ensures State() == old(State()).(pending := Revert(old(State()).pending))
    {
      pendingKyberPreKeysToRemove, pendingPreKeysToRemove := {}, {};
      pendingSenderKeys, pendingSessions, pendingUnprocessed := map[], map[], map[];
    }

    // --------------------------------------------------- loads and stores

    method LoadSession(id: Id) returns (r: Option<Blob>)
      ensures r == StoreTables.LoadSession(State(), id)
    {
      var m := if id in pendingSessions then pendingSessions else sessions;
      r := if id in m then Some(m[id]) else None;
    }

    method LoadKyberPreKey(id: Id) returns (r: Option<KyberKey>)
      ensures r == StoreTables.LoadKyberPreKey(State(), id)
    {
      if id in pendingKyberPreKeysToRemove { return None; }
      r := if id in kyberPreKeys then Some(kyberPreKeys[id]) else None;
    }

    /** `#_getAllSessions`: a fresh map filled from the cache, then overwritten. */
    method GetAllSessions() returns (union: map<Id, Blob>)
      ensures union == AllSessions(State())
    {
      union := SetAll(map[], sessions);
      union := SetAll(union, pendingSessions);
      assert map[] + sessions == sessions;
    }

    /** The body of `storeSession`. In a zone that keeps no sessions pending it
        goes on to a commit, whose batch is returned, up to that await. */
    method StoreSession(zone: Zone, id: Id, record: Blob, ghost owner: Option<nat>) returns (batch: Option<Pending>)
      modifies this`pendingKyberPreKeysToRemove, this`pendingPreKeysToRemove, this`pendingSenderKeys,
               this`pendingSessions, this`pendingUnprocessed, this`pendingKyberTriples, this`sent
      ensures State() == ZoneSystem.Altered(old(State()), zone, ZoneSystem.PutSession(id, record), owner)
      ensures batch.None? <==> zone.keepsSessions
      ensures batch.Some? ==> batch.value.sessions == old(pendingSessions)[id := record]
    {
      pendingSessions := pendingSessions[id := record];
      if zone.keepsSessions { return None; }
      var b, _ := BeginCommit(owner);
      return Some(b);
    }

    /** The last-resort branch of `maybeRemoveKyberPreKey`: a triple that is not
        accepted is its throw. */
    method MarkTriple(zone: Zone, t: Triple, ghost owner: Option<nat>) returns (accepted: bool, batch: Option<Pending>)
      modifies this`pendingKyberPreKeysToRemove, this`pendingPreKeysToRemove, this`pendingSenderKeys,
               this`pendingSessions, this`pendingUnprocessed, this`pendingKyberTriples, this`sent
      ensures accepted <==> !ZoneSystem.IsDuplicate(old(State()), ZoneSystem.AddTriple(t))
      ensures State() == if accepted
                         then ZoneSystem.Altered(old(State()), zone, ZoneSystem.AddTriple(t), owner)
                         else old(State())
      ensures batch.Some? <==> accepted && !zone.keepsKyber
      ensures batch.Some? ==> batch.value.triples == old(pendingKyberTriples)[CacheKey(t) := t]
    {
      var key := CacheKey(t);
      if key in kyberTriples || key in pendingKyberTriples { return false, None; }
      pendingKyberTriples := pendingKyberTriples[key := t];
      if zone.keepsKyber { return true, None; }
      var b, _ := BeginCommit(owner);
      return true, Some(b);
    }
  }
}
