/** Where the transactions of `withZone` are weaker than its comment says, as
    runs that exist from every state of the given shape. */
module ZoneHazards {
  import opened Options
  import opened ZoneLock
  import opened StoreTables
  import opened ZoneSystem
  import opened KyberTriples
  import opened ZoneTransactions

  // -------------------------------------------- a write that nobody commits

  /** `a` alone is inside zone `z`, waiting for its top-level commit. */
  ghost predicate Committing(s: System, a: JobId, z: Zone) {
    && SystemInv(s) && s.lock.depth == 1 && s.lock.current == Some(z)
    && a in s.phase && s.phase[a] == Saving(true)
  }

  ghost predicate Reaches(s: System, es: seq<Event>, s': System) {
    ZoneSystem.IsRun(s, es) && ZoneSystem.Run(s, es) == s'
  }

  lemma ReachesOne(s: System, e: Event)
    requires ZoneSystem.CanStep(s, e)
    ensures Reaches(s, [e], ZoneSystem.Step(s, e))
  {
    assert [e][1..] == [];
  }

  lemma {:induction false} ReachesTrans(s: System, es: seq<Event>, s1: System, fs: seq<Event>, s2: System)
    requires Reaches(s, es, s1) && Reaches(s1, fs, s2)
    ensures Reaches(s, es + fs, s2)
    decreases |es|
  {
    if es == [] {
      assert es + fs == fs;
    } else {
      assert (es + fs)[1..] == es[1..] + fs && (es + fs)[0] == es[0];
      ReachesTrans(ZoneSystem.Step(s, es[0]), es[1..], s1, fs, s2);
    }
  }

  function SessionLeft(s: System, id: Id, r: Blob): System {
    s.(store := s.store.(pending := Changed(s.store.pending, PutSession(id, r))))
  }

  lemma EntersBeside(s: System, a: JobId, b: JobId, z: Zone)
    requires Committing(s, a, z) && Fresh(s.lock, b)
    ensures ZoneSystem.CanStep(s, WithZone(b, z))
    ensures var s1 := ZoneSystem.Step(s, WithZone(b, z));
            && s1.lock == s.lock.(depth := 2, inside := s.lock.inside[b := z])
            && s1.phase == s.phase[b := Body] && s1.store == s.store
  {
    assert b !in s.phase;
    var s1 := ZoneSystem.Step(s, WithZone(b, z));
    assert s1.phase.Keys == s.phase[b := Body].Keys;
  }

  /** A body that enters while another call of its zone is committing and
      resolves before that commit is answered is not at the top level, so it
      commits nothing: the system is as before, plus its write left pending. */
  lemma LateBodyIsNotCommitted(s: System, a: JobId, b: JobId, z: Zone, id: Id, r: Blob)
    requires Committing(s, a, z) && Fresh(s.lock, b) && z.keepsSessions
    ensures Reaches(s, [WithZone(b, z), Alter(b, PutSession(id, r)), EndBody(b, true)], SessionLeft(s, id, r))
  {
    var e1, e2, e3 := WithZone(b, z), Alter(b, PutSession(id, r)), EndBody(b, true);
    EntersBeside(s, a, b, z);
    var s1 := ZoneSystem.Step(s, e1);
    var s2 := ZoneSystem.Step(s1, e2);
    var s3 := ZoneSystem.Step(s2, e3);
    assert b !in s.lock.inside;
    assert s.lock.inside[b := z] - {b} == s.lock.inside;
    assert s3.lock == s.lock;
    assert s3.phase == s.phase;
    assert s3 == SessionLeft(s, id, r);
    ReachesOne(s, e1); ReachesOne(s1, e2); ReachesOne(s2, e3);
    ReachesTrans(s, [e1], s1, [e2], s2);
    assert [e1] + [e2] == [e1, e2];
    ReachesTrans(s, [e1, e2], s2, [e3], s3);
    assert [e1, e2] + [e3] == [e1, e2, e3];
  }

  /** The state once the commit of `a` has been performed and answered. */
  function CommitLanded(s: System, a: JobId, p: Pending): System
    requires s.store.sent != [] && Persisted(s.store.db, Commit(p)).Some?
  {
    s.(store := s.store.(db := Persisted(s.store.db, Commit(p)).value, cache := Acknowledged(s.store.cache, Commit(p)),
                         sent := s.store.sent[1..]),
       phase := s.phase[a := Exiting])
  }

  lemma CommitLands(s: System, a: JobId, p: Pending)
    requires a in s.phase && s.phase[a] == Saving(true)
    requires s.store.sent == [InFlight(Some(a), Commit(p))] && s.store.performed == []
    requires Persisted(s.store.db, Commit(p)).Some?
    ensures Reaches(s, [Persisting(true), Acknowledging], CommitLanded(s, a, p))
    ensures Settled(CommitLanded(s, a, p).store)
  {
    var e1, e2 := Persisting(true), Acknowledging;
    var s1 := ZoneSystem.Step(s, e1);
    assert s1.store.performed == [InFlight(Some(a), Commit(p))];
    var s2 := ZoneSystem.Step(s1, e2);
    assert s2 == CommitLanded(s, a, p);
    ReachesOne(s, e1); ReachesOne(s1, e2);
    ReachesTrans(s, [e1], s1, [e2], s2);
    assert [e1] + [e2] == [e1, e2];
  }

  /** The commit of `a` is performed, answered, and `a` releases its zone to
      the waiter `c` of another zone. */
  lemma CommitThenHandOver(s: System, a: JobId, z: Zone, p: Pending, c: Waiter)
    requires Committing(s, a, z) && s.lock.queue == [c]
    requires s.store.sent == [InFlight(Some(a), Commit(p))] && s.store.performed == []
    requires Persisted(s.store.db, Commit(p)).Some?
    ensures exists s' :: Reaches(s, [Persisting(true), Acknowledging] + [Exit(a)], s')
              && s'.store.pending == s.store.pending && Settled(s'.store)
              && s'.store.db == Persisted(s.store.db, Commit(p)).value
              && s'.lock.depth == 1 && s'.lock.current == Some(c.zone)
              && s'.phase == map[c.job := Body] && c.job in s'.lock.inside
  {
    CommitLands(s, a, p);
    var s2 := CommitLanded(s, a, p);
    var s3 := ZoneSystem.Step(s2, Exit(a));
    HandOverToOne(s, a, c);
    assert s3.phase == map[c.job := Body];
    ReachesOne(s2, Exit(a));
    ReachesTrans(s, [Persisting(true), Acknowledging], s2, [Exit(a)], s3);
  }

  lemma HandOverToOne(s: System, a: JobId, c: Waiter)
    requires SystemInv(s) && s.lock.depth == 1 && a in s.lock.inside && s.lock.queue == [c]
    ensures var l := LeaveZone(s.lock, a);
            l.inside.Keys == {c.job} && l.depth == 1 && l.current == Some(c.zone) && c.job !in s.phase
  {
    ReleaseHandsOver(s.lock, a);
    assert s.lock.queue[..1] == [c] && [c][1..] == [];
    assert s.lock.queue[0] == c;
    var l := LeaveZone(s.lock, a);
    assert l.inside.Keys == {c.job};
  }

  /** So a write whose `withZone` call resolved can be lost: the next zone
      inherits it, and discards it when its own body throws. It is neither
      readable nor stored afterwards, unless the commit itself carried it. */
  lemma ResolvedWriteCanBeLost(s: System, a: JobId, b: JobId, z: Zone, p: Pending, c: Waiter, id: Id, r: Blob)
    requires Committing(s, a, z) && Fresh(s.lock, b) && z.keepsSessions && s.lock.queue == [c]
    requires s.store.sent == [InFlight(Some(a), Commit(p))] && s.store.performed == []
    requires Persisted(s.store.db, Commit(p)).Some? && id !in s.store.db.sessions && id !in p.sessions
    ensures exists s' :: Reaches(s, [WithZone(b, z), Alter(b, PutSession(id, r)), EndBody(b, true)]
                                    + ([Persisting(true), Acknowledging] + [Exit(a)]) + [EndBody(c.job, false)], s')
              && Settled(s'.store) && id !in s'.store.db.sessions && LoadSession(s'.store, id) == None
  {
    var es := [WithZone(b, z), Alter(b, PutSession(id, r)), EndBody(b, true)];
    var fs := [Persisting(true), Acknowledging] + [Exit(a)];
    LateBodyIsNotCommitted(s, a, b, z, id, r);
    var s1 := SessionLeft(s, id, r);
    RunKeepsSystem(s, es);
    assert Committing(s1, a, z);
    CommitThenHandOver(s1, a, z, p, c);
    var s2 :| Reaches(s1, fs, s2) && Settled(s2.store) && s2.phase == map[c.job := Body]
              && s2.store.db == Persisted(s.store.db, Commit(p)).value
              && s2.lock.depth == 1 && c.job in s2.lock.inside;
    ReachesTrans(s, es, s1, fs, s2);
    RunKeepsSystem(s1, fs);
    RevertForgets(s2, c.job, id);
    ReachesTrans(s, es + fs, s2, [EndBody(c.job, false)], ZoneSystem.Step(s2, EndBody(c.job, false)));
  }

  lemma RevertForgets(s: System, job: JobId, id: Id)
    requires SystemInv(s) && Settled(s.store) && s.lock.depth == 1 && job in s.lock.inside
             && s.phase == map[job := Body]
    requires id !in s.store.db.sessions
    ensures ZoneSystem.CanStep(s, EndBody(job, false))
    ensures var s' := ZoneSystem.Step(s, EndBody(job, false));
            && Reaches(s, [EndBody(job, false)], s') && Settled(s'.store)
            && id !in s'.store.db.sessions && LoadSession(s'.store, id) == None
  {
    ReachesOne(s, EndBody(job, false));
    assert AcknowledgeAll(s.store.cache, []) == s.store.cache;
  }

  // ---------------------------------------------- a rollback that keeps a commit

  /** Rolling back is no way back to where the zone was entered. `b` enters while
      the commit of `a` is awaited; the commit lands, `a` leaves, and `b`, now
      the last, throws: the database keeps the commit, and so do all loads. */
  lemma RollbackKeepsLandedCommit(s: System, a: JobId, b: JobId, z: Zone, p: Pending, id: Id)
    requires Committing(s, a, z) && Fresh(s.lock, b)
    requires s.store.sent == [InFlight(Some(a), Commit(p))] && s.store.performed == []
    requires Persisted(s.store.db, Commit(p)).Some?
    ensures exists s' ::
              && Reaches(s, [WithZone(b, z)] + [Persisting(true), Acknowledging] + [Exit(a)] + [EndBody(b, false)], s')
              && s'.store.db == Persisted(s.store.db, Commit(p)).value && Settled(s'.store)
              && (id in p.sessions ==> LoadSession(s'.store, id) == Some(p.sessions[id]))
  {
    var e1, fs, e5 := WithZone(b, z), [Persisting(true), Acknowledging], EndBody(b, false);
    EntersBeside(s, a, b, z);
    var s1 := ZoneSystem.Step(s, e1);
    ReachesOne(s, e1);
    StepKeepsSystem(s, e1);
    CommitLands(s1, a, p);
    var s3 := CommitLanded(s1, a, p);
    ReachesTrans(s, [e1], s1, fs, s3);
    RunKeepsSystem(s1, fs);
    LeavesOther(s3, a, b);
    var s4 := ZoneSystem.Step(s3, Exit(a));
    ReachesOne(s3, Exit(a));
    ReachesTrans(s, [e1] + fs, s3, [Exit(a)], s4);
    StepKeepsSystem(s3, Exit(a));
    var s5 := ZoneSystem.Step(s4, e5);
    ReachesOne(s4, e5);
    ReachesTrans(s, [e1] + fs + [Exit(a)], s4, [e5], s5);
    StepKeepsSystem(s4, e5);
    LoadsReadOverlay(s5.store, id);
  }

  lemma LeavesOther(s: System, a: JobId, b: JobId)
    requires SystemInv(s) && s.lock.depth == 2 && a != b && a in s.phase && b in s.phase && s.phase[a] == Exiting
    ensures var s' := ZoneSystem.Step(s, Exit(a));
            s'.lock.depth == 1 && b in s'.lock.inside && b in s'.phase && s'.phase[b] == s.phase[b]
              && s'.store == s.store
  {
  }

  // ------------------------------------------------------- reached from the start

  function OneSession(id: Id, r: Blob): Pending { NOTHING.(sessions := map[id := r]) }

  /** `a` alone in its zone, in the given phase, with `queue` behind it. */
  function Alone(db: Database, a: JobId, z: Zone, queue: seq<Waiter>, phase: Phase, p: Pending,
                 sent: seq<InFlight>): System {
    System(Lock(Some(z), 1, queue, map[a := z]), Store(db, View(db), p, sent, []), map[a := phase])
  }

  lemma EntersFirst(db: Database, a: JobId, z: Zone)
    ensures Reaches(Started(db), [WithZone(a, z)], Alone(db, a, z, [], Body, NOTHING, []))
  {
    var s := Alone(db, a, z, [], Body, NOTHING, []);
    assert ZoneSystem.Step(Started(db), WithZone(a, z)).phase == s.phase;
    assert ZoneSystem.Step(Started(db), WithZone(a, z)) == s;
    ReachesOne(Started(db), WithZone(a, z));
  }

  lemma StoresSession(db: Database, a: JobId, z: Zone, id: Id, r: Blob)
    requires z.keepsSessions
    ensures Reaches(Alone(db, a, z, [], Body, NOTHING, []), [Alter(a, PutSession(id, r))],
                    Alone(db, a, z, [], Body, OneSession(id, r), []))
  {
    ReachesOne(Alone(db, a, z, [], Body, NOTHING, []), Alter(a, PutSession(id, r)));
  }

  lemma OtherQueues(db: Database, a: JobId, z: Zone, c: Waiter, p: Pending)
    requires a != c.job && c.zone != z
    ensures Reaches(Alone(db, a, z, [], Body, p, []), [WithZone(c.job, c.zone)], Alone(db, a, z, [c], Body, p, []))
  {
    var s, s' := Alone(db, a, z, [], Body, p, []), Alone(db, a, z, [c], Body, p, []);
    assert ZoneSystem.Step(s, WithZone(c.job, c.zone)).phase == s'.phase;
    assert ZoneSystem.Step(s, WithZone(c.job, c.zone)) == s';
    ReachesOne(s, WithZone(c.job, c.zone));
  }

  lemma BodyResolves(db: Database, a: JobId, z: Zone, c: Waiter, p: Pending)
    requires p != NOTHING
    ensures Reaches(Alone(db, a, z, [c], Body, p, []), [EndBody(a, true)],
                    Alone(db, a, z, [c], Saving(true), NOTHING, [InFlight(Some(a), Commit(p))]))
  {
    var s := Alone(db, a, z, [c], Body, p, []);
    assert ZoneSystem.Step(s, EndBody(a, true)).phase == map[a := Saving(true)];
    ReachesOne(s, EndBody(a, true));
  }

  /** The state in which the hazards above begin is reached from the start: a
      call stores a session and resolves while another zone waits. */
  lemma CommittingIsReachable(db: Database, a: JobId, z: Zone, c: Waiter, id: Id, r: Blob)
    requires ValidDatabase(db) && z.keepsSessions && a != c.job && c.zone != z
    ensures var p := OneSession(id, r);
            var s := Alone(db, a, z, [c], Saving(true), NOTHING, [InFlight(Some(a), Commit(p))]);
            && Reaches(Started(db), [WithZone(a, z)] + [Alter(a, PutSession(id, r))] + [WithZone(c.job, c.zone)]
                                    + [EndBody(a, true)], s)
            && Committing(s, a, z) && s.lock.queue == [c]
            && s.store.sent == [InFlight(Some(a), Commit(p))] && s.store.performed == []
            && Persisted(s.store.db, Commit(p)).Some?
  {
    var p := OneSession(id, r);
    assert id in p.sessions;
    EntersFirst(db, a, z);
    StoresSession(db, a, z, id, r);
    OtherQueues(db, a, z, c, p);
    BodyResolves(db, a, z, c, p);
    var s0, s1 := Started(db), Alone(db, a, z, [], Body, NOTHING, []);
    var s2, s3 := Alone(db, a, z, [], Body, p, []), Alone(db, a, z, [c], Body, p, []);
    var s4 := Alone(db, a, z, [c], Saving(true), NOTHING, [InFlight(Some(a), Commit(p))]);
    var es1, es2, es3 := [WithZone(a, z)], [Alter(a, PutSession(id, r))], [WithZone(c.job, c.zone)];
    ReachesTrans(s0, es1, s1, es2, s2);
    ReachesTrans(s0, es1 + es2, s2, es3, s3);
    ReachesTrans(s0, es1 + es2 + es3, s3, [EndBody(a, true)], s4);
    StartedIsSound(db);
    RunKeepsSystem(s0, es1 + es2 + es3 + [EndBody(a, true)]);
  }

  /** And there a load is stale as soon as the commit has been performed: the
      session is stored, and the load does not find it. */
  lemma StaleLoadIsReachable(db: Database, a: JobId, z: Zone, c: Waiter, id: Id, r: Blob)
    requires ValidDatabase(db) && id !in db.sessions
    ensures var p := OneSession(id, r);
            var s := Alone(db, a, z, [c], Saving(true), NOTHING, [InFlight(Some(a), Commit(p))]);
            var st := ZoneSystem.Step(s, Persisting(true)).store;
            && ZoneSystem.CanStep(s, Persisting(true))
            && Lookup(st.db.sessions, id) == Some(r) && LoadSession(st, id) == None
            && Behind(id in st.pending.sessions, Lookup(st.cache.sessions, id),
                      LastTouch(st.performed, SessionTouch(id)))
  {
    var p := OneSession(id, r);
    var w := InFlight(Some(a), Commit(p));
    var s := Alone(db, a, z, [c], Saving(true), NOTHING, [w]);
    var st := ZoneSystem.Step(s, Persisting(true)).store;
    assert p.triples.Values == {};
    assert st.performed == [w] && [w][..0] == [];
  }

  /** Two bodies in one zone, as the slip of a duplicate triple needs them. */
  lemma TwoBodiesAreReachable(db: Database, a: JobId, b: JobId, z: Zone, t: Triple)
    requires ValidDatabase(db) && a != b && !z.keepsKyber
    requires t.id in db.kyberKeys && t !in db.triples
    ensures exists s :: Reaches(Started(db), [WithZone(a, z)] + [WithZone(b, z)], s)
              && SystemInv(s) && Settled(s.store) && s.store.pending == NOTHING
              && s.phase == map[a := Body, b := Body] && s.lock.inside == map[a := z, b := z]
              && s.store.db == db && IsKeyId(t.id) && CacheKey(t) !in s.store.cache.triples
  {
    var s1 := Alone(db, a, z, [], Body, NOTHING, []);
    EntersFirst(db, a, z);
    var s2 := ZoneSystem.Step(s1, WithZone(b, z));
    assert s2.lock.inside == map[a := z, b := z];
    assert s2.phase == map[a := Body, b := Body];
    ReachesOne(s1, WithZone(b, z));
    ReachesTrans(Started(db), [WithZone(a, z)], s1, [WithZone(b, z)], s2);
    StartedIsSound(db);
    RunKeepsSystem(Started(db), [WithZone(a, z)] + [WithZone(b, z)]);
    StartKnows(db, t);
  }
}
