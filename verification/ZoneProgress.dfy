/** Who waits for what, and whether a zone can ever be released: every call
    that waits owns exactly one write in flight, a call is stuck exactly when
    the write of its top-level commit was rejected, and unless one is, the
    zone can be released. */
module ZoneProgress {
  import opened Options
  import opened ZoneLock
  import opened StoreTables
  import opened ZoneSystem

  // -------------------------------------------------- one write for each wait

  function Owned(ws: seq<InFlight>, j: JobId): nat
    decreases |ws|
  {
    if ws == [] then 0 else (if ws[0].owner == Some(j) then 1 else 0) + Owned(ws[1..], j)
  }

  lemma {:induction false} OwnedAppend(ws: seq<InFlight>, w: InFlight, j: JobId)
    ensures Owned(ws + [w], j) == Owned(ws, j) + if w.owner == Some(j) then 1 else 0
    decreases |ws|
  {
    if ws == [] {
      assert ws + [w] == [w];
    } else {
      assert (ws + [w])[1..] == ws[1..] + [w];
      OwnedAppend(ws[1..], w, j);
    }
  }

  predicate Awaits(phase: map<JobId, Phase>, j: JobId) { j in phase && phase[j].Saving? }

  /** The call has exactly one write in flight if it awaits one, and else none. */
  predicate Served(s: System, j: JobId) {
    Owned(s.store.sent, j) + Owned(s.store.performed, j) == if Awaits(s.phase, j) then 1 else 0
  }

  /** Only commits are awaited. */
  ghost predicate CommitsOwned(ws: seq<InFlight>) {
    forall k :: 0 <= k < |ws| && ws[k].owner.Some? ==> ws[k].write.Commit?
  }

  ghost predicate AllServed(s: System) {
    (forall j :: Served(s, j)) && CommitsOwned(s.store.sent) && CommitsOwned(s.store.performed)
  }

  lemma AlterServes(s: System, job: JobId, ch: Change, j: JobId)
    requires ZoneSystem.CanStep(s, Alter(job, ch)) && Served(s, j)
    ensures Served(ZoneSystem.Step(s, Alter(job, ch)), j)
  {
    OwnedAppend(s.store.sent, InFlight(Some(job), Commit(Changed(s.store.pending, ch))), j);
  }

  lemma EndBodyServes(s: System, job: JobId, ok: bool, j: JobId)
    requires SystemInv(s) && ZoneSystem.CanStep(s, EndBody(job, ok)) && Served(s, j)
    ensures Served(ZoneSystem.Step(s, EndBody(job, ok)), j)
  {
    OwnedAppend(s.store.sent, InFlight(Some(job), Commit(s.store.pending)), j);
    if s.lock.depth == 1 { OnlyOneInside(s.lock, job, job); }
  }

  /** Leaving, or entering, changes nobody's wait. */
  lemma LockServes(s: System, e: Event, j: JobId)
    requires SystemInv(s) && ZoneSystem.CanStep(s, e) && Served(s, j) && (e.WithZone? || e.Exit?)
    ensures Served(ZoneSystem.Step(s, e), j)
  {
    if e.Exit? && s.lock.depth == 1 {
      if Awaits(s.phase, j) { OnlyOneInside(s.lock, e.job, j); }
    }
  }

  lemma PersistingServes(s: System, ok: bool, j: JobId)
    requires ZoneSystem.CanStep(s, Persisting(ok)) && AllServed(s)
    ensures Served(ZoneSystem.Step(s, Persisting(ok)), j)
  {
    var w := s.store.sent[0];
    OwnedAppend(s.store.performed, w, j);
    assert Served(s, j) && (w.owner.Some? ==> Served(s, w.owner.value));
  }

  lemma AcknowledgingServes(s: System, j: JobId)
    requires ZoneSystem.CanStep(s, Acknowledging) && AllServed(s)
    ensures Served(ZoneSystem.Step(s, Acknowledging), j)
  {
    var w := s.store.performed[0];
    assert Served(s, j) && (w.owner.Some? ==> Served(s, w.owner.value));
  }

  lemma StepServesOne(s: System, e: Event, j: JobId)
    requires SystemInv(s) && ZoneSystem.CanStep(s, e) && AllServed(s)
    ensures Served(ZoneSystem.Step(s, e), j)
  {
    assert Served(s, j);
    match e {
      case Alter(job, ch) => AlterServes(s, job, ch, j);
      case EndBody(job, ok) => EndBodyServes(s, job, ok, j);
      case Persisting(ok) => PersistingServes(s, ok, j);
      case Acknowledging => AcknowledgingServes(s, j);
      case Direct(w) => OwnedAppend(s.store.sent, InFlight(None, w), j);
      case _ => LockServes(s, e, j);
    }
  }

  lemma StepOwnsCommits(s: System, e: Event)
    requires ZoneSystem.CanStep(s, e) && CommitsOwned(s.store.sent) && CommitsOwned(s.store.performed)
    ensures var s' := ZoneSystem.Step(s, e); CommitsOwned(s'.store.sent) && CommitsOwned(s'.store.performed)
  {
  }

  lemma StepServes(s: System, e: Event)
    requires SystemInv(s) && ZoneSystem.CanStep(s, e) && AllServed(s)
    ensures AllServed(ZoneSystem.Step(s, e))
  {
    forall j ensures Served(ZoneSystem.Step(s, e), j) { StepServesOne(s, e, j); }
    StepOwnsCommits(s, e);
  }

  lemma {:induction false} RunServes(s: System, es: seq<Event>)
    requires SystemInv(s) && AllServed(s) && ZoneSystem.IsRun(s, es)
    ensures AllServed(ZoneSystem.Run(s, es))
    decreases |es|
  {
    if es != [] {
      StepServes(s, es[0]);
      StepKeepsSystem(s, es[0]);
      RunServes(ZoneSystem.Step(s, es[0]), es[1..]);
    }
  }

  /** In every reachable state a waiting call has its one write in flight and
      nobody else has any: no wait is forgotten and none is answered twice. */
  lemma EveryWaitIsServed(db: Database, es: seq<Event>)
    requires ValidDatabase(db) && ZoneSystem.IsRun(Started(db), es)
    ensures AllServed(ZoneSystem.Run(Started(db), es))
  {
    StartedIsSound(db);
    RunServes(Started(db), es);
  }

  // ------------------------------------------------------------- stuck calls

  predicate IsStuck(s: System, a: JobId) { a in s.phase && s.phase[a] == Stuck }

  predicate IsTop(phase: map<JobId, Phase>, owner: Option<nat>) {
    owner.Some? && owner.value in phase && phase[owner.value] == Saving(true)
  }

  /** The step rejects the write that `a` awaits at the top level, because the
      database fails or its constraints do not allow it. */
  predicate Rejects(s: System, e: Event, a: JobId) {
    && e.Persisting? && s.store.sent != [] && s.store.sent[0].owner == Some(a) && IsTop(s.phase, Some(a))
    && !(e.ok && Persisted(s.store.db, s.store.sent[0].write).Some?)
  }

  ghost predicate RejectedInRun(s: System, es: seq<Event>, a: JobId)
    requires ZoneSystem.IsRun(s, es)
    decreases |es|
  {
    es != [] && (Rejects(s, es[0], a) || RejectedInRun(ZoneSystem.Step(s, es[0]), es[1..], a))
  }

  lemma StuckStep(s: System, e: Event, a: JobId)
    requires SystemInv(s) && ZoneSystem.CanStep(s, e)
    ensures IsStuck(ZoneSystem.Step(s, e), a) <==> IsStuck(s, a) || Rejects(s, e, a)
  {
    if (e.EndBody? || e.Exit?) && s.lock.depth == 1 && IsStuck(s, a) {
      OnlyOneInside(s.lock, a, e.job);
    }
  }

  lemma {:induction false} StuckInRun(s: System, es: seq<Event>, a: JobId)
    requires SystemInv(s) && ZoneSystem.IsRun(s, es)
    ensures IsStuck(ZoneSystem.Run(s, es), a) <==> IsStuck(s, a) || RejectedInRun(s, es, a)
    decreases |es|
  {
    if es != [] {
      StuckStep(s, es[0], a);
      StepKeepsSystem(s, es[0]);
      StuckInRun(ZoneSystem.Step(s, es[0]), es[1..], a);
    }
  }

  /** In every run a call is stuck if and only if the write of its top-level
      commit was rejected: `withZone` catches what its body throws, and not
      what that commit does. */
  lemma StuckExactlyWhen(db: Database, es: seq<Event>, a: JobId)
    requires ValidDatabase(db) && ZoneSystem.IsRun(Started(db), es)
    ensures IsStuck(ZoneSystem.Run(Started(db), es), a) <==> RejectedInRun(Started(db), es, a)
  {
    StartedIsSound(db);
    StuckInRun(Started(db), es, a);
  }

  lemma StuckHoldsZone(s: System, e: Event, a: JobId)
    requires SystemInv(s) && IsStuck(s, a) && ZoneSystem.CanStep(s, e)
    ensures var s' := ZoneSystem.Step(s, e);
            && !IsRelease(s, e) && IsStuck(s', a)
            && s'.lock.current == s.lock.current && s.lock.queue <= s'.lock.queue
  {
    StuckStep(s, e, a);
    if (e.EndBody? || e.Exit?) && s.lock.depth == 1 { OnlyOneInside(s.lock, a, e.job); }
  }

  /** And then its zone is never released: in every continuation the waiters
      ahead stay queued, in order, for ever. */
  lemma {:induction false} StuckForever(s: System, es: seq<Event>, a: JobId)
    requires SystemInv(s) && IsStuck(s, a) && ZoneSystem.IsRun(s, es)
    ensures var s' := ZoneSystem.Run(s, es);
            && !ReleasedIn(s, es) && IsStuck(s', a)
            && s'.lock.current == s.lock.current && s.lock.queue <= s'.lock.queue
    decreases |es|
  {
    if es != [] {
      StuckHoldsZone(s, es[0], a);
      StepKeepsSystem(s, es[0]);
      StuckForever(ZoneSystem.Step(s, es[0]), es[1..], a);
    }
  }

  // --------------------------------------------------------------- progress

  predicate IsRelease(s: System, e: Event) { e.Exit? && s.lock.depth == 1 }

  ghost predicate ReleasedIn(s: System, es: seq<Event>)
    requires ZoneSystem.IsRun(s, es)
    decreases |es|
  {
    es != [] && (IsRelease(s, es[0]) || ReleasedIn(ZoneSystem.Step(s, es[0]), es[1..]))
  }

  /** Performed in order, with some choice of which of them fail, the writes
      leave the database accepting every one that a call awaits at the top
      level. */
  predicate TopWritesCanLand(db: Database, ws: seq<InFlight>, phase: map<JobId, Phase>)
    decreases |ws|
  {
    ws != [] ==>
      var r := Persisted(db, ws[0].write);
      || (r.Some? && TopWritesCanLand(r.value, ws[1..], phase))
      || (!IsTop(phase, ws[0].owner) && TopWritesCanLand(db, ws[1..], phase))
  }

  /** Where a call may have got to once what it awaited was answered. */
  predicate Onward(p: Phase, p': Phase) {
    p' == p || (p == Saving(true) && p' == Exiting) || (p == Saving(false) && p' == Body)
  }

  ghost predicate OnwardAll(phase: map<JobId, Phase>, phase': map<JobId, Phase>) {
    phase'.Keys == phase.Keys && forall j :: j in phase ==> Onward(phase[j], phase'[j])
  }

  /** Only the awaited writes among them matter. */
  lemma {:induction false} SameTopWrites(db: Database, ws: seq<InFlight>, phase: map<JobId, Phase>,
                                         phase': map<JobId, Phase>)
    requires TopWritesCanLand(db, ws, phase)
    requires forall k :: 0 <= k < |ws| && IsTop(phase', ws[k].owner) ==> IsTop(phase, ws[k].owner)
    ensures TopWritesCanLand(db, ws, phase')
    decreases |ws|
  {
    if ws != [] {
      var r := Persisted(db, ws[0].write);
      assert forall k :: 0 <= k < |ws[1..]| ==> ws[1..][k] == ws[k + 1];
      if r.Some? && TopWritesCanLand(r.value, ws[1..], phase) { SameTopWrites(r.value, ws[1..], phase, phase'); }
      else { SameTopWrites(db, ws[1..], phase, phase'); }
    }
  }

  predicate IsSettling(e: Event) { e.Persisting? || e.Acknowledging? }

  /** What performing and answering writes leave of a state. */
  ghost predicate SettledFrom(s: System, s': System) { s'.lock == s.lock && OnwardAll(s.phase, s'.phase) }

  ghost predicate Drainable(s: System) {
    SystemInv(s) && AllServed(s) && TopWritesCanLand(s.store.db, s.store.sent, s.phase)
  }

  /** Whether the next write is to succeed. */
  predicate LetSucceed(s: System)
    requires s.store.sent != []
  {
    var r := Persisted(s.store.db, s.store.sent[0].write);
    r.Some? && TopWritesCanLand(r.value, s.store.sent[1..], s.phase)
  }

  lemma PersistingSettles(s: System)
    requires s.store.sent != [] && TopWritesCanLand(s.store.db, s.store.sent, s.phase)
    ensures var s' := ZoneSystem.Step(s, Persisting(LetSucceed(s)));
            SettledFrom(s, s') && TopWritesCanLand(s'.store.db, s'.store.sent, s'.phase)
  {
    var s' := ZoneSystem.Step(s, Persisting(LetSucceed(s)));
    assert OnwardAll(s.phase, s'.phase);
    SameTopWrites(s'.store.db, s'.store.sent, s.phase, s'.phase);
  }

  lemma AcknowledgingSettles(s: System)
    requires s.store.performed != [] && TopWritesCanLand(s.store.db, s.store.sent, s.phase)
    ensures var s' := ZoneSystem.Step(s, Acknowledging);
            SettledFrom(s, s') && TopWritesCanLand(s'.store.db, s'.store.sent, s'.phase)
  {
    var s' := ZoneSystem.Step(s, Acknowledging);
    assert OnwardAll(s.phase, s'.phase);
    SameTopWrites(s'.store.db, s'.store.sent, s.phase, s'.phase);
  }

  function InFlightLeft(st: Store): nat { 2 * |st.sent| + |st.performed| }

  /** One write is performed or answered. */
  lemma DrainOne(s: System) returns (e: Event)
    requires Drainable(s) && !Settled(s.store)
    ensures ZoneSystem.CanStep(s, e) && IsSettling(e)
    ensures var s' := ZoneSystem.Step(s, e);
            Drainable(s') && SettledFrom(s, s') && InFlightLeft(s'.store) < InFlightLeft(s.store)
  {
    if s.store.sent != [] {
      e := Persisting(LetSucceed(s));
      PersistingSettles(s);
    } else {
      e := Acknowledging;
      AcknowledgingSettles(s);
    }
    StepKeepsSystem(s, e);
    StepServes(s, e);
  }

  lemma SettledTrans(a: System, b: System, c: System)
    requires SettledFrom(a, b) && SettledFrom(b, c)
    ensures SettledFrom(a, c)
  {
  }

  lemma NobodyAwaits(s: System)
    requires AllServed(s) && Settled(s.store)
    ensures forall j :: j in s.phase ==> !s.phase[j].Saving?
  {
    forall j | j in s.phase ensures !s.phase[j].Saving? { assert Served(s, j); }
  }

  lemma Prepend(s: System, e: Event, es: seq<Event>)
    requires ZoneSystem.CanStep(s, e) && ZoneSystem.IsRun(ZoneSystem.Step(s, e), es)
    ensures ZoneSystem.IsRun(s, [e] + es)
    ensures ZoneSystem.Run(s, [e] + es) == ZoneSystem.Run(ZoneSystem.Step(s, e), es)
    ensures ReleasedIn(s, [e] + es) <==> IsRelease(s, e) || ReleasedIn(ZoneSystem.Step(s, e), es)
  {
    assert ([e] + es)[1..] == es;
  }

  /** Everything in flight is performed and answered, and nobody waits. */
  lemma {:induction false} Drain(s: System) returns (es: seq<Event>)
    requires Drainable(s)
    ensures ZoneSystem.IsRun(s, es) && forall k :: 0 <= k < |es| ==> IsSettling(es[k])
    ensures var s' := ZoneSystem.Run(s, es);
            Drainable(s') && SettledFrom(s, s') && Settled(s'.store)
    decreases InFlightLeft(s.store)
  {
    if Settled(s.store) { return []; }
    var e := DrainOne(s);
    var s1 := ZoneSystem.Step(s, e);
    var rest := Drain(s1);
    es := [e] + rest;
    Prepend(s, e, rest);
    SettledTrans(s, s1, ZoneSystem.Run(s1, rest));
  }

  /** Calls that all run or leave can all leave: a body that throws at the top
      level awaits nothing. */
  lemma {:induction false} WindDown(s: System) returns (es: seq<Event>)
    requires SystemInv(s) && s.lock.depth > 0
    requires forall j :: j in s.phase ==> s.phase[j] == Body || s.phase[j] == Exiting
    ensures ZoneSystem.IsRun(s, es) && ReleasedIn(s, es)
    decreases s.lock.depth, if exists j :: j in s.phase && s.phase[j] == Body then 1 else 0
  {
    assert s.phase.Keys == s.lock.inside.Keys && |s.lock.inside.Keys| > 0;
    var j :| j in s.phase;
    var e := if s.phase[j] == Exiting then Exit(j) else EndBody(j, false);
    if s.lock.depth == 1 && s.phase[j] == Exiting {
      Prepend(s, e, []);
      return [e] + [];
    }
    var s1 := ZoneSystem.Step(s, e);
    StepKeepsSystem(s, e);
    if s.lock.depth == 1 {
      forall i | i in s.phase ensures i == j { OnlyOneInside(s.lock, i, j); }
    }
    var rest := WindDown(s1);
    es := [e] + rest;
    Prepend(s, e, rest);
  }

  lemma {:induction false} RunConcat(s: System, es: seq<Event>, fs: seq<Event>)
    requires ZoneSystem.IsRun(s, es) && ZoneSystem.IsRun(ZoneSystem.Run(s, es), fs)
    ensures ZoneSystem.IsRun(s, es + fs)
    ensures ZoneSystem.Run(s, es + fs) == ZoneSystem.Run(ZoneSystem.Run(s, es), fs)
    ensures ReleasedIn(ZoneSystem.Run(s, es), fs) ==> ReleasedIn(s, es + fs)
    decreases |es|
  {
    if es == [] {
      assert es + fs == fs;
    } else {
      assert (es + fs)[1..] == es[1..] + fs;
      RunConcat(ZoneSystem.Step(s, es[0]), es[1..], fs);
    }
  }

  lemma ReleaseUnlessStuck(s: System) returns (es: seq<Event>)
    requires Drainable(s) && s.lock.depth > 0 && forall a :: !IsStuck(s, a)
    ensures ZoneSystem.IsRun(s, es) && ReleasedIn(s, es)
  {
    var fs := Drain(s);
    var s1 := ZoneSystem.Run(s, fs);
    NobodyAwaits(s1);
    forall j | j in s1.phase ensures s1.phase[j] == Body || s1.phase[j] == Exiting { assert !IsStuck(s, j); }
    var gs := WindDown(s1);
    RunConcat(s, fs, gs);
    es := fs + gs;
  }

  /** Some continuation releases the zone. */
  ghost predicate Releasable(s: System) { exists fs :: ZoneSystem.IsRun(s, fs) && ReleasedIn(s, fs) }

  // ---------------------------------------------------------- no way forward

  lemma {:induction false} FewerTopWrites(db: Database, ws: seq<InFlight>, w: InFlight, phase: map<JobId, Phase>)
    requires TopWritesCanLand(db, ws + [w], phase)
    ensures TopWritesCanLand(db, ws, phase)
    decreases |ws|
  {
    if ws != [] {
      var r := Persisted(db, ws[0].write);
      assert (ws + [w])[1..] == ws[1..] + [w];
      if r.Some? && TopWritesCanLand(r.value, ws[1..] + [w], phase) { FewerTopWrites(r.value, ws[1..], w, phase); }
      else { FewerTopWrites(db, ws[1..], w, phase); }
    }
  }

  lemma {:induction false} NoTopWrites(db: Database, ws: seq<InFlight>, phase: map<JobId, Phase>)
    requires forall j :: j in phase ==> phase[j] != Saving(true)
    ensures TopWritesCanLand(db, ws, phase)
    decreases |ws|
  {
    if ws != [] { NoTopWrites(db, ws[1..], phase); }
  }

  /** A call is stuck, or some awaited top-level write can no longer land. */
  ghost predicate Blocked(s: System) {
    (exists a :: IsStuck(s, a)) || !TopWritesCanLand(s.store.db, s.store.sent, s.phase)
  }

  lemma PersistingStaysBlocked(s: System, ok: bool)
    requires SystemInv(s) && ZoneSystem.CanStep(s, Persisting(ok))
    requires !TopWritesCanLand(s.store.db, s.store.sent, s.phase)
    ensures Blocked(ZoneSystem.Step(s, Persisting(ok)))
  {
    var s', w := ZoneSystem.Step(s, Persisting(ok)), s.store.sent[0];
    if ok && Persisted(s.store.db, w.write).Some? {
      assert s'.phase == s.phase;
    } else if IsTop(s.phase, w.owner) {
      assert IsStuck(s', w.owner.value);
    } else if TopWritesCanLand(s'.store.db, s'.store.sent, s'.phase) {
      SameTopWrites(s'.store.db, s'.store.sent, s'.phase, s.phase);
    }
  }

  lemma {:induction false} OwnedIfThere(ws: seq<InFlight>, k: nat)
    requires k < |ws| && ws[k].owner.Some?
    ensures Owned(ws, ws[k].owner.value) > 0
    decreases |ws|
  {
    if k > 0 { OwnedIfThere(ws[1..], k - 1); }
  }

  lemma AcknowledgingStaysBlocked(s: System)
    requires AllServed(s) && ZoneSystem.CanStep(s, Acknowledging)
    requires !TopWritesCanLand(s.store.db, s.store.sent, s.phase)
    ensures Blocked(ZoneSystem.Step(s, Acknowledging))
  {
    var s', w := ZoneSystem.Step(s, Acknowledging), s.store.performed[0];
    if TopWritesCanLand(s'.store.db, s'.store.sent, s'.phase) {
      forall k | 0 <= k < |s.store.sent| && IsTop(s.phase, s.store.sent[k].owner)
        ensures IsTop(s'.phase, s.store.sent[k].owner)
      {
        OwnedIfThere(s.store.sent, k);
        assert Served(s, s.store.sent[k].owner.value);
      }
      SameTopWrites(s.store.db, s.store.sent, s'.phase, s.phase);
    }
  }

  /** A step that only adds to what is sent and touches no waiting call. */
  lemma SendingStaysBlocked(s: System, s': System)
    requires !TopWritesCanLand(s.store.db, s.store.sent, s.phase) && s'.store.db == s.store.db
    requires s'.store.sent == s.store.sent
             || (s'.store.sent != [] && s'.store.sent[..|s'.store.sent| - 1] == s.store.sent)
    requires forall j :: j in s.phase && s.phase[j] == Saving(true) ==> j in s'.phase && s'.phase[j] == Saving(true)
    ensures Blocked(s')
  {
    if TopWritesCanLand(s'.store.db, s'.store.sent, s'.phase) {
      SameTopWrites(s'.store.db, s'.store.sent, s'.phase, s.phase);
      if s'.store.sent != s.store.sent {
        var w := s'.store.sent[|s'.store.sent| - 1];
        assert s'.store.sent == s.store.sent + [w];
        FewerTopWrites(s.store.db, s.store.sent, w, s.phase);
      }
    }
  }

  /** With one call inside and that one not waiting, nothing is awaited. */
  lemma AloneCanLand(s: System, job: JobId)
    requires SystemInv(s) && s.lock.depth == 1 && job in s.phase && s.phase[job] != Saving(true)
    ensures TopWritesCanLand(s.store.db, s.store.sent, s.phase)
  {
    forall j | j in s.phase ensures s.phase[j] != Saving(true) { OnlyOneInside(s.lock, job, j); }
    NoTopWrites(s.store.db, s.store.sent, s.phase);
  }

  lemma BlockedStep(s: System, e: Event)
    requires SystemInv(s) && AllServed(s) && Blocked(s) && ZoneSystem.CanStep(s, e)
    ensures !IsRelease(s, e) && Blocked(ZoneSystem.Step(s, e))
  {
    var s' := ZoneSystem.Step(s, e);
    if a :| IsStuck(s, a) {
      StuckHoldsZone(s, e, a);
    } else {
      match e {
        case Persisting(ok) => PersistingStaysBlocked(s, ok);
        case Acknowledging => AcknowledgingStaysBlocked(s);
        case Exit(job) =>
          if s.lock.depth == 1 { AloneCanLand(s, job); }
          SendingStaysBlocked(s, s');
        case EndBody(job, _) =>
          if s.lock.depth == 1 { AloneCanLand(s, job); }
          SendingStaysBlocked(s, s');
        case _ => SendingStaysBlocked(s, s');
      }
    }
  }

  lemma {:induction false} BlockedForever(s: System, es: seq<Event>)
    requires SystemInv(s) && AllServed(s) && Blocked(s) && ZoneSystem.IsRun(s, es)
    ensures !ReleasedIn(s, es)
    decreases |es|
  {
    if es != [] {
      BlockedStep(s, es[0]);
      StepKeepsSystem(s, es[0]);
      StepServes(s, es[0]);
      BlockedForever(ZoneSystem.Step(s, es[0]), es[1..]);
    }
  }

  /** In every reachable state in which a zone is held, some continuation
      releases it if and only if no call is stuck and, for some choice of which
      writes in flight fail, every one awaited at the top level lands. */
  lemma ReleasableExactlyWhen(db: Database, es: seq<Event>)
    requires ValidDatabase(db) && ZoneSystem.IsRun(Started(db), es)
    requires ZoneSystem.Run(Started(db), es).lock.depth > 0
    ensures var s := ZoneSystem.Run(Started(db), es);
            Releasable(s) <==>
            (forall a :: !IsStuck(s, a)) && TopWritesCanLand(s.store.db, s.store.sent, s.phase)
  {
    var s := ZoneSystem.Run(Started(db), es);
    StartedIsSound(db);
    RunKeepsSystem(Started(db), es);
    EveryWaitIsServed(db, es);
    if Blocked(s) {
      forall fs | ZoneSystem.IsRun(s, fs) ensures !ReleasedIn(s, fs) { BlockedForever(s, fs); }
    } else {
      var fs := ReleaseUnlessStuck(s);
    }
  }
}
