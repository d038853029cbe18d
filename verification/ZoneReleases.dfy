/** What is left pending when a zone is released: nothing, unless a body ended
    below the top level with nobody left to commit its changes. */
module ZoneReleases {
  import opened Options
  import opened ZoneLock
  import opened StoreTables
  import opened ZoneSystem
  import opened ZoneProgress
  import opened ZoneTransactions

  // ------------------------------------------------------- what will remain

  predicate AnyTop(ws: seq<InFlight>, phase: map<JobId, Phase>)
    decreases |ws|
  {
    ws != [] && (IsTop(phase, ws[0].owner) || AnyTop(ws[1..], phase))
  }

  /** The sessions whose removal is performed and has to be answered before the
      last awaited commit can be; `after` says that one is still to be
      performed. */
  function Doomed(ws: seq<InFlight>, phase: map<JobId, Phase>, after: bool): set<Id>
    decreases |ws|
  {
    if ws == [] then {}
    else
      (if ws[0].write.DropSession? && (after || AnyTop(ws[1..], phase)) then {ws[0].write.sessionId} else {})
      + Doomed(ws[1..], phase, after)
  }

  /** What is pending, less the sessions that are doomed. */
  function Remaining(s: System): Pending {
    var doomed := Doomed(s.store.performed, s.phase, AnyTop(s.store.sent, s.phase));
    s.store.pending.(sessions := s.store.pending.sessions - doomed)
  }

  ghost predicate SameTops(ws: seq<InFlight>, phase: map<JobId, Phase>, phase': map<JobId, Phase>) {
    forall k :: 0 <= k < |ws| ==> (IsTop(phase, ws[k].owner) <==> IsTop(phase', ws[k].owner))
  }

  lemma {:induction false} SameDoomed(ws: seq<InFlight>, phase: map<JobId, Phase>, phase': map<JobId, Phase>,
                                      after: bool)
    requires SameTops(ws, phase, phase')
    ensures AnyTop(ws, phase) == AnyTop(ws, phase')
    ensures Doomed(ws, phase, after) == Doomed(ws, phase', after)
    decreases |ws|
  {
    if ws != [] {
      assert forall k :: 0 <= k < |ws[1..]| ==> ws[1..][k] == ws[k + 1];
      SameDoomed(ws[1..], phase, phase', after);
    }
  }

  lemma {:induction false} AnyTopAppend(ws: seq<InFlight>, w: InFlight, phase: map<JobId, Phase>)
    ensures AnyTop(ws + [w], phase) == (AnyTop(ws, phase) || IsTop(phase, w.owner))
    decreases |ws|
  {
    if ws == [] {
      assert ws + [w] == [w] && [w][1..] == [];
    } else {
      assert (ws + [w])[1..] == ws[1..] + [w];
      AnyTopAppend(ws[1..], w, phase);
    }
  }

  lemma {:induction false} DoomedAppend(ws: seq<InFlight>, w: InFlight, phase: map<JobId, Phase>, after: bool)
    ensures Doomed(ws + [w], phase, after)
            == Doomed(ws, phase, after || IsTop(phase, w.owner))
               + if w.write.DropSession? && after then {w.write.sessionId} else {}
    decreases |ws|
  {
    if ws == [] {
      assert ws + [w] == [w] && [w][1..] == [];
    } else {
      assert (ws + [w])[1..] == ws[1..] + [w];
      AnyTopAppend(ws[1..], w, phase);
      DoomedAppend(ws[1..], w, phase, after);
    }
  }

  lemma {:induction false} NoTopNoDoom(ws: seq<InFlight>, phase: map<JobId, Phase>)
    requires !AnyTop(ws, phase)
    ensures Doomed(ws, phase, false) == {}
    decreases |ws|
  {
    if ws != [] { NoTopNoDoom(ws[1..], phase); }
  }

  lemma {:induction false} TopIsAmong(ws: seq<InFlight>, phase: map<JobId, Phase>, j: JobId)
    requires IsTop(phase, Some(j)) && Owned(ws, j) > 0
    ensures AnyTop(ws, phase)
    decreases |ws|
  {
    if ws[0].owner != Some(j) { TopIsAmong(ws[1..], phase, j); }
  }

  // ------------------------------------------------- what the steps make of it

  lemma PersistingRemains(s: System, ok: bool)
    requires ZoneSystem.CanStep(s, Persisting(ok))
    requires var w := s.store.sent[0];
             IsTop(s.phase, w.owner) ==> ok && Persisted(s.store.db, w.write).Some?
    ensures var s' := ZoneSystem.Step(s, Persisting(ok));
            && s'.store.pending == s.store.pending && Remaining(s').sessions.Keys <= Remaining(s).sessions.Keys
            && (!(ok && s.store.sent[0].write.DropSession?) ==> Remaining(s') == Remaining(s))
  {
    var s', w, rest := ZoneSystem.Step(s, Persisting(ok)), s.store.sent[0], s.store.sent[1..];
    if ok && Persisted(s.store.db, w.write).Some? {
      DoomedAppend(s.store.performed, w, s.phase, AnyTop(rest, s.phase));
    } else {
      SameDoomed(s.store.performed, s.phase, s'.phase, AnyTop(rest, s.phase));
      SameDoomed(rest, s.phase, s'.phase, false);
    }
  }

  /** Of the writes in flight only the first performed is the owner's. */
  lemma OthersKeepTheirTops(s: System, ws: seq<InFlight>)
    requires AllServed(s) && s.store.performed != []
    requires ws == s.store.performed[1..] || ws == s.store.sent
    ensures SameTops(ws, s.phase, ZoneSystem.Step(s, Acknowledging).phase)
  {
    var w := s.store.performed[0];
    forall k | 0 <= k < |ws| && w.owner.Some? && Awaits(s.phase, w.owner.value) ensures ws[k].owner != w.owner {
      assert Served(s, w.owner.value);
      if ws[k].owner == w.owner { OwnedIfThere(ws, k); }
    }
    forall k | 0 <= k < |ws|
      ensures IsTop(s.phase, ws[k].owner) <==> IsTop(ZoneSystem.Step(s, Acknowledging).phase, ws[k].owner)
    {
    }
  }

  lemma AcknowledgingRemains(s: System)
    requires AllServed(s) && s.store.performed != []
    ensures var s' := ZoneSystem.Step(s, Acknowledging);
            && s'.store.pending == s.store.pending.(sessions := s'.store.pending.sessions)
            && Remaining(s').sessions.Keys <= Remaining(s).sessions.Keys
            && (AnyTop(s.store.performed, s.phase) ==> Remaining(s') == Remaining(s))
  {
    var s', w, rest := ZoneSystem.Step(s, Acknowledging), s.store.performed[0], s.store.performed[1..];
    var after := AnyTop(s.store.sent, s.phase);
    OthersKeepTheirTops(s, rest);
    OthersKeepTheirTops(s, s.store.sent);
    SameDoomed(rest, s.phase, s'.phase, after);
    SameDoomed(s.store.sent, s.phase, s'.phase, after);
    if AnyTop(s.store.performed, s.phase) {
      assert w.write.DropSession? ==> w.owner.None? && AnyTop(rest, s.phase);
      assert Remaining(s').sessions == Remaining(s).sessions;
    }
  }

  /** Calls coming and going without waiting. */
  lemma LockRemains(s: System, s': System)
    requires s'.store.pending == s.store.pending && s'.store.performed == s.store.performed
    requires s'.store.sent == s.store.sent
             || (s'.store.sent != [] && s'.store.sent[|s'.store.sent| - 1].owner.None?
                 && s'.store.sent[..|s'.store.sent| - 1] == s.store.sent)
    requires forall j :: IsTop(s.phase, Some(j)) <==> IsTop(s'.phase, Some(j))
    ensures Remaining(s') == Remaining(s)
  {
    SameDoomed(s.store.performed, s.phase, s'.phase, AnyTop(s.store.sent, s.phase));
    SameDoomed(s.store.sent, s.phase, s'.phase, false);
    if s'.store.sent != s.store.sent {
      var w := s'.store.sent[|s'.store.sent| - 1];
      assert s'.store.sent == s.store.sent + [w];
      AnyTopAppend(s.store.sent, w, s'.phase);
    }
  }

  // --------------------------------------------------------- clean releases

  /** Past the end of its body. */
  predicate Finishing(p: Phase) { p == Saving(true) || p == Exiting || p == Stuck }

  ghost predicate AllFinishing(phase: map<JobId, Phase>) {
    phase != map[] && forall j :: j in phase ==> Finishing(phase[j])
  }

  /** A body ends below the top level although every other call is past its own
      body, and a change will remain pending that nobody is left to commit. */
  ghost predicate Abandons(s: System, e: Event) {
    && e.EndBody? && s.lock.depth != 1 && !NothingButTriples(Remaining(s))
    && forall j :: j in s.phase && j != e.job ==> Finishing(s.phase[j])
  }

  ghost predicate NothingAbandoned(s: System, es: seq<Event>)
    requires ZoneSystem.IsRun(s, es)
    decreases |es|
  {
    es == [] || (!Abandons(s, es[0]) && NothingAbandoned(ZoneSystem.Step(s, es[0]), es[1..]))
  }

  ghost predicate NoneStuck(s: System) { forall a :: !IsStuck(s, a) }

  /** When no body is running in a zone that can still be released, nothing will
      remain pending. */
  ghost predicate Tidy(s: System) { AllFinishing(s.phase) && NoneStuck(s) ==> NothingButTriples(Remaining(s)) }

  lemma LeaverIsOut(l: Lock, job: JobId)
    requires Inv(l) && job in l.inside && l.depth == 1
    ensures l.inside.Keys !! LeaveZone(l, job).inside.Keys
  {
    ReleaseHandsOver(l, job);
    var ws := l.queue[..LeadingRun(l.queue)];
    forall j | j in Jobs(ws) ensures j !in l.inside { JobsHasOnly(ws, j); }
  }

  lemma NothingIsNothing(s: System)
    requires NothingButTriples(s.store.pending)
    ensures NothingButTriples(Remaining(s))
  {
  }

  lemma LessIsClean(p: Pending, p': Pending)
    requires NothingButTriples(p) && p' == p.(sessions := p'.sessions) && p'.sessions.Keys <= p.sessions.Keys
    ensures NothingButTriples(p')
  {
    assert p'.sessions == map[];
  }

  lemma EndBodyKeepsTidy(s: System, job: JobId, ok: bool)
    requires SystemInv(s) && ZoneSystem.CanStep(s, EndBody(job, ok)) && !Abandons(s, EndBody(job, ok))
    ensures Tidy(ZoneSystem.Step(s, EndBody(job, ok)))
  {
    var s' := ZoneSystem.Step(s, EndBody(job, ok));
    if s.lock.depth == 1 {
      NothingIsNothing(s');
    } else if AllFinishing(s'.phase) {
      LockRemains(s, s');
      forall j | j in s.phase && j != job ensures Finishing(s.phase[j]) { assert j in s'.phase; }
    }
  }

  lemma ExitKeepsTidy(s: System, job: JobId)
    requires SystemInv(s) && Tidy(s) && ZoneSystem.CanStep(s, Exit(job))
    ensures Tidy(ZoneSystem.Step(s, Exit(job)))
  {
    var s' := ZoneSystem.Step(s, Exit(job));
    if s.lock.depth == 1 {
      LeaverIsOut(s.lock, job);
      if j :| j in s'.phase { assert s'.phase[j] == Body; }
    } else if AllFinishing(s'.phase) && NoneStuck(s') {
      LockRemains(s, s');
      forall j | j in s.phase ensures Finishing(s.phase[j]) && !IsStuck(s, j) {
        assert j != job ==> j in s'.phase && !IsStuck(s', j);
      }
    }
  }

  lemma CallKeepsTidy(s: System, job: JobId, zone: Zone)
    requires SystemInv(s) && Tidy(s) && ZoneSystem.CanStep(s, WithZone(job, zone))
    ensures Tidy(ZoneSystem.Step(s, WithZone(job, zone)))
  {
    var s' := ZoneSystem.Step(s, WithZone(job, zone));
    if job in s'.lock.inside {
      assert s'.phase[job] == Body;
    } else {
      assert s'.phase == s.phase;
      LockRemains(s, s');
      forall a ensures IsStuck(s, a) == IsStuck(s', a) {}
    }
  }

  lemma ResumeKeepsFinishing(s: System, e: Event)
    requires SystemInv(s) && ZoneSystem.CanStep(s, e) && IsSettling(e)
    requires var s' := ZoneSystem.Step(s, e); AllFinishing(s'.phase) && NoneStuck(s')
    ensures AllFinishing(s.phase) && NoneStuck(s)
  {
    var s' := ZoneSystem.Step(s, e);
    forall j | j in s.phase ensures Finishing(s.phase[j]) { assert j in s'.phase; }
    forall a ensures !IsStuck(s, a) {
      StuckStep(s, e, a);
      assert !IsStuck(s', a);
    }
  }

  lemma SettlingKeepsTidy(s: System, e: Event)
    requires SystemInv(s) && AllServed(s) && Tidy(s) && ZoneSystem.CanStep(s, e) && IsSettling(e)
    ensures Tidy(ZoneSystem.Step(s, e))
  {
    var s' := ZoneSystem.Step(s, e);
    if AllFinishing(s'.phase) && NoneStuck(s') {
      ResumeKeepsFinishing(s, e);
      if e.Persisting? {
        var w := s.store.sent[0];
        if IsTop(s.phase, w.owner) {
          StuckStep(s, e, w.owner.value);
          assert !IsStuck(s', w.owner.value);
        }
        PersistingRemains(s, e.ok);
      } else {
        AcknowledgingRemains(s);
      }
      LessIsClean(Remaining(s), Remaining(s'));
    }
  }

  lemma StepKeepsTidy(s: System, e: Event)
    requires SystemInv(s) && AllServed(s) && Tidy(s) && ZoneSystem.CanStep(s, e) && !Abandons(s, e)
    ensures Tidy(ZoneSystem.Step(s, e))
  {
    match e {
      case WithZone(job, zone) => CallKeepsTidy(s, job, zone);
      case Alter(job, _) => assert job in ZoneSystem.Step(s, e).phase;
      case EndBody(job, ok) => EndBodyKeepsTidy(s, job, ok);
      case Exit(job) => ExitKeepsTidy(s, job);
      case Direct(_) =>
        var s' := ZoneSystem.Step(s, e);
        LockRemains(s, s');
        forall a ensures IsStuck(s, a) == IsStuck(s', a) {}
      case _ => SettlingKeepsTidy(s, e);
    }
  }

  ghost predicate AllReleasesClean(s: System, es: seq<Event>)
    requires ZoneSystem.IsRun(s, es)
    decreases |es|
  {
    es != [] ==>
      && (ZoneProgress.IsRelease(s, es[0]) ==> NothingButTriples(ZoneSystem.Step(s, es[0]).store.pending))
      && AllReleasesClean(ZoneSystem.Step(s, es[0]), es[1..])
  }

  /** The last call out waits for nothing, so all that is pending remains. */
  lemma TidyRelease(s: System, e: Event)
    requires SystemInv(s) && AllServed(s) && Tidy(s) && ZoneSystem.CanStep(s, e) && ZoneProgress.IsRelease(s, e)
    ensures NothingButTriples(s.store.pending)
  {
    forall j | j in s.phase ensures s.phase[j] == Exiting { OnlyOneInside(s.lock, e.job, j); }
    assert forall a :: !IsStuck(s, a);
    AllRemains(s);
  }

  lemma AllRemains(s: System)
    requires forall j :: j in s.phase ==> s.phase[j] != Saving(true)
    ensures Remaining(s) == s.store.pending
  {
    NoneIsTop(s.store.sent, s.phase);
    NoneIsTop(s.store.performed, s.phase);
    NoTopNoDoom(s.store.performed, s.phase);
  }

  lemma {:induction false} NoneIsTop(ws: seq<InFlight>, phase: map<JobId, Phase>)
    requires forall j :: j in phase ==> phase[j] != Saving(true)
    ensures !AnyTop(ws, phase)
    decreases |ws|
  {
    if ws != [] { NoneIsTop(ws[1..], phase); }
  }

  lemma {:induction false} TidyRunReleasesClean(s: System, es: seq<Event>)
    requires SystemInv(s) && AllServed(s) && Tidy(s) && ZoneSystem.IsRun(s, es) && NothingAbandoned(s, es)
    ensures AllReleasesClean(s, es)
    decreases |es|
  {
    if es != [] {
      if ZoneProgress.IsRelease(s, es[0]) { TidyRelease(s, es[0]); }
      StepKeepsTidy(s, es[0]);
      StepKeepsSystem(s, es[0]);
      StepServes(s, es[0]);
      TidyRunReleasesClean(ZoneSystem.Step(s, es[0]), es[1..]);
    }
  }

  /** As long as nothing is abandoned, no zone is ever released with a change
      left behind for the next one. */
  lemma ReleasesAreClean(db: Database, es: seq<Event>)
    requires ValidDatabase(db) && ZoneSystem.IsRun(Started(db), es) && NothingAbandoned(Started(db), es)
    ensures AllReleasesClean(Started(db), es)
  {
    StartedIsSound(db);
    TidyRunReleasesClean(Started(db), es);
  }

  // ------------------------------------------------------------ left behind

  ghost predicate AllExiting(s: System) {
    s.phase != map[] && forall j :: j in s.phase ==> s.phase[j] == Exiting
  }

  /** Calls that are all on their way out take the zone with them, and what is
      pending stays behind. */
  lemma {:induction false} DirtyRelease(s: System) returns (es: seq<Event>)
    requires SystemInv(s) && AllExiting(s) && !NothingButTriples(s.store.pending)
    ensures WindsUp(es) && ZoneSystem.IsRun(s, es) && !AllReleasesClean(s, es)
    decreases s.lock.depth
  {
    var j :| j in s.phase;
    var s' := ZoneSystem.Step(s, Exit(j));
    assert [Exit(j)][1..] == [];
    if s.lock.depth == 1 { return [Exit(j)]; }
    StepKeepsSystem(s, Exit(j));
    assert s'.phase.Keys == s.phase.Keys - {j};
    assert s'.phase != map[] by { assert |s'.lock.inside| == s.lock.depth - 1; }
    var rest := DirtyRelease(s');
    es := [Exit(j)] + rest;
    assert es[1..] == rest;
  }

  predicate IsWindingUp(e: Event) { e.Persisting? || e.Acknowledging? || e.Exit? }

  ghost predicate WindsUp(es: seq<Event>) { forall k :: 0 <= k < |es| ==> IsWindingUp(es[k]) }

  /** Some way of settling what is in flight and leaving releases a zone with a
      change left behind. */
  ghost predicate CanLeaveBehind(s: System) {
    exists es :: ZoneSystem.IsRun(s, es) && WindsUp(es) && !AllReleasesClean(s, es)
  }

  lemma {:induction false} WindingUpAbandonsNothing(s: System, es: seq<Event>)
    requires ZoneSystem.IsRun(s, es) && WindsUp(es)
    ensures NothingAbandoned(s, es)
    decreases |es|
  {
    if es != [] {
      assert IsWindingUp(es[0]);
      WindingUpAbandonsNothing(ZoneSystem.Step(s, es[0]), es[1..]);
    }
  }

  lemma LeavesBehindLater(s: System, e: Event)
    requires ZoneSystem.CanStep(s, e) && IsWindingUp(e) && CanLeaveBehind(ZoneSystem.Step(s, e))
    ensures CanLeaveBehind(s)
  {
    var s' := ZoneSystem.Step(s, e);
    var es :| ZoneSystem.IsRun(s', es) && WindsUp(es) && !AllReleasesClean(s', es);
    Prepend(s, e, es);
    assert ([e] + es)[1..] == es && WindsUp([e] + es);
  }

  ghost predicate SameKyber(db: Database, db': Database) {
    db.triples == db'.triples && db.kyberKeys == db'.kyberKeys
  }

  /** What a write needs of the database, and what it makes of that, is a
      matter of the kyber tables. */
  lemma SameAcceptance(db: Database, db': Database, w: Write)
    requires SameKyber(db, db')
    ensures Persisted(db, w).Some? == Persisted(db', w).Some?
    ensures Persisted(db, w).Some? ==> SameKyber(Persisted(db, w).value, Persisted(db', w).value)
  {
  }

  /** So the awaited commits can land after a failed removal of a session if
      they can after a successful one. */
  lemma {:induction false} RemovalsDoNotMatter(db: Database, db': Database, ws: seq<InFlight>,
                                               phase: map<JobId, Phase>)
    requires SameKyber(db, db') && TopWritesCanLand(db, ws, phase)
    ensures TopWritesCanLand(db', ws, phase)
    decreases |ws|
  {
    if ws != [] {
      var r := Persisted(db, ws[0].write);
      SameAcceptance(db, db', ws[0].write);
      if r.Some? && TopWritesCanLand(r.value, ws[1..], phase) {
        RemovalsDoNotMatter(r.value, Persisted(db', ws[0].write).value, ws[1..], phase);
      } else {
        RemovalsDoNotMatter(db, db', ws[1..], phase);
      }
    }
  }

  /** The next write fails if it is the removal of a session. */
  lemma SettleSent(s: System) returns (e: Event)
    requires Drainable(s) && s.store.sent != []
    ensures e.Persisting? && ZoneSystem.CanStep(s, e)
    ensures var s' := ZoneSystem.Step(s, e);
            && SettledFrom(s, s') && Remaining(s') == Remaining(s)
            && TopWritesCanLand(s'.store.db, s'.store.sent, s'.phase)
  {
    var w := s.store.sent[0];
    e := Persisting(!w.write.DropSession? && LetSucceed(s));
    if w.write.DropSession? {
      assert w.owner.None?;
      var r := Persisted(s.store.db, w.write);
      if TopWritesCanLand(r.value, s.store.sent[1..], s.phase) {
        RemovalsDoNotMatter(r.value, s.store.db, s.store.sent[1..], s.phase);
      }
    } else {
      PersistingSettles(s);
    }
    PersistingRemains(s, e.ok);
  }

  /** One step on the way to where nobody waits; what remains does not change. */
  lemma SettleOne(s: System) returns (e: Event)
    requires Drainable(s) && (AnyTop(s.store.sent, s.phase) || AnyTop(s.store.performed, s.phase))
    ensures ZoneSystem.CanStep(s, e) && IsSettling(e)
    ensures var s' := ZoneSystem.Step(s, e);
            && Drainable(s') && SettledFrom(s, s') && Remaining(s') == Remaining(s)
            && InFlightLeft(s'.store) < InFlightLeft(s.store)
  {
    if AnyTop(s.store.sent, s.phase) {
      e := SettleSent(s);
    } else {
      e := Acknowledging;
      AcknowledgingSettles(s);
      AcknowledgingRemains(s);
    }
    StepKeepsSystem(s, e);
    StepServes(s, e);
  }

  /** Calls past their bodies, none of them stuck, settle and leave; and what
      remains stays behind. */
  lemma {:induction false} SettleAndLeave(s: System)
    requires Drainable(s) && s.phase != map[] && !NothingButTriples(Remaining(s))
    requires forall j :: j in s.phase ==> s.phase[j] == Exiting || s.phase[j] == Saving(true)
    ensures CanLeaveBehind(s)
    decreases InFlightLeft(s.store)
  {
    if AnyTop(s.store.sent, s.phase) || AnyTop(s.store.performed, s.phase) {
      var e := SettleOne(s);
      var s' := ZoneSystem.Step(s, e);
      assert s'.phase.Keys == s.phase.Keys;
      SettleAndLeave(s');
      LeavesBehindLater(s, e);
    } else {
      forall j | j in s.phase ensures s.phase[j] == Exiting {
        assert Served(s, j);
        if s.phase[j] == Saving(true) {
          if Owned(s.store.sent, j) > 0 { TopIsAmong(s.store.sent, s.phase, j); }
          else { TopIsAmong(s.store.performed, s.phase, j); }
        }
      }
      AllRemains(s);
      var es := DirtyRelease(s);
    }
  }

  lemma TidyLeavesNothing(s: System)
    requires SystemInv(s) && AllServed(s) && Tidy(s)
    ensures !CanLeaveBehind(s)
  {
    forall es | ZoneSystem.IsRun(s, es) && WindsUp(es) ensures AllReleasesClean(s, es) {
      WindingUpAbandonsNothing(s, es);
      TidyRunReleasesClean(s, es);
    }
  }

  lemma {:induction false} UnreleasedIsClean(s: System, es: seq<Event>)
    requires ZoneSystem.IsRun(s, es) && !ReleasedIn(s, es)
    ensures AllReleasesClean(s, es)
    decreases |es|
  {
    if es != [] { UnreleasedIsClean(ZoneSystem.Step(s, es[0]), es[1..]); }
  }

  lemma BlockedLeavesNothing(s: System)
    requires SystemInv(s) && AllServed(s) && Blocked(s)
    ensures !CanLeaveBehind(s)
  {
    forall es | ZoneSystem.IsRun(s, es) && WindsUp(es) ensures AllReleasesClean(s, es) {
      BlockedForever(s, es);
      UnreleasedIsClean(s, es);
    }
  }

  /** Exactly that guard decides it. When a body ends below the top level, then
      settling what is in flight and leaving can release a zone with a change
      left behind if and only if the body abandoned one and the zone can be
      released at all. */
  lemma LeftBehindExactlyWhen(s: System, job: JobId, ok: bool)
    requires SystemInv(s) && AllServed(s) && ZoneSystem.CanStep(s, EndBody(job, ok)) && s.lock.depth > 1
    ensures CanLeaveBehind(ZoneSystem.Step(s, EndBody(job, ok))) <==> Abandons(s, EndBody(job, ok)) && !Blocked(s)
  {
    var s' := ZoneSystem.Step(s, EndBody(job, ok));
    StepKeepsSystem(s, EndBody(job, ok));
    StepServes(s, EndBody(job, ok));
    LeaverAwaitsNothing(s, job, ok);
    if Blocked(s) {
      BlockedStep(s, EndBody(job, ok));
      BlockedLeavesNothing(s');
    } else if Abandons(s, EndBody(job, ok)) {
      forall j | j in s'.phase ensures s'.phase[j] == Exiting || s'.phase[j] == Saving(true) {
        assert j in s.phase && !IsStuck(s, j);
      }
      SettleAndLeave(s');
    } else {
      EndBodyKeepsTidy(s, job, ok);
      TidyLeavesNothing(s');
    }
  }

  lemma LeaverAwaitsNothing(s: System, job: JobId, ok: bool)
    requires SystemInv(s) && ZoneSystem.CanStep(s, EndBody(job, ok)) && s.lock.depth > 1
    ensures var s' := ZoneSystem.Step(s, EndBody(job, ok));
            && s'.store == s.store && s'.phase == s.phase - {job} && s'.phase != map[]
            && Remaining(s') == Remaining(s)
            && (TopWritesCanLand(s.store.db, s.store.sent, s.phase) ==>
                  TopWritesCanLand(s'.store.db, s'.store.sent, s'.phase))
  {
    var s' := ZoneSystem.Step(s, EndBody(job, ok));
    assert |s.lock.inside.Keys - {job}| == s.lock.depth - 1;
    assert s'.phase.Keys == s.phase.Keys - {job};
    assert s'.phase == s.phase - {job};
    LockRemains(s, s');
    if TopWritesCanLand(s.store.db, s.store.sent, s.phase) {
      SameTopWrites(s.store.db, s.store.sent, s.phase, s'.phase);
    }
  }
}
