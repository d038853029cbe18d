/** Zones and store together: every interleaving of `withZone` bodies, their
    changes, and the commits in flight. A `withZone` call that has entered is
    in its body, awaiting a commit, about to leave, or stuck for good behind a
    rejected top-level commit, which nothing in `withZone` catches. */
module ZoneSystem {
  import opened Options
  import opened KyberTriples
  import opened ZoneLock
  import opened StoreTables

  datatype Phase = Body | Saving(top: bool) | Exiting | Stuck

  datatype System = System(lock: Lock, store: Store, phase: map<JobId, Phase>)

  datatype Change =
    | PutSession(id: Id, record: Blob)
    | PutSenderKey(id: Id, record: Blob)
    | RemovePreKeys(ids: set<Id>)
    | RemoveKyberPreKeys(ids: set<Id>)
    | AddUnprocessed(rows: map<Id, Blob>)
    | AddTriple(triple: Triple)

  datatype Event =
    | WithZone(job: JobId, zone: Zone)   // the call itself
    | Alter(job: JobId, change: Change)  // a store operation inside the body
    | EndBody(job: JobId, ok: bool)      // the body resolves or throws
    | Exit(job: JobId)                   // after the awaited commit or revert
    | Persisting(ok: bool)               // the worker performs the next write
    | Acknowledging                      // the oldest performed write is answered
    | Direct(write: Write)               // a write outside the commit path

  // ------------------------------------------------------------------ changes

  predicate IsDuplicate(s: Store, ch: Change) {
    ch.AddTriple? && (CacheKey(ch.triple) in s.cache.triples || CacheKey(ch.triple) in s.pending.triples)
  }

  function Changed(p: Pending, ch: Change): Pending {
    match ch
    case PutSession(id, r) => p.(sessions := p.sessions[id := r])
    case PutSenderKey(id, r) => p.(senderKeys := p.senderKeys[id := r])
    case RemovePreKeys(ids) => p.(preKeyRemove := p.preKeyRemove + ids)
    case RemoveKyberPreKeys(ids) => p.(kyberRemove := p.kyberRemove + ids)
    case AddUnprocessed(rows) => p.(unprocessed := p.unprocessed + rows)
    case AddTriple(t) => p.(triples := p.triples[CacheKey(t) := t])
  }

  predicate KeepsPending(z: Zone, ch: Change) {
    match ch
    case PutSession(_, _) => z.keepsSessions
    case PutSenderKey(_, _) => z.keepsSenderKeys
    case RemovePreKeys(_) => z.keepsPreKeys
    case RemoveKyberPreKeys(_) => z.keepsKyber
    case AddUnprocessed(_) => z.keepsUnprocessed
    case AddTriple(_) => z.keepsKyber
  }

  predicate KeepsAll(z: Zone) {
    z.keepsKyber && z.keepsPreKeys && z.keepsSenderKeys && z.keepsSessions && z.keepsUnprocessed
  }

  ghost predicate ValidChange(ch: Change) {
    match ch
    case AddTriple(t) => IsKeyId(t.id)
    case RemoveKyberPreKeys(ids) => forall id :: id in ids ==> IsKeyId(id)
    case _ => true
  }

  // -------------------------------------------------------------------- steps

  /** Calls that a release lets in start their bodies. */
  function WithLock(s: System, l: Lock): System {
    s.(lock := l, phase := map j | j in l.inside :: if j in s.phase then s.phase[j] else Body)
  }

  /** A promise settles: the call awaiting it goes on. */
  function Resume(phase: map<JobId, Phase>, owner: Option<nat>, failed: bool): map<JobId, Phase> {
    if owner.None? || owner.value !in phase || !phase[owner.value].Saving? then phase
    else if !phase[owner.value].top then phase[owner.value := Body]
    else phase[owner.value := if failed then Stuck else Exiting]
  }

  ghost predicate CanStep(s: System, e: Event) {
    match e
    case WithZone(job, _) => Fresh(s.lock, job)
    case Alter(job, ch) => job in s.lock.inside && job in s.phase && s.phase[job] == Body && ValidChange(ch)
    case EndBody(job, _) => 0 < s.lock.depth && job in s.lock.inside && job in s.phase && s.phase[job] == Body
    case Exit(job) => 0 < s.lock.depth && job in s.lock.inside && job in s.phase && s.phase[job] == Exiting
    case Persisting(_) => s.store.sent != []
    case Acknowledging => s.store.performed != []
    case Direct(w) => !w.Commit? && ValidWrite(w)
  }

  /** A store operation inside a body: the change is made pending, and sent at
      once in a zone that does not keep such changes. */
  function Altered(st: Store, zone: Zone, ch: Change, owner: Option<nat>): Store {
    var st' := st.(pending := Changed(st.pending, ch));
    if KeepsPending(zone, ch) then st' else SendPending(st', owner)
  }

  function Step(s: System, e: Event): System
    requires CanStep(s, e)
  {
    match e
    case WithZone(job, zone) => WithLock(s, CallZone(s.lock, Waiter(zone, job)))
    case Alter(job, ch) =>
      if IsDuplicate(s.store, ch) then s
      else
        var st := Altered(s.store, s.lock.inside[job], ch, Some(job));
        if st.sent == s.store.sent then s.(store := st)
        else s.(store := st, phase := s.phase[job := Saving(false)])
    case EndBody(job, ok) =>
      if s.lock.depth != 1 then WithLock(s, LeaveZone(s.lock, job))
      else if !ok then s.(store := s.store.(pending := Revert(s.store.pending)), phase := s.phase[job := Exiting])
      else if s.store.pending == NOTHING then s.(phase := s.phase[job := Exiting])
      else s.(store := SendPending(s.store, Some(job)), phase := s.phase[job := Saving(true)])
    case Exit(job) => WithLock(s, LeaveZone(s.lock, job))
    case Persisting(ok) =>
      var st := Persist(s.store, ok);
      if |st.performed| > |s.store.performed| then s.(store := st)
      else s.(store := st, phase := Resume(s.phase, s.store.sent[0].owner, true))
    case Acknowledging =>
      s.(store := Acknowledge(s.store), phase := Resume(s.phase, s.store.performed[0].owner, false))
    case Direct(w) => s.(store := s.store.(sent := s.store.sent + [InFlight(None, w)]))
  }

  ghost predicate SystemInv(s: System) {
    Inv(s.lock) && StoreInv(s.store) && s.phase.Keys == s.lock.inside.Keys
  }

  ghost predicate IsRun(s: System, es: seq<Event>)
    decreases |es|
  {
    es == [] || (CanStep(s, es[0]) && IsRun(Step(s, es[0]), es[1..]))
  }

  ghost function Run(s: System, es: seq<Event>): System
    requires IsRun(s, es)
    decreases |es|
  {
    if es == [] then s else Run(Step(s, es[0]), es[1..])
  }

  // ------------------------------------------------------------ the invariant

  lemma ChangedStaysValid(p: Pending, ch: Change)
    requires ValidPending(p) && ValidChange(ch)
    ensures ValidPending(Changed(p, ch))
  {
  }

  lemma StepKeepsLock(s: System, e: Event)
    requires Inv(s.lock) && CanStep(s, e)
    ensures Inv(Step(s, e).lock)
  {
    match e {
      case WithZone(job, zone) => ZoneLock.StepKeepsInv(s.lock, Call(job, zone));
      case EndBody(job, _) => ZoneLock.StepKeepsInv(s.lock, Leave(job));
      case Exit(job) => ZoneLock.StepKeepsInv(s.lock, Leave(job));
      case _ =>
    }
  }

  lemma SendingKeepsInv(st: Store, p: Pending, w: InFlight)
    requires StoreInv(st) && ValidPending(p) && ValidWrite(w.write)
    ensures StoreInv(st.(pending := p, sent := st.sent + [w]))
    ensures StoreInv(st.(pending := p))
  {
  }

  lemma StepKeepsStore(s: System, e: Event)
    requires CanStep(s, e) && StoreInv(s.store)
    ensures StoreInv(Step(s, e).store)
  {
    var st := s.store;
    match e {
      case WithZone(_, _) =>
      case Exit(_) =>
      case Alter(job, ch) =>
        ChangedStaysValid(st.pending, ch);
        var p := Changed(st.pending, ch);
        SendingKeepsInv(st, p, InFlight(Some(job), Commit(p)));
        SendingKeepsInv(st, NOTHING, InFlight(Some(job), Commit(p)));
      case EndBody(job, ok) =>
        SendingKeepsInv(st, NOTHING, InFlight(Some(job), Commit(st.pending)));
        SendingKeepsInv(st, Revert(st.pending), InFlight(Some(job), Commit(st.pending)));
      case Persisting(ok) => PersistKeepsInv(st, ok);
      case Acknowledging => AcknowledgeKeepsInv(st);
      case Direct(w) => SendingKeepsInv(st, st.pending, InFlight(None, w));
    }
  }

  lemma StepKeepsPhases(s: System, e: Event)
    requires s.phase.Keys == s.lock.inside.Keys && CanStep(s, e)
    ensures Step(s, e).phase.Keys == Step(s, e).lock.inside.Keys
  {
    if e.Persisting? {
      assert Resume(s.phase, s.store.sent[0].owner, true).Keys == s.phase.Keys;
    } else if e.Acknowledging? {
      assert Resume(s.phase, s.store.performed[0].owner, false).Keys == s.phase.Keys;
    }
  }

  lemma StepKeepsSystem(s: System, e: Event)
    requires SystemInv(s) && CanStep(s, e)
    ensures SystemInv(Step(s, e))
  {
    StepKeepsLock(s, e);
    StepKeepsStore(s, e);
    StepKeepsPhases(s, e);
  }

  lemma {:induction false} RunKeepsSystem(s: System, es: seq<Event>)
    requires SystemInv(s) && IsRun(s, es)
    ensures SystemInv(Run(s, es))
    decreases |es|
  {
    if es != [] {
      StepKeepsSystem(s, es[0]);
      RunKeepsSystem(Step(s, es[0]), es[1..]);
    }
  }

  /** A store just started over a database. */
  function Started(db: Database): System {
    System(UNLOCKED, Store(db, View(db), NOTHING, [], []), map[])
  }

  lemma StartedIsSound(db: Database)
    requires ValidDatabase(db)
    ensures SystemInv(Started(db))
  {
    assert AcknowledgeAll(View(db), []) == View(db);
  }

  /** No write performed in the run replaces a kyber key with stored triples. */
  ghost predicate CascadelessRun(s: System, es: seq<Event>)
    requires IsRun(s, es)
    decreases |es|
  {
    es == [] ||
    ((es[0].Persisting? ==> Cascadeless(s.store.db, s.store.sent[0].write)) && CascadelessRun(Step(s, es[0]), es[1..]))
  }

  /** Acknowledging what is unanswered would make the caches a fresh read. */
  ghost predicate InView(st: Store) { AcknowledgeAll(st.cache, st.performed) == View(st.db) }

  lemma StepKeepsView(s: System, e: Event)
    requires SystemInv(s) && InView(s.store) && CanStep(s, e)
    requires e.Persisting? ==> Cascadeless(s.store.db, s.store.sent[0].write)
    ensures InView(Step(s, e).store)
  {
    if e.Persisting? { PersistKeepsView(s.store, e.ok); }
  }

  lemma {:induction false} RunKeepsView(s: System, es: seq<Event>)
    requires SystemInv(s) && InView(s.store) && IsRun(s, es) && CascadelessRun(s, es)
    ensures InView(Run(s, es).store)
    decreases |es|
  {
    if es != [] {
      StepKeepsSystem(s, es[0]);
      StepKeepsView(s, es[0]);
      RunKeepsView(Step(s, es[0]), es[1..]);
    }
  }

  /** In every reachable state the zone lock is sound and the caches lag the
      database by exactly the unanswered writes. Once all are answered, every
      load reads the database under the zone's own pending changes; and the
      caches are a fresh read unless the run replaced a key with triples. */
  lemma EveryRunIsConsistent(db: Database, es: seq<Event>, id: Id)
    requires ValidDatabase(db) && IsRun(Started(db), es)
    ensures SystemInv(Run(Started(db), es))
    ensures var st := Run(Started(db), es).store; var o := Overlay(st.db, st.pending);
            st.performed == [] ==>
              && Agrees(st.cache, st.db)
              && (CascadelessRun(Started(db), es) ==> st.cache == View(st.db))
              && LoadSession(st, id) == Lookup(o.sessions, id) == Lookup(AllSessions(st), id)
              && LoadSenderKey(st, id) == Lookup(o.senderKeys, id)
              && LoadPreKey(st, id) == Lookup(o.preKeys, id)
              && LoadKyberPreKey(st, id) == Lookup(o.kyberKeys, id)
  {
    StartedIsSound(db);
    RunKeepsSystem(Started(db), es);
    if CascadelessRun(Started(db), es) { RunKeepsView(Started(db), es); }
    var st := Run(Started(db), es).store;
    if st.performed == [] { LoadsReadOverlay(st, id); }
  }
}
