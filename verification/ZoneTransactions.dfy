/** What the zones promise as transactions: rollback, and the fate of kyber
    triples. */
module ZoneTransactions {
  import opened Options
  import opened KyberTriples
  import opened ZoneLock
  import opened StoreTables
  import opened ZoneSystem
  import opened ZoneProgress

  // ----------------------------------------------------------------- rollback

  /** Everything but the triples. */
  predicate NothingButTriples(p: Pending) { p == NOTHING.(triples := p.triples) }

  /** The step neither commits, nor writes around the zone, nor releases it. */
  predicate Undisturbed(s: System, e: Event) {
    match e
    case EndBody(_, ok) => s.lock.depth == 1 ==> !ok
    case Exit(_) => s.lock.depth != 1
    case Direct(_) => false
    case _ => true
  }

  ghost predicate UndisturbedRun(s: System, es: seq<Event>)
    requires ZoneSystem.IsRun(s, es)
    decreases |es|
  {
    es == [] || (Undisturbed(s, es[0]) && UndisturbedRun(ZoneSystem.Step(s, es[0]), es[1..]))
  }

  lemma UndisturbedStep(s: System, e: Event, z: Zone)
    requires Inv(s.lock) && Settled(s.store) && s.lock.current == Some(z) && KeepsAll(z)
    requires ZoneSystem.CanStep(s, e) && Undisturbed(s, e)
    ensures var s' := ZoneSystem.Step(s, e);
            && s'.store == s.store.(pending := s'.store.pending)
            && s'.lock.current == Some(z)
            && s.store.pending.triples.Keys <= s'.store.pending.triples.Keys
  {
    match e {
      case Alter(job, ch) => AlterStaysPending(s, job, ch, z);
      case _ =>
    }
  }

  lemma AlterStaysPending(s: System, job: JobId, ch: Change, z: Zone)
    requires ZoneSystem.CanStep(s, Alter(job, ch)) && s.lock.inside[job] == z && KeepsAll(z)
    ensures var s' := ZoneSystem.Step(s, Alter(job, ch));
            && s'.store == s.store.(pending := s'.store.pending) && s'.lock == s.lock
            && s.store.pending.triples.Keys <= s'.store.pending.triples.Keys
  {
  }

  /** Whatever overlapping bodies did in between, the database, the caches and
      the queue of writes are untouched. */
  lemma {:induction false} UndisturbedRunOnlyTouchesPending(s: System, es: seq<Event>, z: Zone)
    requires SystemInv(s) && Settled(s.store) && s.lock.current == Some(z) && KeepsAll(z)
    requires ZoneSystem.IsRun(s, es) && UndisturbedRun(s, es)
    ensures var s' := ZoneSystem.Run(s, es);
            && s'.store == s.store.(pending := s'.store.pending)
            && s'.lock.current == Some(z)
            && s.store.pending.triples.Keys <= s'.store.pending.triples.Keys
    decreases |es|
  {
    if es != [] {
      UndisturbedStep(s, es[0], z);
      StepKeepsSystem(s, es[0]);
      UndisturbedRunOnlyTouchesPending(ZoneSystem.Step(s, es[0]), es[1..], z);
    }
  }

  /** The quiet case. `s` is the system when a zone that keeps everything
      pending has just been entered. If no body resolves at the top level and
      nothing is written around the zone until its last body throws, every load
      answers as at entry and the database is as at entry; only the accepted
      kyber triples stay pending. */
  lemma RollbackRestores(s: System, es: seq<Event>, last: JobId, z: Zone, id: Id)
    requires SystemInv(s) && Settled(s.store) && s.lock.current == Some(z) && KeepsAll(z)
    requires NothingButTriples(s.store.pending)
    requires ZoneSystem.IsRun(s, es) && UndisturbedRun(s, es)
    requires ZoneSystem.Run(s, es).lock.depth == 1
    requires ZoneSystem.CanStep(ZoneSystem.Run(s, es), EndBody(last, false))
    ensures var before := ZoneSystem.Run(s, es);
            var st := ZoneSystem.Step(before, EndBody(last, false)).store;
            && st.db == s.store.db && st.cache == s.store.cache && Settled(st)
            && NothingButTriples(st.pending) && st.pending.triples == before.store.pending.triples
            && s.store.pending.triples.Keys <= st.pending.triples.Keys
            && SameLoads(st, s.store, id)
  {
    UndisturbedRunOnlyTouchesPending(s, es, z);
  }

  ghost predicate SameLoads(a: Store, b: Store, id: Id) {
    && LoadSession(a, id) == LoadSession(b, id) && LoadSenderKey(a, id) == LoadSenderKey(b, id)
    && LoadPreKey(a, id) == LoadPreKey(b, id) && LoadKyberPreKey(a, id) == LoadKyberPreKey(b, id)
  }

  // ----------------------------------------------------- rollback in every run

  /** The write, if any, that the database performs in a step. */
  function PerformsNow(s: System, e: Event): seq<InFlight> {
    if e.Persisting? && s.store.sent != [] && e.ok && Persisted(s.store.db, s.store.sent[0].write).Some?
    then [s.store.sent[0]] else []
  }

  /** Those that it performs in a run, in order. */
  ghost function Performs(s: System, es: seq<Event>): seq<InFlight>
    requires ZoneSystem.IsRun(s, es)
    decreases |es|
  {
    if es == [] then [] else PerformsNow(s, es[0]) + Performs(ZoneSystem.Step(s, es[0]), es[1..])
  }

  lemma StepPerforms(s: System, e: Event)
    requires StoreInv(s.store) && ZoneSystem.CanStep(s, e)
    ensures Landed(s.store.db, PerformsNow(s, e)) == Some(ZoneSystem.Step(s, e).store.db)
    ensures ValidWrites(PerformsNow(s, e))
  {
    var ws := PerformsNow(s, e);
    if ws != [] { assert ws[1..] == [] && ValidWrite(s.store.sent[0].write); }
  }

  lemma {:induction false} LandedConcat(db: Database, a: seq<InFlight>, b: seq<InFlight>)
    requires Landed(db, a).Some?
    ensures Landed(db, a + b) == Landed(Landed(db, a).value, b)
    decreases |a|
  {
    if a == [] {
      assert a + b == b;
    } else {
      assert (a + b)[1..] == a[1..] + b;
      LandedConcat(Persisted(db, a[0].write).value, a[1..], b);
    }
  }

  /** They have made the database what it is. */
  lemma {:induction false} DatabaseIsReplay(s: System, es: seq<Event>)
    requires SystemInv(s) && ZoneSystem.IsRun(s, es)
    ensures Landed(s.store.db, Performs(s, es)) == Some(ZoneSystem.Run(s, es).store.db)
    ensures ValidWrites(Performs(s, es))
    decreases |es|
  {
    if es != [] {
      var s1 := ZoneSystem.Step(s, es[0]);
      StepKeepsSystem(s, es[0]);
      StepPerforms(s, es[0]);
      DatabaseIsReplay(s1, es[1..]);
      LandedConcat(s.store.db, PerformsNow(s, es[0]), Performs(s1, es[1..]));
    }
  }

  lemma RevertedLoads(st: Store, id: Id)
    requires StoreInv(st) && NothingButTriples(st.pending) && st.performed == []
    ensures LoadSession(st, id) == Lookup(st.db.sessions, id) && LoadSenderKey(st, id) == Lookup(st.db.senderKeys, id)
    ensures LoadPreKey(st, id) == Lookup(st.db.preKeys, id) && LoadKyberPreKey(st, id) == Lookup(st.db.kyberKeys, id)
  {
    LoadsReadOverlay(st, id);
  }

  /** Rollback in every run: when the last body of a zone throws, only triples
      stay pending, the database is what the writes performed since the start
      have made of it, and once they are answered every load reads just that.
      A load before then is stale exactly as `StaleWhenBehind` says. */
  lemma RollbackReadsDatabase(db: Database, es: seq<Event>, last: JobId, id: Id)
    requires ValidDatabase(db) && ZoneSystem.IsRun(Started(db), es)
    requires ZoneSystem.Run(Started(db), es).lock.depth == 1
    requires ZoneSystem.CanStep(ZoneSystem.Run(Started(db), es), EndBody(last, false))
    ensures var before := ZoneSystem.Run(Started(db), es);
            var st := ZoneSystem.Step(before, EndBody(last, false)).store;
            && NothingButTriples(st.pending) && st.pending.triples == before.store.pending.triples
            && Landed(db, Performs(Started(db), es)) == Some(st.db)
            && StaleWhenBehind(st, st.performed, st.db, id)
            && (st.performed == [] ==>
                  && LoadSession(st, id) == Lookup(st.db.sessions, id)
                  && LoadSenderKey(st, id) == Lookup(st.db.senderKeys, id)
                  && LoadPreKey(st, id) == Lookup(st.db.preKeys, id)
                  && LoadKyberPreKey(st, id) == Lookup(st.db.kyberKeys, id))
  {
    var before := ZoneSystem.Run(Started(db), es);
    StartedIsSound(db);
    RunKeepsSystem(Started(db), es);
    DatabaseIsReplay(Started(db), es);
    StepKeepsSystem(before, EndBody(last, false));
    var st := ZoneSystem.Step(before, EndBody(last, false)).store;
    LoadsInFlight(st, id);
    if st.performed == [] { RevertedLoads(st, id); }
  }

  /** No write, or a last one that sets the row to what it was. */
  predicate Unmoved<V(==)>(was: Option<V>, t: Touch<V>) { t.Sets? ==> t.v == was }

  /** In each table the last of the writes to touch the row of `id` sets it to
      what it was. */
  predicate PutBack(db: Database, ws: seq<InFlight>, id: Id) {
    && Unmoved(Lookup(db.sessions, id), LastTouch(ws, SessionTouch(id)))
    && Unmoved(Lookup(db.senderKeys, id), LastTouch(ws, SenderKeyTouch(id)))
    && Unmoved(Lookup(db.preKeys, id), LastTouch(ws, PreKeyTouch(id)))
    && Unmoved(Lookup(db.kyberKeys, id), LastTouch(ws, KyberTouch(id)))
  }

  predicate SameRow(a: Database, b: Database, id: Id) {
    && Lookup(a.sessions, id) == Lookup(b.sessions, id) && Lookup(a.senderKeys, id) == Lookup(b.senderKeys, id)
    && Lookup(a.preKeys, id) == Lookup(b.preKeys, id) && Lookup(a.kyberKeys, id) == Lookup(b.kyberKeys, id)
  }

  /** The row after any number of writes is decided by the last to touch it. */
  lemma LandedRow(db: Database, ws: seq<InFlight>, id: Id)
    requires ValidDatabase(db) && ValidWrites(ws) && Landed(db, ws).Some?
    ensures SameRow(Landed(db, ws).value, db, id) <==> PutBack(db, ws, id)
  {
    LandedAgrees(View(db), db, ws);
    AcknowledgedRow(View(db), ws, id);
  }

  /** And against the state `s` at entry: the loads of `id` answer as they did
      then if and only if, in each table, the last write performed since that
      touches its row sets it to what it was. */
  lemma RollbackRestoresExactlyWhen(s: System, es: seq<Event>, last: JobId, id: Id)
    requires SystemInv(s) && NothingButTriples(s.store.pending) && s.store.performed == []
    requires ZoneSystem.IsRun(s, es) && ZoneSystem.Run(s, es).lock.depth == 1
    requires ZoneSystem.Run(s, es).store.performed == []
    requires ZoneSystem.CanStep(ZoneSystem.Run(s, es), EndBody(last, false))
    ensures var st := ZoneSystem.Step(ZoneSystem.Run(s, es), EndBody(last, false)).store;
            SameLoads(st, s.store, id) <==> PutBack(s.store.db, Performs(s, es), id)
  {
    var before := ZoneSystem.Run(s, es);
    RunKeepsSystem(s, es);
    DatabaseIsReplay(s, es);
    StepKeepsSystem(before, EndBody(last, false));
    RevertedLoads(ZoneSystem.Step(before, EndBody(last, false)).store, id);
    RevertedLoads(s.store, id);
    LandedRow(s.store.db, Performs(s, es), id);
  }

  /** The write changes no row that a load can see. */
  predicate Idle(db: Database, w: Write) {
    match w
    case Commit(p) =>
      && (forall id :: id in p.sessions ==> Lookup(db.sessions, id) == Some(p.sessions[id]))
      && (forall id :: id in p.senderKeys ==> Lookup(db.senderKeys, id) == Some(p.senderKeys[id]))
      && p.preKeyRemove !! db.preKeys.Keys && p.kyberRemove !! db.kyberKeys.Keys
    case AddPreKeys(ks) => forall id :: id in ks ==> Lookup(db.preKeys, id) == Some(ks[id])
    case AddKyberKeys(ks) => forall id :: id in ks ==> Lookup(db.kyberKeys, id) == Some(ks[id])
    case DropSession(id) => id !in db.sessions
    case DropSenderKey(id) => id !in db.senderKeys
  }

  lemma OneTouch<V>(w: InFlight, touch: Write -> Touch<V>)
    ensures LastTouch([w], touch) == touch(w.write)
  {
    assert [w][..0] == [];
  }

  lemma OnePutsBack(db: Database, w: InFlight, id: Id)
    ensures PutBack(db, [w], id) <==>
            && Unmoved(Lookup(db.sessions, id), SessionTouch(id)(w.write))
            && Unmoved(Lookup(db.senderKeys, id), SenderKeyTouch(id)(w.write))
            && Unmoved(Lookup(db.preKeys, id), PreKeyTouch(id)(w.write))
            && Unmoved(Lookup(db.kyberKeys, id), KyberTouch(id)(w.write))
  {
    OneTouch(w, SessionTouch(id));
    OneTouch(w, SenderKeyTouch(id));
    OneTouch(w, PreKeyTouch(id));
    OneTouch(w, KyberTouch(id));
  }

  /** So after no write at all a rollback restores every load, and after a
      single one exactly if that write is idle. */
  lemma OneWriteExactlyWhenIdle(db: Database, w: InFlight)
    ensures forall id :: PutBack(db, [], id)
    ensures (forall id :: PutBack(db, [w], id)) <==> Idle(db, w.write)
  {
    forall id ensures PutBack(db, [w], id) <==>
      && Unmoved(Lookup(db.sessions, id), SessionTouch(id)(w.write))
      && Unmoved(Lookup(db.senderKeys, id), SenderKeyTouch(id)(w.write))
      && Unmoved(Lookup(db.preKeys, id), PreKeyTouch(id)(w.write))
      && Unmoved(Lookup(db.kyberKeys, id), KyberTouch(id)(w.write))
    {
      OnePutsBack(db, w, id);
    }
    if forall id :: PutBack(db, [w], id) { AllPutBackIsIdle(db, w); }
  }

  lemma AllPutBackIsIdle(db: Database, w: InFlight)
    requires forall id :: PutBack(db, [w], id)
    ensures Idle(db, w.write)
  {
    forall id
      ensures Unmoved(Lookup(db.sessions, id), SessionTouch(id)(w.write))
      ensures Unmoved(Lookup(db.senderKeys, id), SenderKeyTouch(id)(w.write))
      ensures Unmoved(Lookup(db.preKeys, id), PreKeyTouch(id)(w.write))
      ensures Unmoved(Lookup(db.kyberKeys, id), KyberTouch(id)(w.write))
    {
      assert PutBack(db, [w], id);
      OnePutsBack(db, w, id);
    }
    match w.write {
      case Commit(p) =>
        forall id | id in p.sessions ensures Lookup(db.sessions, id) == Some(p.sessions[id]) {
          assert Unmoved(Lookup(db.sessions, id), SessionTouch(id)(w.write));
        }
        forall id | id in p.senderKeys ensures Lookup(db.senderKeys, id) == Some(p.senderKeys[id]) {
          assert Unmoved(Lookup(db.senderKeys, id), SenderKeyTouch(id)(w.write));
        }
        forall id | id in p.preKeyRemove ensures id !in db.preKeys {
          assert Unmoved(Lookup(db.preKeys, id), PreKeyTouch(id)(w.write));
        }
        forall id | id in p.kyberRemove ensures id !in db.kyberKeys {
          assert Unmoved(Lookup(db.kyberKeys, id), KyberTouch(id)(w.write));
        }
      case AddPreKeys(ks) =>
        forall id | id in ks ensures Lookup(db.preKeys, id) == Some(ks[id]) {
          assert Unmoved(Lookup(db.preKeys, id), PreKeyTouch(id)(w.write));
        }
      case AddKyberKeys(ks) =>
        forall id | id in ks ensures Lookup(db.kyberKeys, id) == Some(ks[id]) {
          assert Unmoved(Lookup(db.kyberKeys, id), KyberTouch(id)(w.write));
        }
      case DropSession(id) => assert Unmoved(Lookup(db.sessions, id), SessionTouch(id)(w.write));
      case DropSenderKey(id) => assert Unmoved(Lookup(db.senderKeys, id), SenderKeyTouch(id)(w.write));
    }
  }

  // ----------------------------------------------------- triples after revert

  predicate Holds(p: Pending, k: string, t: Triple) { k in p.triples && p.triples[k] == t }

  /** The step sends a commit that carries the triple `t` cached as `k`. */
  ghost predicate Carries(s: System, e: Event, k: string, t: Triple)
    requires ZoneSystem.CanStep(s, e)
  {
    var sent := ZoneSystem.Step(s, e).store.sent;
    && |sent| == |s.store.sent| + 1
    && sent[|sent| - 1].write.Commit? && Holds(sent[|sent| - 1].write.p, k, t)
  }

  lemma AlterKeepsTriple(s: System, job: JobId, ch: Change, k: string, t: Triple)
    requires ZoneSystem.CanStep(s, Alter(job, ch)) && Holds(s.store.pending, k, t)
    ensures Carries(s, Alter(job, ch), k, t) || Holds(ZoneSystem.Step(s, Alter(job, ch)).store.pending, k, t)
  {
    if !IsDuplicate(s.store, ch) {
      assert Holds(Changed(s.store.pending, ch), k, t);
    }
  }

  lemma EndBodyKeepsTriple(s: System, job: JobId, ok: bool, k: string, t: Triple)
    requires ZoneSystem.CanStep(s, EndBody(job, ok)) && Holds(s.store.pending, k, t)
    ensures Carries(s, EndBody(job, ok), k, t) || Holds(ZoneSystem.Step(s, EndBody(job, ok)).store.pending, k, t)
  {
  }

  lemma StepKeepsTriple(s: System, e: Event, k: string, t: Triple)
    requires ZoneSystem.CanStep(s, e) && Holds(s.store.pending, k, t)
    ensures Carries(s, e, k, t) || Holds(ZoneSystem.Step(s, e).store.pending, k, t)
  {
    match e {
      case Alter(job, ch) => AlterKeepsTriple(s, job, ch, k, t);
      case EndBody(job, ok) => EndBodyKeepsTriple(s, job, ok, k, t);
      case _ => assert ZoneSystem.Step(s, e).store.pending.triples == s.store.pending.triples;
    }
  }

  ghost predicate CarriedInRun(s: System, es: seq<Event>, k: string, t: Triple)
    requires ZoneSystem.IsRun(s, es)
    decreases |es|
  {
    es != [] && (Carries(s, es[0], k, t) || CarriedInRun(ZoneSystem.Step(s, es[0]), es[1..], k, t))
  }

  /** An accepted triple outlives every revert: it stays pending until a
      commit, possibly of another zone, carries it to the database. */
  lemma {:induction false} TripleWaitsForNextCommit(s: System, es: seq<Event>, k: string, t: Triple)
    requires ZoneSystem.IsRun(s, es) && Holds(s.store.pending, k, t)
    ensures CarriedInRun(s, es, k, t) || Holds(ZoneSystem.Run(s, es).store.pending, k, t)
    decreases |es|
  {
    if es != [] {
      StepKeepsTriple(s, es[0], k, t);
      if !Carries(s, es[0], k, t) {
        TripleWaitsForNextCommit(ZoneSystem.Step(s, es[0]), es[1..], k, t);
      }
    }
  }

  // -------------------------------------------------------- accepted only once

  function CarriedKeys(ws: seq<InFlight>): set<string>
    decreases |ws|
  {
    if ws == [] then {}
    else (if ws[0].write.Commit? then ws[0].write.p.triples.Keys else {}) + CarriedKeys(ws[1..])
  }

  lemma {:induction false} CarriedKeysAppend(ws: seq<InFlight>, w: InFlight)
    ensures CarriedKeys(ws + [w]) == CarriedKeys(ws) + if w.write.Commit? then w.write.p.triples.Keys else {}
    decreases |ws|
  {
    if ws == [] {
      assert ws + [w] == [w];
      assert [w][1..] == [];
    } else {
      assert (ws + [w])[1..] == ws[1..] + [w];
      CarriedKeysAppend(ws[1..], w);
    }
  }

  /** Accepted after the oldest unanswered write was sent. */
  predicate AcceptedLater(st: Store, t: Triple)
    requires st.performed != []
  {
    CacheKey(t) in st.pending.triples || CacheKey(t) in CarriedKeys(st.sent)
      || CacheKey(t) in CarriedKeys(st.performed[1..])
  }

  /** The triples accepted so far, less those that the removal of their key
      dropped since; a removal drops what was accepted before it was sent. */
  function SeenAfter(s: System, e: Event, seen: set<Triple>): set<Triple> {
    match e
    case Alter(_, AddTriple(t)) => if IsDuplicate(s.store, AddTriple(t)) then seen else seen + {t}
    case Acknowledging =>
      if s.store.performed != [] && s.store.performed[0].write.Commit?
      then set t | t in seen && (t.id !in s.store.performed[0].write.p.kyberRemove || AcceptedLater(s.store, t))
      else seen
    case _ => seen
  }

  ghost function Seen(s: System, es: seq<Event>, seen: set<Triple>): set<Triple>
    requires ZoneSystem.IsRun(s, es)
    decreases |es|
  {
    if es == [] then seen else Seen(ZoneSystem.Step(s, es[0]), es[1..], SeenAfter(s, es[0], seen))
  }

  /** No commit is rejected. */
  predicate Succeeds(s: System, e: Event) {
    e.Persisting? && s.store.sent != [] ==> e.ok && Persisted(s.store.db, s.store.sent[0].write).Some?
  }

  ghost predicate SucceedingRun(s: System, es: seq<Event>)
    requires ZoneSystem.IsRun(s, es)
    decreases |es|
  {
    es == [] || (Succeeds(s, es[0]) && SucceedingRun(ZoneSystem.Step(s, es[0]), es[1..]))
  }

  /** The triple is known to the caches, pending, or in a commit in flight. */
  ghost predicate Known(st: Store, t: Triple) {
    && IsKeyId(t.id)
    && (CacheKey(t) in st.cache.triples || CacheKey(t) in st.pending.triples
        || CacheKey(t) in CarriedKeys(st.sent) || CacheKey(t) in CarriedKeys(st.performed))
  }

  /** A step that does not answer a write loses no triple and adds at most the
      one accepted. */
  lemma SendingKeepsKnown(st: Store, p: Pending, owner: Option<nat>, t: Triple)
    requires IsKeyId(t.id)
    ensures Known(st.(pending := NOTHING, sent := st.sent + [InFlight(owner, Commit(p))]), t)
            <==> Known(st.(pending := p), t)
  {
    CarriedKeysAppend(st.sent, InFlight(owner, Commit(p)));
  }

  lemma AlterKnown(s: System, job: JobId, ch: Change, t: Triple)
    requires IsKeyId(t.id) && ZoneSystem.CanStep(s, Alter(job, ch))
    ensures Known(ZoneSystem.Step(s, Alter(job, ch)).store, t)
            <==> Known(s.store, t) || (ch == AddTriple(t) && !IsDuplicate(s.store, ch))
  {
    var p := Changed(s.store.pending, ch);
    SendingKeepsKnown(s.store, p, Some(job), t);
    if ch.AddTriple? && CacheKey(ch.triple) == CacheKey(t) { CacheKeyInjective(ch.triple, t); }
    assert Known(s.store.(pending := p), t) <==> Known(s.store, t) || ch == AddTriple(t);
  }

  lemma EndBodyKnown(s: System, job: JobId, ok: bool, t: Triple)
    requires IsKeyId(t.id) && ZoneSystem.CanStep(s, EndBody(job, ok))
    ensures Known(ZoneSystem.Step(s, EndBody(job, ok)).store, t) <==> Known(s.store, t)
  {
    SendingKeepsKnown(s.store, s.store.pending, Some(job), t);
  }

  lemma AcknowledgeKnown(st: Store, t: Triple)
    requires StoreInv(st) && IsKeyId(t.id) && st.performed != []
    ensures var w := st.performed[0].write;
            Known(Acknowledge(st), t) <==>
            Known(st, t) && (w.Commit? && t.id in w.p.kyberRemove ==> AcceptedLater(st, t))
  {
    var w := st.performed[0].write;
    assert ValidWrite(w);
    if w.Commit? { PurgedIffRemoved(t, w.p.kyberRemove); }
  }

  /** Known triples are exactly the seen ones. */
  ghost predicate KnowsSeen(st: Store, seen: set<Triple>) {
    forall t: Triple :: IsKeyId(t.id) ==> (Known(st, t) <==> t in seen)
  }

  lemma PersistingKnown(s: System, ok: bool, t: Triple)
    requires IsKeyId(t.id) && ZoneSystem.CanStep(s, Persisting(ok)) && Succeeds(s, Persisting(ok))
    ensures Known(ZoneSystem.Step(s, Persisting(ok)).store, t) <==> Known(s.store, t)
  {
    CarriedKeysAppend(s.store.performed, s.store.sent[0]);
  }

  lemma DirectKnown(s: System, w: Write, t: Triple)
    requires IsKeyId(t.id) && ZoneSystem.CanStep(s, Direct(w))
    ensures Known(ZoneSystem.Step(s, Direct(w)).store, t) <==> Known(s.store, t)
  {
    CarriedKeysAppend(s.store.sent, InFlight(None, w));
  }

  /** What a step does to one triple, seen or not before it. */
  lemma StepKnows(s: System, e: Event, seen: set<Triple>, t: Triple)
    requires StoreInv(s.store) && ZoneSystem.CanStep(s, e) && Succeeds(s, e) && IsKeyId(t.id)
    requires Known(s.store, t) <==> t in seen
    ensures Known(ZoneSystem.Step(s, e).store, t) <==> t in SeenAfter(s, e, seen)
  {
    match e {
      case Acknowledging => AcknowledgeKnown(s.store, t);
      case Alter(job, ch) => AlterKnown(s, job, ch, t);
      case EndBody(job, ok) => EndBodyKnown(s, job, ok, t);
      case Persisting(ok) => PersistingKnown(s, ok, t);
      case Direct(w) => DirectKnown(s, w, t);
      case _ => assert ZoneSystem.Step(s, e).store == s.store;
    }
  }

  lemma {:induction false} RunKnows(s: System, es: seq<Event>, seen: set<Triple>)
    requires SystemInv(s) && KnowsSeen(s.store, seen) && ZoneSystem.IsRun(s, es) && SucceedingRun(s, es)
    ensures KnowsSeen(ZoneSystem.Run(s, es).store, Seen(s, es, seen))
    decreases |es|
  {
    if es != [] {
      StepKeepsSystem(s, es[0]);
      forall t: Triple | IsKeyId(t.id)
        ensures Known(ZoneSystem.Step(s, es[0]).store, t) <==> t in SeenAfter(s, es[0], seen)
      {
        StepKnows(s, es[0], seen, t);
      }
      RunKnows(ZoneSystem.Step(s, es[0]), es[1..], SeenAfter(s, es[0], seen));
    }
  }

  /** In every run whose commits succeed, a triple is refused, or carried by a
      commit in flight, if and only if it was stored at the start or accepted
      since, and no removal of its key dropped it. So with no commit in flight
      exactly the triples seen are refused, and each is accepted once. */
  lemma AcceptedAtMostOnce(db: Database, es: seq<Event>, t: Triple)
    requires ValidDatabase(db) && IsKeyId(t.id)
    requires ZoneSystem.IsRun(Started(db), es) && SucceedingRun(Started(db), es)
    ensures var st := ZoneSystem.Run(Started(db), es).store;
            (IsDuplicate(st, AddTriple(t)) || CacheKey(t) in CarriedKeys(st.sent)
             || CacheKey(t) in CarriedKeys(st.performed))
            <==> t in Seen(Started(db), es, db.triples)
    ensures var st := ZoneSystem.Run(Started(db), es).store;
            Settled(st) ==> (IsDuplicate(st, AddTriple(t)) <==> t in Seen(Started(db), es, db.triples))
  {
    StartedIsSound(db);
    forall u: Triple | IsKeyId(u.id) ensures Known(Started(db).store, u) <==> u in db.triples { StartKnows(db, u); }
    RunKnows(Started(db), es, db.triples);
  }

  lemma StartKnows(db: Database, t: Triple)
    requires ValidDatabase(db) && IsKeyId(t.id)
    ensures Known(Started(db).store, t) <==> t in db.triples
  {
    forall u | u in db.triples && CacheKey(u) == CacheKey(t) ensures u == t {
      assert u.id in db.kyberKeys;
      CacheKeyInjective(u, t);
    }
  }

  function OneTriple(t: Triple): Pending { NOTHING.(triples := map[CacheKey(t) := t]) }

  lemma OneTripleCommit(db: Database, t: Triple)
    ensures var r := Persisted(db, Commit(OneTriple(t)));
            if t in db.triples || t.id !in db.kyberKeys then r.None?
            else r.Some? && t in r.value.triples && r.value.kyberKeys == db.kyberKeys
  {
    var p := OneTriple(t);
    assert p.triples[CacheKey(t)] == t;
    assert p.triples.Values == {t};
    assert db.kyberKeys - p.kyberRemove == db.kyberKeys;
    assert (set u | u in db.triples && u.id !in p.kyberRemove) == db.triples;
    assert t in p.triples.Values;
  }

  lemma AcceptedTripleIsSent(s: System, job: JobId, t: Triple)
    requires ZoneSystem.CanStep(s, Alter(job, AddTriple(t)))
    requires s.store.pending == NOTHING && !s.lock.inside[job].keepsKyber
    requires CacheKey(t) !in s.store.cache.triples
    ensures !IsDuplicate(s.store, AddTriple(t))
    ensures ZoneSystem.Step(s, Alter(job, AddTriple(t)))
            == s.(store := s.store.(sent := s.store.sent + [InFlight(Some(job), Commit(OneTriple(t)))]),
                  phase := s.phase[job := Saving(false)])
  {
    assert Changed(NOTHING, AddTriple(t)) == OneTriple(t);
    assert CacheKey(t) in OneTriple(t).triples;
  }

  /** With a commit in flight the check is blind: in a zone that does not keep
      kyber changes pending, two overlapping bodies both get the same triple
      accepted. The table's unique constraint rejects the second commit. */
  lemma DuplicateSlipsPastInFlight(s: System, a: JobId, b: JobId, t: Triple)
    requires SystemInv(s) && Settled(s.store) && s.store.pending == NOTHING && a != b
    requires a in s.phase && b in s.phase && s.phase[a] == Body && s.phase[b] == Body
    requires !s.lock.inside[a].keepsKyber && !s.lock.inside[b].keepsKyber
    requires IsKeyId(t.id) && t.id in s.store.db.kyberKeys && t !in s.store.db.triples
    requires CacheKey(t) !in s.store.cache.triples
    ensures var e, e' := Alter(a, AddTriple(t)), Alter(b, AddTriple(t));
            && ZoneSystem.CanStep(s, e) && !IsDuplicate(s.store, AddTriple(t))
            && var s1 := ZoneSystem.Step(s, e);
            && ZoneSystem.CanStep(s1, e') && !IsDuplicate(s1.store, AddTriple(t))
            && var s2 := ZoneSystem.Step(s1, e');
            && |s2.store.sent| == 2
            && var st := Persist(s2.store, true);
            && t in st.db.triples && |st.performed| == 1
            && Persisted(st.db, st.sent[0].write).None?
  {
    AcceptedTripleIsSent(s, a, t);
    AcceptedTripleIsSent(ZoneSystem.Step(s, Alter(a, AddTriple(t))), b, t);
    OneTripleCommit(s.store.db, t);
    OneTripleCommit(Persisted(s.store.db, Commit(OneTriple(t))).value, t);
  }
}
