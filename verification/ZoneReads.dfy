/** Read your writes: what a body changes in its zone is what it reads there
    from then on, what the batch carries if it is sent at once, and what the
    database holds once the commit has landed. */
module ZoneReads {
  import opened Options
  import opened KyberTriples
  import opened ZoneLock
  import opened StoreTables
  import opened ZoneSystem

  /** With `p` pending over the caches of `st`, every load answers as in `st`
      but for what the change says. */
  ghost predicate AnswersWith(st: Store, p: Pending, ch: Change) {
    var v := st.(pending := p);
    && (forall i :: LoadSession(v, i) == if ch.PutSession? && i == ch.id then Some(ch.record) else LoadSession(st, i))
    && (forall i ::
          LoadSenderKey(v, i) == if ch.PutSenderKey? && i == ch.id then Some(ch.record) else LoadSenderKey(st, i))
    && (forall i :: LoadPreKey(v, i) == if ch.RemovePreKeys? && i in ch.ids then None else LoadPreKey(st, i))
    && (forall i ::
          LoadKyberPreKey(v, i) == if ch.RemoveKyberPreKeys? && i in ch.ids then None else LoadKyberPreKey(st, i))
    && (forall i :: Lookup(p.unprocessed, i)
          == if ch.AddUnprocessed? && i in ch.rows then Some(ch.rows[i]) else Lookup(st.pending.unprocessed, i))
    && (forall t: Triple :: IsKeyId(t.id) ==>
          (IsDuplicate(v, AddTriple(t)) <==> IsDuplicate(st, AddTriple(t)) || ch == AddTriple(t)))
    && (forall t: Triple :: t in p.triples.Values <==> t in st.pending.triples.Values || ch == AddTriple(t))
  }

  /** What the commit of `p` makes of a database whose caches are those of
      `st`, for the same change. */
  ghost predicate StoresWith(st: Store, db': Database, ch: Change) {
    && (forall i ::
          Lookup(db'.sessions, i) == if ch.PutSession? && i == ch.id then Some(ch.record) else LoadSession(st, i))
    && (forall i ::
          Lookup(db'.senderKeys, i) == if ch.PutSenderKey? && i == ch.id then Some(ch.record) else LoadSenderKey(st, i))
    && (forall i :: Lookup(db'.preKeys, i) == if ch.RemovePreKeys? && i in ch.ids then None else LoadPreKey(st, i))
    && (forall i ::
          Lookup(db'.kyberKeys, i) == if ch.RemoveKyberPreKeys? && i in ch.ids then None else LoadKyberPreKey(st, i))
    && (forall i :: Lookup(db'.unprocessed, i)
          == if ch.AddUnprocessed? && i in ch.rows then Some(ch.rows[i])
             else if i in st.pending.unprocessed then Some(st.pending.unprocessed[i])
             else Lookup(st.db.unprocessed, i))
    && (ch.AddTriple? ==> ch.triple in db'.triples)
    && (forall t :: t in st.pending.triples.Values ==> t in db'.triples)
  }

  lemma TriplesWith(st: Store, p: Pending, ch: Change, t: Triple)
    requires ValidChange(ch) && IsKeyId(t.id) && p == Changed(st.pending, ch)
    ensures IsDuplicate(st.(pending := p), AddTriple(t)) <==> IsDuplicate(st, AddTriple(t)) || ch == AddTriple(t)
  {
    if ch.AddTriple? && CacheKey(ch.triple) == CacheKey(t) { CacheKeyInjective(ch.triple, t); }
  }

  lemma ChangeAnswers(st: Store, ch: Change)
    requires ValidChange(ch) && !IsDuplicate(st, ch)
    ensures AnswersWith(st, Changed(st.pending, ch), ch)
  {
    var p := Changed(st.pending, ch);
    if ch.AddTriple? {
      var k := CacheKey(ch.triple);
      assert p.triples[k] == ch.triple;
      forall t | t in st.pending.triples.Values ensures t in p.triples.Values {
        var k' :| k' in st.pending.triples && st.pending.triples[k'] == t;
        assert p.triples[k'] == t;
      }
    }
    forall t: Triple | IsKeyId(t.id)
      ensures IsDuplicate(st.(pending := p), AddTriple(t)) <==> IsDuplicate(st, AddTriple(t)) || ch == AddTriple(t)
    {
      TriplesWith(st, p, ch, t);
    }
  }

  /** In every state: a change inside a body is read back at once, by loads of
      what it names and by no other, and stays pending, if the zone keeps
      changes of its kind; otherwise the same is true of the batch that is sent,
      nothing stays pending, and the body awaits that commit. A triple seen
      before changes nothing. */
  lemma ReadYourWrites(s: System, job: JobId, ch: Change)
    requires ZoneSystem.CanStep(s, Alter(job, ch)) && job in s.phase
    ensures var s' := ZoneSystem.Step(s, Alter(job, ch));
            var z := s.lock.inside[job];
            var kept := match ch
                        case PutSession(_, _) => z.keepsSessions
                        case PutSenderKey(_, _) => z.keepsSenderKeys
                        case RemovePreKeys(_) => z.keepsPreKeys
                        case RemoveKyberPreKeys(_) => z.keepsKyber
                        case AddUnprocessed(_) => z.keepsUnprocessed
                        case AddTriple(_) => z.keepsKyber;
            && s'.lock == s.lock && s'.store.db == s.store.db && s'.store.cache == s.store.cache
            && s'.store.performed == s.store.performed
            && if ch.AddTriple? && IsDuplicate(s.store, ch) then s' == s
               else if kept then
                 s'.phase == s.phase && s'.store.sent == s.store.sent && AnswersWith(s.store, s'.store.pending, ch)
               else
                 exists p :: AnswersWith(s.store, p, ch) && s'.store.pending == NOTHING
                   && if p == NOTHING then s'.store.sent == s.store.sent && s'.phase == s.phase
                      else s'.store.sent == s.store.sent + [InFlight(Some(job), Commit(p))]
                           && s'.phase == s.phase[job := Saving(false)]
  {
    if !IsDuplicate(s.store, ch) { ChangeAnswers(s.store, ch); }
    assert !IsDuplicate(s.store, ch) && !KeepsPending(s.lock.inside[job], ch)
      ==> AnswersWith(s.store, Changed(s.store.pending, ch), ch);
  }

  /** And a settled commit of what is then pending stores it: the database has
      the records put and not the keys removed, the rows and the triples added,
      and what the body read before of everything else. */
  lemma ChangeReachesDatabase(st: Store, p: Pending, ch: Change)
    requires StoreInv(st) && st.performed == [] && AnswersWith(st, p, ch)
    requires Persisted(st.db, Commit(p)).Some?
    ensures StoresWith(st, Persisted(st.db, Commit(p)).value, ch)
  {
    var v, db' := st.(pending := p), Persisted(st.db, Commit(p)).value;
    assert AcknowledgeAll(st.cache, []) == st.cache;
    forall i
      ensures Lookup(db'.sessions, i) == LoadSession(v, i) && Lookup(db'.senderKeys, i) == LoadSenderKey(v, i)
      ensures Lookup(db'.preKeys, i) == LoadPreKey(v, i) && Lookup(db'.kyberKeys, i) == LoadKyberPreKey(v, i)
    {
    }
    forall i
      ensures Lookup(db'.unprocessed, i)
              == if ch.AddUnprocessed? && i in ch.rows then Some(ch.rows[i])
                 else if i in st.pending.unprocessed then Some(st.pending.unprocessed[i])
                 else Lookup(st.db.unprocessed, i)
    {
      assert Lookup(p.unprocessed, i)
             == if ch.AddUnprocessed? && i in ch.rows then Some(ch.rows[i]) else Lookup(st.pending.unprocessed, i);
    }
  }

  /** How a body ends. Below the top level its call leaves, and nothing is sent
      or taken back. At the top level, if it threw, what is pending is taken back
      but for the triples and the call is on its way out; if it resolved, what is
      pending is sent as one commit, which the call awaits, or, with nothing
      pending, the call is on its way out at once. */
  lemma BodyEnds(s: System, job: JobId, ok: bool)
    requires SystemInv(s) && ZoneSystem.CanStep(s, EndBody(job, ok))
    ensures var s' := ZoneSystem.Step(s, EndBody(job, ok));
            var p := s.store.pending;
            && s'.store.db == s.store.db && s'.store.cache == s.store.cache && s'.store.performed == s.store.performed
            && if s.lock.depth > 1 then
                 s'.store == s.store && job !in s'.lock.inside && s'.lock.depth == s.lock.depth - 1 && job !in s'.phase
               else
                 && s'.lock == s.lock && job in s'.phase
                 && if !ok then
                      && s'.phase[job] == Exiting && s'.store.sent == s.store.sent
                      && s'.store.pending == Pending({}, {}, map[], map[], map[], p.triples)
                    else if p == Pending({}, {}, map[], map[], map[], map[]) then
                      s'.phase[job] == Exiting && s'.store == s.store
                    else
                      && s'.phase[job] == Saving(true)
                         && s'.store.sent == s.store.sent + [InFlight(Some(job), Commit(p))]
                      && s'.store.pending == Pending({}, {}, map[], map[], map[], map[])
  {
  }

  /** The store once a write around the zone has been performed and answered. */
  function Answered(st: Store, w: Write): Store
    requires Persisted(st.db, w).Some?
  {
    var w' := InFlight(None, w);
    Acknowledge(Persist(st.(sent := [w'], performed := []), true))
  }

  lemma DirectIsAnswered(s: System, w: Write)
    requires Settled(s.store) && ZoneSystem.CanStep(s, Direct(w))
    ensures Persisted(s.store.db, w).Some?
    ensures var s1 := ZoneSystem.Step(s, Direct(w));
            && ZoneSystem.CanStep(s1, Persisting(true))
            && var s2 := ZoneSystem.Step(s1, Persisting(true));
            && ZoneSystem.CanStep(s2, Acknowledging)
            && ZoneSystem.Step(s2, Acknowledging) == s.(store := Answered(s.store, w))
  {
    var s1 := ZoneSystem.Step(s, Direct(w));
    assert s1.store.sent == [InFlight(None, w)];
    var s2 := ZoneSystem.Step(s1, Persisting(true));
    assert s2.store.performed == [InFlight(None, w)];
  }

  lemma AnsweredReads(st: Store, w: Write, i: Id)
    requires !w.Commit? && Persisted(st.db, w).Some?
    ensures var st' := Answered(st, w);
            && LoadSession(st', i) == (if w == DropSession(i) then None else LoadSession(st, i))
            && LoadSenderKey(st', i) == (if w == DropSenderKey(i) && i !in st.pending.senderKeys then None
                                         else LoadSenderKey(st, i))
            && LoadPreKey(st', i) == (if w.AddPreKeys? && i in w.preKeys && i !in st.pending.preKeyRemove
                                      then Some(w.preKeys[i]) else LoadPreKey(st, i))
            && LoadKyberPreKey(st', i) == (if w.AddKyberKeys? && i in w.kyberKeys && i !in st.pending.kyberRemove
                                           then Some(w.kyberKeys[i]) else LoadKyberPreKey(st, i))
  {
    AcknowledgedTouch(st.cache, w, i);
  }

  /** A write around the zone, from a store with nothing in flight: once it has
      been performed and answered it is read back by loads of what it names,
      unless the zone has a change of that pending, and by no other. Removing a
      session removes a pending one as well. */
  lemma DirectWriteIsRead(s: System, w: Write, i: Id)
    requires Settled(s.store) && ZoneSystem.CanStep(s, Direct(w))
    ensures var s1 := ZoneSystem.Step(s, Direct(w));
            && ZoneSystem.CanStep(s1, Persisting(true))
            && var s2 := ZoneSystem.Step(s1, Persisting(true));
            && ZoneSystem.CanStep(s2, Acknowledging)
            && var st, st' := s.store, ZoneSystem.Step(s2, Acknowledging).store;
            && LoadSession(st', i) == (if w == DropSession(i) then None else LoadSession(st, i))
            && LoadSenderKey(st', i) == (if w == DropSenderKey(i) && i !in st.pending.senderKeys then None
                                         else LoadSenderKey(st, i))
            && LoadPreKey(st', i) == (if w.AddPreKeys? && i in w.preKeys && i !in st.pending.preKeyRemove
                                      then Some(w.preKeys[i]) else LoadPreKey(st, i))
            && LoadKyberPreKey(st', i) == (if w.AddKyberKeys? && i in w.kyberKeys && i !in st.pending.kyberRemove
                                           then Some(w.kyberKeys[i]) else LoadKyberPreKey(st, i))
  {
    DirectIsAnswered(s, w);
    AnsweredReads(s.store, w, i);
  }
}
