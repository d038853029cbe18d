/** The database, the in-memory caches over it and the pending changes of the
    current zone, with the commit protocol between them. Every write goes to
    one database worker, so writes are performed, and acknowledged, in the
    order in which they were sent. */
module StoreTables {
  import opened Options
  import opened KyberTriples

  type Id = string
  type Blob = seq<Byte>

  datatype KyberKey = KyberKey(lastResort: bool, data: Blob)

  datatype Database = Database(
    sessions: map<Id, Blob>, senderKeys: map<Id, Blob>, preKeys: map<Id, Blob>,
    kyberKeys: map<Id, KyberKey>, triples: set<Triple>, unprocessed: map<Id, Blob>)

  /** The caches hold triples only as strings. Unprocessed rows are not cached. */
  datatype Caches = Caches(
    sessions: map<Id, Blob>, senderKeys: map<Id, Blob>, preKeys: map<Id, Blob>,
    kyberKeys: map<Id, KyberKey>, triples: set<string>)

  datatype Pending = Pending(
    kyberRemove: set<Id>, preKeyRemove: set<Id>, senderKeys: map<Id, Blob>,
    sessions: map<Id, Blob>, unprocessed: map<Id, Blob>, triples: map<string, Triple>)

  const NOTHING := Pending({}, {}, map[], map[], map[], map[])

  /** One database transaction. */
  datatype Write =
    | Commit(p: Pending)
    | AddPreKeys(preKeys: map<Id, Blob>)
    | AddKyberKeys(kyberKeys: map<Id, KyberKey>)
    | DropSession(sessionId: Id)
    | DropSenderKey(senderKeyId: Id)

  // ------------------------------------------------------ database and cache

  /** Removing a kyber key cascades to its triples; a triple that is already
      there, or whose key is not, fails the whole transaction. */
  function Persisted(db: Database, w: Write): Option<Database> {
    match w
    case Commit(p) =>
      var keys := db.kyberKeys - p.kyberRemove;
      var kept := set t | t in db.triples && t.id !in p.kyberRemove;
      var added := p.triples.Values;
      if exists t :: t in added && (t in kept || t.id !in keys) then None
      else Some(Database(db.sessions + p.sessions, db.senderKeys + p.senderKeys,
                         db.preKeys - p.preKeyRemove, keys, kept + added,
                         db.unprocessed + p.unprocessed))
    case AddPreKeys(ks) => Some(db.(preKeys := db.preKeys + ks))
    case AddKyberKeys(ks) =>
      Some(db.(kyberKeys := db.kyberKeys + ks, triples := set t | t in db.triples && t.id !in ks))
    case DropSession(id) => Some(db.(sessions := db.sessions - {id}))
    case DropSenderKey(id) => Some(db.(senderKeys := db.senderKeys - {id}))
  }

  predicate StartsWithAny(key: string, ids: set<Id>) {
    exists id :: id in ids && id + ":" <= key
  }

  /** The in-memory update after a successful write. */
  function Acknowledged(c: Caches, w: Write): Caches {
    match w
    case Commit(p) =>
      Caches(c.sessions + p.sessions, c.senderKeys + p.senderKeys, c.preKeys - p.preKeyRemove,
             c.kyberKeys - p.kyberRemove,
             set k | k in c.triples + p.triples.Keys && !StartsWithAny(k, p.kyberRemove))
    case AddPreKeys(ks) => c.(preKeys := c.preKeys + ks)
    case AddKyberKeys(ks) => c.(kyberKeys := c.kyberKeys + ks)
    case DropSession(id) => c.(sessions := c.sessions - {id})
    case DropSenderKey(id) => c.(senderKeys := c.senderKeys - {id})
  }

  /** What `hydrateCaches` reads from the database. */
  function View(db: Database): Caches {
    Caches(db.sessions, db.senderKeys, db.preKeys, db.kyberKeys, set t | t in db.triples :: CacheKey(t))
  }

  ghost predicate ValidPending(p: Pending) {
    && (forall id :: id in p.kyberRemove ==> IsKeyId(id))
    && (forall k :: k in p.triples ==> k == CacheKey(p.triples[k]) && IsKeyId(p.triples[k].id))
  }

  ghost predicate ValidDatabase(db: Database) {
    && (forall id :: id in db.kyberKeys ==> IsKeyId(id))
    && (forall t :: t in db.triples ==> t.id in db.kyberKeys)
  }

  ghost predicate ValidWrite(w: Write) {
    match w
    case Commit(p) => ValidPending(p)
    case AddKyberKeys(ks) => forall id :: id in ks ==> IsKeyId(id)
    case _ => true
  }

  lemma PersistedStaysValid(db: Database, w: Write)
    requires ValidDatabase(db) && ValidWrite(w) && Persisted(db, w).Some?
    ensures ValidDatabase(Persisted(db, w).value)
  {
    if w.Commit? {
      var db' := Persisted(db, w).value;
      forall t | t in db'.triples ensures t.id in db'.kyberKeys {
        if t in w.p.triples.Values {}
      }
    }
  }

  /** The string side of a commit: cached triple keys after the purge are the
      keys of the rows that the cascade leaves in the table. */
  lemma CommittedTriplesAgree(db: Database, p: Pending)
    requires ValidDatabase(db) && ValidPending(p) && Persisted(db, Commit(p)).Some?
    ensures Acknowledged(View(db), Commit(p)).triples == View(Persisted(db, Commit(p)).value).triples
  {
    var db' := Persisted(db, Commit(p)).value;
    var left := Acknowledged(View(db), Commit(p)).triples;
    var right := View(db').triples;
    forall t | t in db.triples + p.triples.Values
      ensures StartsWithAny(CacheKey(t), p.kyberRemove) <==> t.id in p.kyberRemove
    {
      PurgedIffRemoved(t, p.kyberRemove);
    }
    forall k | k in left ensures k in right {
      if k in p.triples {
        assert p.triples[k] in db'.triples;
      } else {
        var t :| t in db.triples && CacheKey(t) == k;
        assert t in db'.triples;
      }
    }
    forall k | k in right ensures k in left {
      var t :| t in db'.triples && CacheKey(t) == k;
      if t !in db.triples {
        var key :| key in p.triples && p.triples[key] == t;
      }
    }
  }

  lemma PurgedIffRemoved(t: Triple, ids: set<Id>)
    requires IsKeyId(t.id) && forall id :: id in ids ==> IsKeyId(id)
    ensures StartsWithAny(CacheKey(t), ids) <==> t.id in ids
  {
    forall id | id in ids ensures id + ":" <= CacheKey(t) <==> id == t.id { PrefixIsKey(id, t); }
  }

  /** The write replaces no kyber key that has triples stored under it. */
  ghost predicate Cascadeless(db: Database, w: Write) {
    w.AddKyberKeys? ==> forall t :: t in db.triples ==> t.id !in w.kyberKeys
  }

  /** Performing a write and updating the caches after it leave them equal to
      a fresh read of the database, exactly unless the write replaces a kyber
      key with stored triples: replacing its row deletes those triples by
      cascade, and the cache keeps them. */
  lemma WriteAgreesExactlyWhen(db: Database, w: Write)
    requires ValidDatabase(db) && ValidWrite(w) && Persisted(db, w).Some?
    ensures Acknowledged(View(db), w) == View(Persisted(db, w).value) <==> Cascadeless(db, w)
  {
    match w {
      case Commit(p) => CommittedTriplesAgree(db, p);
      case AddKyberKeys(ks) =>
        var db' := Persisted(db, w).value;
        if Cascadeless(db, w) {
          assert db'.triples == db.triples;
        } else {
          var t :| t in db.triples && t.id in ks;
          ReplacedKeyLosesTriples(db, ks, t);
        }
      case _ =>
    }
  }

  /** Confirming a last-resort key does replace it. A triple stored under it is
      gone from the table and still in the cache; nobody but a later start
      notices, and that one has forgotten it. */
  lemma ReplacedKeyLosesTriples(db: Database, keys: map<Id, KyberKey>, t: Triple)
    requires ValidDatabase(db) && t in db.triples && t.id in keys
    ensures var w := AddKyberKeys(keys);
            && Persisted(db, w).Some? && t !in Persisted(db, w).value.triples
            && CacheKey(t) in Acknowledged(View(db), w).triples
            && CacheKey(t) !in View(Persisted(db, w).value).triples
  {
    var db' := Persisted(db, AddKyberKeys(keys)).value;
    forall u | u in db'.triples ensures CacheKey(u) != CacheKey(t) {
      if CacheKey(u) == CacheKey(t) { CacheKeyInjective(u, t); }
    }
  }

  /** What every write keeps, cascading or not: the caches hold the tables, and
      at least the stored triples. */
  ghost predicate Agrees(c: Caches, db: Database) {
    && c.sessions == db.sessions && c.senderKeys == db.senderKeys
    && c.preKeys == db.preKeys && c.kyberKeys == db.kyberKeys
    && forall t :: t in db.triples ==> CacheKey(t) in c.triples
  }

  lemma WriteKeepsAgreement(c: Caches, db: Database, w: Write)
    requires ValidDatabase(db) && ValidWrite(w) && Agrees(c, db) && Persisted(db, w).Some?
    ensures Agrees(Acknowledged(c, w), Persisted(db, w).value)
  {
    if w.Commit? {
      var p, db' := w.p, Persisted(db, w).value;
      forall t | t in db'.triples ensures CacheKey(t) in Acknowledged(c, w).triples {
        PurgedIffRemoved(t, p.kyberRemove);
        if t !in db.triples {
          var key :| key in p.triples && p.triples[key] == t;
        }
      }
    }
  }

  // ---------------------------------------------------------- commit protocol

  datatype InFlight = InFlight(owner: Option<nat>, write: Write)

  /** `sent` writes wait for the worker; `performed` ones for their reply. */
  datatype Store = Store(db: Database, cache: Caches, pending: Pending,
                         sent: seq<InFlight>, performed: seq<InFlight>)

  function AcknowledgeAll(c: Caches, ws: seq<InFlight>): Caches
    decreases |ws|
  {
    if ws == [] then c else AcknowledgeAll(Acknowledged(c, ws[0].write), ws[1..])
  }

  lemma {:induction false} AcknowledgeOneMore(c: Caches, ws: seq<InFlight>, w: InFlight)
    ensures AcknowledgeAll(c, ws + [w]) == Acknowledged(AcknowledgeAll(c, ws), w.write)
    decreases |ws|
  {
    if ws == [] {
      assert ws + [w] == [w];
    } else {
      assert (ws + [w])[1..] == ws[1..] + [w];
      AcknowledgeOneMore(Acknowledged(c, ws[0].write), ws[1..], w);
    }
  }

  ghost predicate ValidWrites(ws: seq<InFlight>) {
    forall k :: 0 <= k < |ws| ==> ValidWrite(ws[k].write)
  }

  /** The caches lag behind the database by exactly the unanswered writes. */
  ghost predicate StoreInv(s: Store) {
    && ValidDatabase(s.db) && ValidPending(s.pending)
    && ValidWrites(s.sent) && ValidWrites(s.performed)
    && Agrees(AcknowledgeAll(s.cache, s.performed), s.db)
  }

  predicate Settled(s: Store) { s.sent == [] && s.performed == [] }

  /** `#commitZoneChanges` up to its `await`: nothing to do, or the pending
      maps are swapped out and sent. */
  function SendPending(s: Store, owner: Option<nat>): Store {
    if s.pending == NOTHING then s
    else s.(pending := NOTHING, sent := s.sent + [InFlight(owner, Commit(s.pending))])
  }

  /** The worker takes the next write; `ok` false is an I/O failure. */
  function Persist(s: Store, ok: bool): Store
    requires s.sent != []
  {
    var r := Persisted(s.db, s.sent[0].write);
    if ok && r.Some?
    then s.(db := r.value, sent := s.sent[1..], performed := s.performed + [s.sent[0]])
    else s.(sent := s.sent[1..])
  }

  function Acknowledge(s: Store): Store
    requires s.performed != []
  {
    var w := s.performed[0].write;
    var s' := s.(cache := Acknowledged(s.cache, w), performed := s.performed[1..]);
    if w.DropSession? then s'.(pending := s'.pending.(sessions := s'.pending.sessions - {w.sessionId}))
    else s'
  }

  /** `#revertZoneChanges`: the pending triples are not among what it clears. */
  function Revert(p: Pending): Pending { NOTHING.(triples := p.triples) }

  lemma PersistKeepsInv(s: Store, ok: bool)
    requires StoreInv(s) && s.sent != []
    ensures StoreInv(Persist(s, ok))
  {
    var w := s.sent[0];
    assert ValidWrite(w.write);
    if ok && Persisted(s.db, w.write).Some? {
      PersistedStaysValid(s.db, w.write);
      WriteKeepsAgreement(AcknowledgeAll(s.cache, s.performed), s.db, w.write);
      AcknowledgeOneMore(s.cache, s.performed, w);
    }
  }

  lemma AcknowledgeKeepsInv(s: Store)
    requires StoreInv(s) && s.performed != []
    ensures StoreInv(Acknowledge(s))
  {
  }

  /** Nothing but a cascade makes the caches differ from a fresh read. */
  lemma PersistKeepsView(s: Store, ok: bool)
    requires StoreInv(s) && s.sent != [] && Cascadeless(s.db, s.sent[0].write)
    requires AcknowledgeAll(s.cache, s.performed) == View(s.db)
    ensures var s' := Persist(s, ok); AcknowledgeAll(s'.cache, s'.performed) == View(s'.db)
  {
    var w := s.sent[0];
    assert ValidWrite(w.write);
    if ok && Persisted(s.db, w.write).Some? {
      WriteAgreesExactlyWhen(s.db, w.write);
      AcknowledgeOneMore(s.cache, s.performed, w);
    }
  }

  // ------------------------------------------------------------------- reads

  function Lookup<V>(m: map<Id, V>, id: Id): Option<V> { if id in m then Some(m[id]) else None }

  function LoadSession(s: Store, id: Id): Option<Blob> {
    if id in s.pending.sessions then Lookup(s.pending.sessions, id) else Lookup(s.cache.sessions, id)
  }

  function LoadSenderKey(s: Store, id: Id): Option<Blob> {
    if id in s.pending.senderKeys then Lookup(s.pending.senderKeys, id) else Lookup(s.cache.senderKeys, id)
  }

  function LoadPreKey(s: Store, id: Id): Option<Blob> {
    if id in s.pending.preKeyRemove then None else Lookup(s.cache.preKeys, id)
  }

  function LoadKyberPreKey(s: Store, id: Id): Option<KyberKey> {
    if id in s.pending.kyberRemove then None else Lookup(s.cache.kyberKeys, id)
  }

  /** `#_getAllSessions`. */
  function AllSessions(s: Store): map<Id, Blob> { s.cache.sessions + s.pending.sessions }

  /** The transaction's own view: the database as it would be after a commit. */
  function Overlay(db: Database, p: Pending): Database {
    db.(sessions := db.sessions + p.sessions, senderKeys := db.senderKeys + p.senderKeys,
        preKeys := db.preKeys - p.preKeyRemove, kyberKeys := db.kyberKeys - p.kyberRemove)
  }

  /** What a write makes of one row. */
  datatype Touch<V> = Untouched | Sets(v: Option<V>)

  function SessionTouch(id: Id): Write -> Touch<Blob> {
    (w: Write) => match w
    case Commit(p) => if id in p.sessions then Sets(Some(p.sessions[id])) else Untouched
    case DropSession(i) => if i == id then Sets(None) else Untouched
    case _ => Untouched
  }

  function SenderKeyTouch(id: Id): Write -> Touch<Blob> {
    (w: Write) => match w
    case Commit(p) => if id in p.senderKeys then Sets(Some(p.senderKeys[id])) else Untouched
    case DropSenderKey(i) => if i == id then Sets(None) else Untouched
    case _ => Untouched
  }

  function PreKeyTouch(id: Id): Write -> Touch<Blob> {
    (w: Write) => match w
    case Commit(p) => if id in p.preKeyRemove then Sets(None) else Untouched
    case AddPreKeys(ks) => if id in ks then Sets(Some(ks[id])) else Untouched
    case _ => Untouched
  }

  function KyberTouch(id: Id): Write -> Touch<KyberKey> {
    (w: Write) => match w
    case Commit(p) => if id in p.kyberRemove then Sets(None) else Untouched
    case AddKyberKeys(ks) => if id in ks then Sets(Some(ks[id])) else Untouched
    case _ => Untouched
  }

  function Settle<V>(cached: Option<V>, t: Touch<V>): Option<V> { if t.Sets? then t.v else cached }

  /** The last write, if any, that touches the row. */
  function LastTouch<V>(ws: seq<InFlight>, touch: Write -> Touch<V>): Touch<V>
    decreases |ws|
  {
    if ws == [] then Untouched
    else
      var t := touch(ws[|ws| - 1].write);
      if t.Sets? then t else LastTouch(ws[..|ws| - 1], touch)
  }

  /** One write, seen through its touch of each table. */
  lemma AcknowledgedTouch(c: Caches, w: Write, id: Id)
    ensures var c' := Acknowledged(c, w);
            && Lookup(c'.sessions, id) == Settle(Lookup(c.sessions, id), SessionTouch(id)(w))
            && Lookup(c'.senderKeys, id) == Settle(Lookup(c.senderKeys, id), SenderKeyTouch(id)(w))
            && Lookup(c'.preKeys, id) == Settle(Lookup(c.preKeys, id), PreKeyTouch(id)(w))
            && Lookup(c'.kyberKeys, id) == Settle(Lookup(c.kyberKeys, id), KyberTouch(id)(w))
  {
  }

  lemma {:induction false} AcknowledgedRow(c: Caches, ws: seq<InFlight>, id: Id)
    ensures var c' := AcknowledgeAll(c, ws);
            && Lookup(c'.sessions, id) == Settle(Lookup(c.sessions, id), LastTouch(ws, SessionTouch(id)))
            && Lookup(c'.senderKeys, id) == Settle(Lookup(c.senderKeys, id), LastTouch(ws, SenderKeyTouch(id)))
            && Lookup(c'.preKeys, id) == Settle(Lookup(c.preKeys, id), LastTouch(ws, PreKeyTouch(id)))
            && Lookup(c'.kyberKeys, id) == Settle(Lookup(c.kyberKeys, id), LastTouch(ws, KyberTouch(id)))
    decreases |ws|
  {
    if ws != [] {
      var front, last := ws[..|ws| - 1], ws[|ws| - 1];
      assert ws == front + [last];
      AcknowledgedRow(c, front, id);
      AcknowledgeOneMore(c, front, last);
      AcknowledgedTouch(AcknowledgeAll(c, front), last.write, id);
    }
  }

  /** The row is not pending in the zone, and the last write of `ws` that
      touches it makes it something else than what is cached. */
  predicate Behind<V(==)>(pending: bool, cached: Option<V>, t: Touch<V>) { !pending && t.Sets? && t.v != cached }

  /** Against the database `db`, which the writes `ws` lead to, each load of
      `id` is stale exactly when its row is behind. */
  ghost predicate StaleWhenBehind(s: Store, ws: seq<InFlight>, db: Database, id: Id) {
    var o, p, c := Overlay(db, s.pending), s.pending, s.cache;
    && (LoadSession(s, id) != Lookup(o.sessions, id) <==>
        Behind(id in p.sessions, Lookup(c.sessions, id), LastTouch(ws, SessionTouch(id))))
    && (LoadSenderKey(s, id) != Lookup(o.senderKeys, id) <==>
        Behind(id in p.senderKeys, Lookup(c.senderKeys, id), LastTouch(ws, SenderKeyTouch(id))))
    && (LoadPreKey(s, id) != Lookup(o.preKeys, id) <==>
        Behind(id in p.preKeyRemove, Lookup(c.preKeys, id), LastTouch(ws, PreKeyTouch(id))))
    && (LoadKyberPreKey(s, id) != Lookup(o.kyberKeys, id) <==>
        Behind(id in p.kyberRemove, Lookup(c.kyberKeys, id), LastTouch(ws, KyberTouch(id))))
  }

  lemma StaleExactlyWhen(s: Store, ws: seq<InFlight>, db: Database, id: Id)
    requires Agrees(AcknowledgeAll(s.cache, ws), db)
    ensures StaleWhenBehind(s, ws, db, id)
  {
    AcknowledgedRow(s.cache, ws, id);
  }

  /** The database once the writes have been performed, each in its turn. */
  function Landed(db: Database, ws: seq<InFlight>): Option<Database>
    decreases |ws|
  {
    if ws == [] then Some(db)
    else
      var r := Persisted(db, ws[0].write);
      if r.None? then None else Landed(r.value, ws[1..])
  }

  lemma {:induction false} LandedAgrees(c: Caches, db: Database, ws: seq<InFlight>)
    requires ValidDatabase(db) && ValidWrites(ws) && Agrees(c, db) && Landed(db, ws).Some?
    ensures Agrees(AcknowledgeAll(c, ws), Landed(db, ws).value)
    decreases |ws|
  {
    if ws != [] {
      assert ValidWrite(ws[0].write);
      PersistedStaysValid(db, ws[0].write);
      WriteKeepsAgreement(c, db, ws[0].write);
      LandedAgrees(Acknowledged(c, ws[0].write), Persisted(db, ws[0].write).value, ws[1..]);
    }
  }

  lemma {:induction false} AcknowledgeAllAppend(c: Caches, a: seq<InFlight>, b: seq<InFlight>)
    ensures AcknowledgeAll(c, a + b) == AcknowledgeAll(AcknowledgeAll(c, a), b)
    decreases |a|
  {
    if a == [] {
      assert a + b == b;
    } else {
      assert (a + b)[1..] == a[1..] + b;
      AcknowledgeAllAppend(Acknowledged(c, a[0].write), a[1..], b);
    }
  }

  /** With writes in flight a load is stale exactly when the last of them to
      touch its row changes it and the zone has nothing newer pending: against
      the database as it stands, by the writes performed and not answered;
      against the one that success leads to, by those still to come as well. */
  lemma LoadsInFlight(s: Store, id: Id)
    requires StoreInv(s)
    ensures StaleWhenBehind(s, s.performed, s.db, id)
    ensures Landed(s.db, s.sent).Some? ==>
              StaleWhenBehind(s, s.performed + s.sent, Landed(s.db, s.sent).value, id)
  {
    StaleExactlyWhen(s, s.performed, s.db, id);
    if Landed(s.db, s.sent).Some? {
      LandedAgrees(AcknowledgeAll(s.cache, s.performed), s.db, s.sent);
      AcknowledgeAllAppend(s.cache, s.performed, s.sent);
      StaleExactlyWhen(s, s.performed + s.sent, Landed(s.db, s.sent).value, id);
    }
  }

  /** With no write in flight every load reads the database under the zone's
      own pending changes, and point lookups agree with the union. */
  lemma LoadsReadOverlay(s: Store, id: Id)
    requires StoreInv(s) && s.performed == []
    ensures Agrees(s.cache, s.db)
    ensures var o := Overlay(s.db, s.pending);
            && LoadSession(s, id) == Lookup(o.sessions, id) == Lookup(AllSessions(s), id)
            && LoadSenderKey(s, id) == Lookup(o.senderKeys, id)
            && LoadPreKey(s, id) == Lookup(o.preKeys, id)
            && LoadKyberPreKey(s, id) == Lookup(o.kyberKeys, id)
  {
    assert AcknowledgeAll(s.cache, []) == s.cache;
  }

  /** A settled commit changes nothing that the zone could read: what it read
      through the overlay before is what everyone reads afterwards. */
  lemma CommitPreservesReads(s: Store, owner: Option<nat>, id: Id)
    requires StoreInv(s) && Settled(s) && s.pending != NOTHING
    requires Persisted(s.db, Commit(s.pending)).Some?
    ensures var s' := Acknowledge(Persist(SendPending(s, owner), true));
            && Settled(s') && s'.pending == NOTHING && StoreInv(s')
            && LoadSession(s', id) == LoadSession(s, id)
            && LoadSenderKey(s', id) == LoadSenderKey(s, id)
            && LoadPreKey(s', id) == LoadPreKey(s, id)
            && LoadKyberPreKey(s', id) == LoadKyberPreKey(s, id)
  {
    var s1 := SendPending(s, owner);
    assert s1.sent == [InFlight(owner, Commit(s.pending))];
    PersistKeepsInv(s1, true);
    AcknowledgeKeepsInv(Persist(s1, true));
    LoadsReadOverlay(s, id);
  }
}
