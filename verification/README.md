# Signal Desktop (persona build): state machines, merges and framing

A Dafny model of the parts of Signal Desktop whose correctness spans many
calls, many conversations or many launches, with proofs about every run of
them. `dafny verify dfyconfig.toml` checks everything.

**The protocol store's zones.** `SignalProtocolStore` guards a write-behind
overlay with a re-entrant asynchronous lock. `ZoneLock` is the lock,
`KyberTriples` the string keys of the triple cache, `StoreTables` the database,
caches, pending maps and the two halves of a commit, and `ZoneSystem` all of
them interleaved. `ZoneProgress` proves who waits for what and when a zone can
be released, `ZoneReads` that a body reads its writes, `ZoneTransactions`
rollback and at-most-once acceptance, and `ZoneReleases` what a release leaves
behind; `ZoneHazards` exhibits, from the
start, the runs in which a transaction is weaker than the comment at the top of
`withZone` suggests.
`SignalProtocolStore` is the object with its loops, each method proved to be a
step of the model. A step is the code between two awaits; database writes go
to one worker and are performed and answered in the order sent
(`ts/sql/main.main.ts`, lines 380-400).

**Contacts.** `ConversationIndex` has the list and its five lookups,
`MergeContacts` the code of `maybeMergeContacts`, `MergeSpec` a direct
definition of its result, `MergeProof` the proof that they agree, and
`MergePromises` what callers rely on. `ConversationController` is the object.
`ConflictSweep` is the pass that combines conversations while the list
shrinks, `SweepLosses` says which identifiers it loses, and `SweepLookups`
what becomes of the lookups.

**The rest.** `ChallengeSolves`, `ChallengeQueue` and `ChallengeHandler` model
the captcha and retry handler; `SqlKey` the database key over launches and
crashes; `IdentityKeys` the identity record; `OrphanSweep` the deletion of
orphaned attachments against a running application; `ChainReport` the analyser
of the shared send chain; `CryptoFraming` the byte layouts around abstract
primitives.

## What the proofs found

Each of these is a property one would expect that the code does not have, with
the exact condition under which it does hold.

- A body that enters a zone while another call awaits the top-level commit,
  and resolves first, is not committed; the next zone inherits its changes and
  may discard them (`LateBodyIsNotCommitted`, `ResolvedWriteCanBeLost`; exact
  guard: `ReleasesAreClean`, `LeftBehindExactlyWhen`).
- A rollback does not lead back to where the zone was entered when a commit
  landed in between (`RollbackKeepsLandedCommit`; exact:
  `RollbackRestoresExactlyWhen`, `OneWriteExactlyWhenIdle`).
- The top-level commit is awaited outside the `try`, so a rejected one locks
  the zone for good (`StuckForever`; exact: `StuckExactlyWhen`,
  `ReleasableExactlyWhen`).
- Confirming a kyber key deletes its stored triples, and the cache keeps them
  (`ReplacedKeyLosesTriples`; exact: `WriteAgreesExactlyWhen`).
- While a commit is in flight loads may be stale, and the duplicate check for
  kyber triples is blind (`StaleLoadIsReachable`, `DuplicateSlipsPastInFlight`;
  exact: `LoadsInFlight`, `AcceptedAtMostOnce`).
- The conflict sweep can lose an identifier altogether, as when a conversation
  is combined into one that is already gone (`SamePniDeletesBoth`,
  `StaleServiceIdLosesIt`, `StaleNumberLosesIt`; exact: `LostExactlyWhen`,
  `SweepLosesExactlyWhen`).
- The sweep can leave a conversation without its entry in a lookup
  (`PniHolderIsForgotten`; exact: `LookupsFailExactlyWhen`,
  `LookupsExactExactlyWhen`).
- A conversation that held both the number and the PNI is merged twice
  (`SameContactIsMergedTwice`; exact: `MergeKeepsItsPromises`).
- A queue start held back offline is forgotten unless the challenge's own
  `retryAt` has matured (`StrandedConversationIsReachable`; exact:
  `PendingStartIsMadeIffMatured`).
- The attachment sweep can delete a file that a message has just started to
  use, if its reuse claim is given up between the last page and the reading of
  the claims (`FileInUseIsDeleted`; exact: `HarmlessExactlyWhen`).
- `verifyDigest` compares only as many bytes as it is given
  (`CutOrPaddedDigestIsAccepted`; exact: `DigestDecidesExactlyWhen`).

## Model

| member | source | states |
|---|---|---|
| `ZoneLock.MutualExclusion` | Signal-Desktop-Persona-main/ts/SignalProtocolStore.preload.ts:1159-1209 | In every interleaving of `withZone` calls: all calls inside belong to the current zone, the depth is their number, the zone is undefined iff the depth is 0 and then the queue is empty, and the head of the queue never waits for the current zone |
| `ZoneLock.CallsAndLeaves` | Signal-Desktop-Persona-main/ts/SignalProtocolStore.preload.ts:1159-1190 | A call enters at once if no zone is held or its own is, and is queued last otherwise; one that leaves while others are inside changes nothing for them |
| `ZoneLock.ReleaseHandsOver` | Signal-Desktop-Persona-main/ts/SignalProtocolStore.preload.ts:1349-1391 | When the last call leaves, exactly the leading same-zone run of the queue enters, together, and the rest of the queue keeps its order |
| `ZoneLock.StaysQueued` | Signal-Desktop-Persona-main/ts/SignalProtocolStore.preload.ts:1167-1188 | A waiter with r same-zone runs ahead of its own stays queued through the first r releases, exactly one run closer after each, whatever is queued later |
| `ZoneLock.EntersAtItsTurn` | Signal-Desktop-Persona-main/ts/SignalProtocolStore.preload.ts:1369-1390 | ... and release r+1 enters it: waiting is bounded and exact |
| `ZoneLock.NeverLeavingBlocks` | Signal-Desktop-Persona-main/ts/SignalProtocolStore.preload.ts:1349-1391 | If one call inside never leaves, no continuation releases its zone and no waiter is taken from the queue |
| `KyberTriples.PrefixIsKey` | Signal-Desktop-Persona-main/ts/SignalProtocolStore.preload.ts:1264-1283 | A cached triple starts with `id:` iff its kyber key is `id`, although service ids may contain colons, so the prefix purge drops exactly the removed keys' triples |
| `KyberTriples.CacheKeyInjective` | Signal-Desktop-Persona-main/ts/SignalProtocolStore.preload.ts:225-231 | Two triples have the same cache key only if they are the same triple |
| `KyberTriples.KeyIdsOfBothKinds` | Signal-Desktop-Persona-main/ts/SignalProtocolStore.preload.ts:225-231 | Key ids of ACIs and of tagged PNIs are covered |
| `StoreTables.CommittedTriplesAgree` | Signal-Desktop-Persona-main/ts/SignalProtocolStore.preload.ts:1264-1283 | The string cache of triples after a commit is the set of cache keys of the rows that the table's cascade leaves |
| `StoreTables.WriteAgreesExactlyWhen` | Signal-Desktop-Persona-main/ts/SignalProtocolStore.preload.ts:1246-1313 | For every kind of write, updating the caches after the database makes them equal to a fresh read of it iff the write replaces no kyber key that has triples stored |
| `StoreTables.ReplacedKeyLosesTriples` | Signal-Desktop-Persona-main/ts/SignalProtocolStore.preload.ts:469-495 | The case is real: confirming a last-resort key replaces its row, which deletes its triples by cascade; the cache keeps them and the next start has forgotten them |
| `StoreTables.WriteKeepsAgreement` | Signal-Desktop-Persona-main/ts/SignalProtocolStore.preload.ts:1246-1313 | Every write, cascading or not, keeps the four cached tables equal to the database and every stored triple cached |
| `StoreTables.LoadsReadOverlay` | Signal-Desktop-Persona-main/ts/SignalProtocolStore.preload.ts:1393-1437 | With no write unanswered every session, sender key, prekey and kyber prekey load equals the database overlaid with the pending changes, and point lookups agree with the union of all sessions |
| `StoreTables.LoadsInFlight` | Signal-Desktop-Persona-main/ts/SignalProtocolStore.preload.ts:1240-1313 | With writes in flight each load is stale, against the database as it stands and against the one that success leads to, iff the last of those writes to touch its row changes it and the zone has nothing newer pending |
| `StoreTables.CommitPreservesReads` | Signal-Desktop-Persona-main/ts/SignalProtocolStore.preload.ts:1211-1314 | A successful commit empties the pending maps and changes no answer of any load |
| `ZoneSystem.EveryRunIsConsistent` | Signal-Desktop-Persona-main/ts/SignalProtocolStore.preload.ts:1159-1331 | Over every run of calls, changes, body ends, database writes and replies, from a store started over any valid database: the lock invariant holds, the caches lag the database by exactly the unanswered writes, whenever none is unanswered all loads read database plus pending, and the caches are then a fresh read unless the run replaced a key with triples |
| `ZoneReads.ReadYourWrites` | Signal-Desktop-Persona-main/ts/SignalProtocolStore.preload.ts:560-614 | In every state a change inside a body is read back at once by loads of what it names and by no other load, and stays pending, iff the zone has the flag for its kind; otherwise the same holds of the batch that is sent, nothing stays pending, and the body awaits that commit |
| `ZoneReads.ChangeReachesDatabase` | Signal-Desktop-Persona-main/ts/SignalProtocolStore.preload.ts:1246-1258 | A commit of what is then pending stores it: the records put and not the keys removed, the unprocessed rows and the triples added, and of everything else what the body had read |
| `ZoneReads.BodyEnds` | Signal-Desktop-Persona-main/ts/SignalProtocolStore.preload.ts:1192-1208 | Below the top level a call just leaves; at the top level a throw takes back all but the triples, a resolved body sends what is pending as one commit and awaits it, or leaves at once with nothing pending |
| `ZoneReads.DirectWriteIsRead` | Signal-Desktop-Persona-main/ts/SignalProtocolStore.preload.ts:497-530 | A write around the zone, once performed and answered, is read back by loads of what it names, unless the zone has a change of that pending, and by no other |
| `ZoneProgress.EveryWaitIsServed` | Signal-Desktop-Persona-main/ts/SignalProtocolStore.preload.ts:1203-1208 | In every reachable state a call that awaits a commit has exactly one write in flight and any other call none: no wait is forgotten |
| `ZoneProgress.StuckExactlyWhen` | Signal-Desktop-Persona-main/ts/SignalProtocolStore.preload.ts:1192-1208 | In every run a call is stuck behind its top-level commit iff the write of that commit was rejected |
| `ZoneProgress.StuckForever` | Signal-Desktop-Persona-main/ts/SignalProtocolStore.preload.ts:1203-1206 | A stuck call: in every continuation the zone is never released and everyone queued stays queued, in order |
| `ZoneProgress.ReleasableExactlyWhen` | Signal-Desktop-Persona-main/ts/SignalProtocolStore.preload.ts:1192-1208 | In every reachable state with a zone held, some continuation releases the zone iff no call is stuck and, for some choice of which writes in flight fail, every one awaited at the top level lands |
| `ZoneTransactions.RollbackRestores` | Signal-Desktop-Persona-main/ts/SignalProtocolStore.preload.ts:1192-1331 | The quiet case: in a zone that keeps every change pending, if no body resolves at the top level and nothing is written around the zone until its last body throws, the database, the caches and every load are as when the zone was entered; only accepted kyber triples stay pending |
| `ZoneTransactions.RollbackReadsDatabase` | Signal-Desktop-Persona-main/ts/SignalProtocolStore.preload.ts:1192-1331 | In every run, when the last body of a zone throws only triples stay pending, the database is what the writes performed so far, in order, have made of it, and once they are answered every load reads just that |
| `ZoneTransactions.RollbackRestoresExactlyWhen` | Signal-Desktop-Persona-main/ts/SignalProtocolStore.preload.ts:1192-1331 | In every run, the loads of an id answer after the rollback as at zone entry iff, in each of the four tables, the last write performed since that touches its row sets it to what it was |
| `ZoneTransactions.OneWriteExactlyWhenIdle` | Signal-Desktop-Persona-main/ts/SignalProtocolStore.preload.ts:1246-1258 | So no write at all restores every load, and a single one does iff it sets every row to what it is and removes only absent ones |
| `ZoneTransactions.TripleWaitsForNextCommit` | Signal-Desktop-Persona-main/ts/SignalProtocolStore.preload.ts:1316-1331 | An accepted triple survives every revert and stays pending until some later commit carries it |
| `ZoneTransactions.AcceptedAtMostOnce` | Signal-Desktop-Persona-main/ts/SignalProtocolStore.preload.ts:536-614 | In every run from the start whose commits succeed, a triple is refused or carried by a commit in flight iff it was stored at the start or accepted since and no removal of its key dropped it; with none in flight, exactly the triples seen are refused |
| `ZoneTransactions.DuplicateSlipsPastInFlight` | Signal-Desktop-Persona-main/ts/SignalProtocolStore.preload.ts:560-583 | The exception is real: in a zone that does not keep kyber changes pending, a second overlapping body gets the same triple accepted, and the table's unique constraint rejects the second commit |
| `ZoneTransactions.OneTripleCommit` | Signal-Desktop-Persona-main/ts/sql/Server.node.ts:1187-1213 | A commit of one triple fails iff the triple is already stored or its key is not, and otherwise stores it |
| `ZoneReleases.ReleasesAreClean` | Signal-Desktop-Persona-main/ts/SignalProtocolStore.preload.ts:1192-1208 | In every run from the start in which no body ends below the top level, with a change that will remain pending, while all other calls are past their bodies, no zone is released with a change left behind for the next zone |
| `ZoneReleases.LeftBehindExactlyWhen` | Signal-Desktop-Persona-main/ts/SignalProtocolStore.preload.ts:1192-1208 | That guard is exact: when a body ends below the top level, settling what is in flight and leaving can release a zone with a change left behind iff the body abandoned one and the zone can be released at all |
| `ZoneHazards.LateBodyIsNotCommitted` | Signal-Desktop-Persona-main/ts/SignalProtocolStore.preload.ts:1203-1208 | A body that enters a zone while its top-level commit is awaited, and resolves before it, commits nothing: its write stays pending |
| `ZoneHazards.ResolvedWriteCanBeLost` | Signal-Desktop-Persona-main/ts/SignalProtocolStore.preload.ts:1192-1208 | From every such state there is a run in which a write whose `withZone` call resolved is neither readable nor stored in the end |
| `ZoneHazards.RollbackKeepsLandedCommit` | Signal-Desktop-Persona-main/ts/SignalProtocolStore.preload.ts:1192-1208 | A rollback that is no way back: a body that entered while another call awaited its commit throws last, and the database and the loads keep the commit |
| `ZoneHazards.CommittingIsReachable` | Signal-Desktop-Persona-main/ts/SignalProtocolStore.preload.ts:1159-1208 | The state in which the hazards begin, a top-level commit in flight with another zone waiting, is reached from the start over any database |
| `ZoneHazards.StaleLoadIsReachable` | Signal-Desktop-Persona-main/ts/SignalProtocolStore.preload.ts:1240-1262 | There, once the commit is performed and not yet answered, the session is stored and its load does not find it |
| `ZoneHazards.TwoBodiesAreReachable` | Signal-Desktop-Persona-main/ts/SignalProtocolStore.preload.ts:1159-1190 | The two bodies that the slip of a duplicate triple needs are reached from the start |
| `SignalProtocolStoreClass.SignalProtocolStore.WithZone` | Signal-Desktop-Persona-main/ts/SignalProtocolStore.preload.ts:1159-1190 | The head of `withZone` is the model's step: it enters, or queues behind a different zone |
| `SignalProtocolStoreClass.SignalProtocolStore.EnterZone` | Signal-Desktop-Persona-main/ts/SignalProtocolStore.preload.ts:1337-1347 | Entering is the model's step |
| `SignalProtocolStoreClass.SignalProtocolStore.LeaveZone` | Signal-Desktop-Persona-main/ts/SignalProtocolStore.preload.ts:1349-1391 | The draining loop and the callbacks compute the model's release |
| `SignalProtocolStoreClass.SignalProtocolStore.BeginCommit` | Signal-Desktop-Persona-main/ts/SignalProtocolStore.preload.ts:1211-1262 | Before its await a commit swaps out the six pending maps and sends them as one write, or does nothing if all are empty |
| `SignalProtocolStoreClass.SignalProtocolStore.FinishCommit` | Signal-Desktop-Persona-main/ts/SignalProtocolStore.preload.ts:1264-1313 | After its await the loops update the five caches to the model's acknowledged state |
| `SignalProtocolStoreClass.AcknowledgeCommit` | Signal-Desktop-Persona-main/ts/SignalProtocolStore.preload.ts:1264-1313 | The loops over a batch update the five caches to the model's acknowledged state |
| `SignalProtocolStoreClass.SignalProtocolStore.RevertZoneChanges` | Signal-Desktop-Persona-main/ts/SignalProtocolStore.preload.ts:1316-1331 | Clears every pending map except the kyber triples |
| `SignalProtocolStoreClass.SignalProtocolStore.LoadSession` | Signal-Desktop-Persona-main/ts/SignalProtocolStore.preload.ts:1393-1437 | Reads the pending session if there is one and else the cached one |
| `SignalProtocolStoreClass.SignalProtocolStore.LoadKyberPreKey` | Signal-Desktop-Persona-main/ts/SignalProtocolStore.preload.ts:431-445 | A key pending removal is absent, any other is read from the cache |
| `SignalProtocolStoreClass.SignalProtocolStore.GetAllSessions` | Signal-Desktop-Persona-main/ts/SignalProtocolStore.preload.ts:2772-2783 | The union map is the cache overwritten by the pending sessions |
| `SignalProtocolStoreClass.SignalProtocolStore.StoreSession` | Signal-Desktop-Persona-main/ts/SignalProtocolStore.preload.ts:1453-1509 | Makes one pending session entry, and in a zone that keeps none pending goes on to send everything pending as one commit |
| `SignalProtocolStoreClass.SignalProtocolStore.MarkTriple` | Signal-Desktop-Persona-main/ts/SignalProtocolStore.preload.ts:560-583 | A triple is accepted iff neither cached nor pending, and then becomes pending, or is sent at once in a zone that keeps no kyber changes; otherwise nothing changes |
| `SignalProtocolStoreClass.PurgePrefix` | Signal-Desktop-Persona-main/ts/SignalProtocolStore.preload.ts:1264-1283 | The inner loop keeps exactly the keys without the prefix |
| `SignalProtocolStoreClass.PurgeRemovedKeys` | Signal-Desktop-Persona-main/ts/SignalProtocolStore.preload.ts:1264-1283 | The nested loops keep exactly the cached triples that start with no removed key |
| `ConversationIndex.UpdateKeepsIndexed` | Signal-Desktop-Persona-main/ts/ConversationController.preload.ts:1868-1926 | Updating one identifier that nobody else holds keeps every lookup the exact inverse of its field |
| `ConversationIndex.AddKeepsIndexed` | Signal-Desktop-Persona-main/ts/ConversationController.preload.ts:1960-2019 | Adding a conversation with unheld identifiers keeps the lookups exact inverses |
| `ConversationIndex.RemoveKeepsIndexed` | Signal-Desktop-Persona-main/ts/ConversationController.preload.ts:2021-2078 | Removing a conversation keeps the lookups exact inverses |
| `ConversationIndex.LookupIsLinearSearch` | Signal-Desktop-Persona-main/ts/ConversationController.preload.ts:445-463 | After any sequence of adds, removals and updates that keeps identifiers unique, `get` equals a linear search of the list |
| `MergeContacts.ApplyChangeEffect` | Signal-Desktop-Persona-main/ts/ConversationController.preload.ts:89-135 | Applying a change sets the three identifiers as the completed change says, on that conversation alone, and keeps the lookups exact |
| `MergeContacts.LookupFindsHolder` | Signal-Desktop-Persona-main/ts/ConversationController.preload.ts:445-463 | On a well-formed book `get` of an ACI, PNI or number finds its holder, or nobody holds it |
| `MergeContacts.CreatedIsFoundAgain` | Signal-Desktop-Persona-main/ts/ConversationController.preload.ts:486-570 | What `getOrCreate` makes has the identifier as its group id, service id or number, as type and form ask, and is found by it: a second call returns the same and changes nothing |
| `MergeContacts.InitialPropsWin` | Signal-Desktop-Persona-main/ts/ConversationController.preload.ts:486-570 | Initial props that are given take precedence over the identifier, and those that are not leave it alone |
| `MergeContacts.FormsAreTold` | Signal-Desktop-Persona-main/ts/ConversationController.preload.ts:486-570 | Numbers, PNIs and ACIs are told apart by their form |
| `MergeContacts.PniAloneGoesAlong` | Signal-Desktop-Persona-main/ts/ConversationController.preload.ts:919-943 | On any book a match that has the PNI asked for as its service id alone loses it with the number or PNI that moves, and is handed to merge if left with nothing |
| `MergeSpec.MoveEffect` | Signal-Desktop-Persona-main/ts/ConversationController.preload.ts:897-943 | Moving a value from a match to the target strips exactly that value (and the PNI that goes with a number) and gives it to the target, keeping uniqueness |
| `MergeProof.MergeIsClosedForm` | Signal-Desktop-Persona-main/ts/ConversationController.preload.ts:732-1021 | The branching code throws iff no identifier is given, and otherwise returns the conversation, the attributes and the merges of a direct definition: who is chosen, what it joins, what every other is stripped of, and how often each is handed to merge |
| `MergePromises.MergeKeepsItsPromises` | Signal-Desktop-Persona-main/ts/ConversationController.preload.ts:732-1021 | From any well-formed book the result holds every identifier given, `get` of each leads to it, uniqueness is kept, every other conversation only loses identifiers, and exactly those that lost their last one are handed to merge: twice if they held both number and PNI, else once |
| `MergePromises.AskingAgainChangesNothing` | Signal-Desktop-Persona-main/ts/ConversationController.preload.ts:732-1021 | If every identifier given already leads to one holder of them all, the call returns it and changes nothing |
| `MergePromises.MergeIsIdempotent` | Signal-Desktop-Persona-main/ts/ConversationController.preload.ts:732-1021 | A second identical call changes nothing and returns the same conversation |
| `MergePromises.PniOnlyAsServiceIdIsLeftSo` | Signal-Desktop-Persona-main/ts/ConversationController.preload.ts:812-979 | The well-formedness is needed: a PNI held only as service id is found and returned, and never copied into the PNI field |
| `MergePromises.SameContactIsMergedTwice` | Signal-Desktop-Persona-main/ts/ConversationController.preload.ts:812-979 | One book: asked for the ACI of one contact and the number and PNI of another, the code hands the other to merge twice |
| `ConversationControllerClass.ConversationController.Get` | Signal-Desktop-Persona-main/ts/ConversationController.preload.ts:445-463 | Answers with the first lookup that has the key |
| `ConversationControllerClass.ConversationController.IdUpdated` | Signal-Desktop-Persona-main/ts/ConversationController.preload.ts:1868-1926 | Forgets the old value and records the new one, in one lookup only |
| `ConversationControllerClass.ConversationController.UpdateField` | Signal-Desktop-Persona-main/ts/models/conversations.preload.ts:2201-2290 | Sets the field and updates its lookup, or does nothing if the value is unchanged |
| `ConversationControllerClass.ConversationController.AddConversation` | Signal-Desktop-Persona-main/ts/ConversationController.preload.ts:350-372 | Appends to the list and adds to the five lookups |
| `ConversationControllerClass.AddToLookup` | Signal-Desktop-Persona-main/ts/ConversationController.preload.ts:1960-2019 | One test of the lookup insertion: an existing entry stays iff it has the better field |
| `ConversationControllerClass.ConversationController.RemoveConversation` | Signal-Desktop-Persona-main/ts/ConversationController.preload.ts:374-383 | Filters the list and removes from the five lookups only its own entries |
| `ConversationControllerClass.RemoveFromLookup` | Signal-Desktop-Persona-main/ts/ConversationController.preload.ts:2021-2078 | One test of the lookup removal: the entry of another conversation stays |
| `ConversationControllerClass.ConversationController.ApplyChange` | Signal-Desktop-Persona-main/ts/ConversationController.preload.ts:89-135 | The method is the function that the merge is specified with |
| `ConversationControllerClass.ConversationController.GetOrCreate` | Signal-Desktop-Persona-main/ts/ConversationController.preload.ts:486-570 | Returns the conversation found, or adds a new private or group one, whose initial props take precedence |
| `ConversationControllerClass.ConversationController.UseItem` | Signal-Desktop-Persona-main/ts/ConversationController.preload.ts:836-893 | One turn of the inner loop: the target is chosen by the four rules and given the value |
| `ConversationControllerClass.ConversationController.UseUnused` | Signal-Desktop-Persona-main/ts/ConversationController.preload.ts:836-895 | The inner loop over unused matches is the specified fold |
| `ConversationControllerClass.ConversationController.MoveToTarget` | Signal-Desktop-Persona-main/ts/ConversationController.preload.ts:897-943 | Takes the value from the match first and gives it to the target, and reports a merge iff the match is left with no identifier |
| `ConversationControllerClass.ConversationController.ProcessItem` | Signal-Desktop-Persona-main/ts/ConversationController.preload.ts:812-979 | One turn of the loop over the three matches is the specified step |
| `ConversationControllerClass.ConversationController.MaybeMergeContacts` | Signal-Desktop-Persona-main/ts/ConversationController.preload.ts:732-1021 | The loop in place computes the function that the closed form is proved of |
| `ConflictSweep.SweepSeparates` | Signal-Desktop-Persona-main/ts/ConversationController.preload.ts:1103-1280 | Whatever the list, no two conversations left by the sweep share a service id, PNI, number or group v2 id, not even across slots |
| `SweepLosses.NoIdentifierIsShared` | Signal-Desktop-Persona-main/ts/ConversationController.preload.ts:1103-1231 | Two conversations that the sweep leaves have no service id, PNI or number in common, be it as service id of one and PNI of the other |
| `SweepLosses.NoGroupIsShared` | Signal-Desktop-Persona-main/ts/ConversationController.preload.ts:1233-1276 | Nor do two groups that it leaves share a v2 id, which is the group id of a v2 group and the derived id of a v1 group |
| `SweepLosses.V1GroupJoinsItsV2Group` | Signal-Desktop-Persona-main/ts/ConversationController.preload.ts:1233-1276 | A v1 group and the v2 group derived from it end as the v2 group alone, whichever comes first |
| `SweepLosses.VisitRemoves` | Signal-Desktop-Persona-main/ts/ConversationController.preload.ts:1110-1280 | One visit removes exactly the visited conversation, if it is combined into a record, and the recorded ones that are combined into it, and takes the number from exactly the one with a different service id |
| `SweepLosses.LostExactlyWhen` | Signal-Desktop-Persona-main/ts/ConversationController.preload.ts:1110-1280 | A visit leaves nobody in the list with an identifier iff nobody to come has it, the visited conversation does not have it or is combined away, and the one recorded for it is no longer listed or is combined into the visited one |
| `SweepLosses.SweepLosesExactlyWhen` | Signal-Desktop-Persona-main/ts/ConversationController.preload.ts:1103-1280 | Over every whole sweep an identifier that somebody had is nobody's in the end iff some visit loses it in that way |
| `SweepLosses.SamePniDeletesBoth` | Signal-Desktop-Persona-main/ts/ConversationController.preload.ts:1124-1185 | Two conversations known only by the same PNI, in both slots, leave an empty list |
| `SweepLosses.StaleServiceIdLosesIt` | Signal-Desktop-Persona-main/ts/ConversationController.preload.ts:1124-1185 | A conversation is combined into one that was replaced for its PNI before: nobody is left with their common service id |
| `SweepLosses.StaleNumberLosesIt` | Signal-Desktop-Persona-main/ts/ConversationController.preload.ts:1124-1231 | A conversation is combined into one that was replaced for its service id before: nobody is left with their common number |
| `SweepLookups.GeneratedIsWinner` | Signal-Desktop-Persona-main/ts/ConversationController.preload.ts:1960-2084 | Freshly generated lookups name, for each identifier, the first holder that has the better field as well, or else the last holder |
| `SweepLookups.WinnerIsNotStripped` | Signal-Desktop-Persona-main/ts/ConversationController.preload.ts:1191-1209 | The number that the sweep takes without `idUpdated` is never taken from the conversation that the number lookup names |
| `SweepLookups.StaysExactlyWhen` | Signal-Desktop-Persona-main/ts/ConversationController.preload.ts:1110-1280 | A conversation still has what it had in a slot, when the sweep comes to an index, iff no turn before removed it or took it |
| `SweepLookups.LookupsExactExactlyWhen` | Signal-Desktop-Persona-main/ts/ConversationController.preload.ts:1103-1280 | After a sweep over freshly generated lookups the five lookups are the exact inverses of the identifiers in the list iff no holder of an identifier is overlooked: one that the lookup does not name and from which no turn of the sweep takes it |
| `SweepLookups.LookupsFailExactlyWhen` | Signal-Desktop-Persona-main/ts/ConversationController.preload.ts:1103-1280 | The lookups fail to be exact iff, for some identifier, a turn of the sweep removes the conversation that the lookup names and no turn takes the identifier from all its holders |
| `SweepLookups.PniHolderIsForgotten` | Signal-Desktop-Persona-main/ts/ConversationController.preload.ts:1154-1185 | Of two conversations known by their PNI alone the lookup names the last and the sweep keeps the first, whose PNI then leads nowhere |
| `SweepLookups.CombineIsRemove` | Signal-Desktop-Persona-main/ts/ConversationController.preload.ts:1299-1473 | Combining changes list and lookups as removing the obsolete conversation does |
| `ConversationControllerClass.ConversationController.CombineConversations` | Signal-Desktop-Persona-main/ts/ConversationController.preload.ts:1290-1473 | Removes the obsolete conversation unless it is gone or of the other type |
| `ConversationControllerClass.ConversationController.CheckE164` | Signal-Desktop-Persona-main/ts/ConversationController.preload.ts:1187-1231 | The number branch in place: record, take the number from the older, or combine one way or the other |
| `ConversationControllerClass.ConversationController.CheckOne` | Signal-Desktop-Persona-main/ts/ConversationController.preload.ts:1110-1277 | The four branches in place are one visit of the model |
| `ConversationControllerClass.ConversationController.CheckForConflicts` | Signal-Desktop-Persona-main/ts/ConversationController.preload.ts:1103-1280 | The loop visits each original exactly once, from last to first, and ends in the swept state, in which no two conversations share an identifier |
| `ConflictSweep.OriginalStands` | Signal-Desktop-Persona-main/ts/ConversationController.preload.ts:1110-1116 | When the index comes to i, what stands there in the shrunken array is the original conversation i |
| `ChallengeSolves.CountsCallsInProgress` | Signal-Desktop-Persona-main/ts/challenge.dom.ts:407-476 | In every overlap of solves the counter equals the number of calls in progress |
| `ChallengeSolves.SentTokenIsTheLatest` | Signal-Desktop-Persona-main/ts/challenge.dom.ts:407-432 | Each response sent carries the token of the latest solve, and between two responses a new solve has started |
| `ChallengeSolves.ResolvedAtMostOnce` | Signal-Desktop-Persona-main/ts/challenge.dom.ts:319-358 | Each captcha request is resolved at most once, however many responses arrive |
| `ChallengeQueue.EveryRunIsSafe` | Signal-Desktop-Persona-main/ts/challenge.dom.ts:223-317 | In every run timers and pending starts belong to registered conversations, and no queue is started while offline |
| `ChallengeQueue.RegistrationsAreConserved` | Signal-Desktop-Persona-main/ts/challenge.dom.ts:264-342 | In every run the registrations of a conversation equal its starts plus its withdrawals plus one if it is registered now |
| `ChallengeQueue.OnlineStartsWhatMatured` | Signal-Desktop-Persona-main/ts/challenge.dom.ts:104-202 | After coming online at a time no registered challenge has a `retryAt` that is set and past, and the queues started are exactly those that had one |
| `ChallengeQueue.PendingStartIsMadeIffMatured` | Signal-Desktop-Persona-main/ts/challenge.dom.ts:192-202 | A start held back offline is made on coming online iff the challenge's own `retryAt` is set and past; otherwise the conversation is left with neither timer nor pending start |
| `ChallengeQueue.RegisterStartsExactlyWhen` | Signal-Desktop-Persona-main/ts/challenge.dom.ts:264-296 | A new registration starts its queue iff we are online and its `retryAt` is set and past; past and offline it is held back; otherwise it gets a timer for the rate limit, else for its own `retryAt` |
| `ChallengeQueue.SolvedStartsAll` | Signal-Desktop-Persona-main/ts/challenge.dom.ts:379-405 | A solved captcha starts every registered queue when online, and holds every start back when not |
| `ChallengeQueue.ForcedWaitHolds` | Signal-Desktop-Persona-main/ts/challenge.dom.ts:248-262 | Being forced to wait gives every registered challenge the time named and a timer for it, and starts nothing |
| `ChallengeQueue.NothingStartsEarly` | Signal-Desktop-Persona-main/ts/challenge.dom.ts:223-296 | Over every run no queue is started by registering or coming online before its `retryAt`, nor by a timer before the time it was set for |
| `ChallengeQueue.StrandedConversationIsReachable` | Signal-Desktop-Persona-main/ts/challenge.dom.ts:192-300 | Such a stranded conversation is reached from the initial state in four steps |
| `ChallengeHandlerClass.RescheduleAll` | Signal-Desktop-Persona-main/ts/challenge.dom.ts:248-262 | The loop gives every registered conversation the new `retryAt` and timer and leaves other timers alone |
| `ChallengeHandlerClass.ChallengeHandler.RequestCaptcha` | Signal-Desktop-Persona-main/ts/challenge.dom.ts:344-358 | Opens a request under a fresh sequence number |
| `ChallengeHandlerClass.ChallengeHandler.BeginSolve` | Signal-Desktop-Persona-main/ts/challenge.dom.ts:407-412 | The first stretch of a solve is the model's step |
| `ChallengeHandlerClass.ChallengeHandler.ResumeSolve` | Signal-Desktop-Persona-main/ts/challenge.dom.ts:414-432 | After its captcha a call takes the token away, or ends if another took it |
| `ChallengeHandlerClass.ChallengeHandler.OnResponse` | Signal-Desktop-Persona-main/ts/challenge.dom.ts:319-327 | Closes the request it answers and ignores any other |
| `ChallengeHandlerClass.ChallengeHandler.Register` | Signal-Desktop-Persona-main/ts/challenge.dom.ts:264-317 | Registers once, then starts, waits for the rate limit or waits for its own `retryAt`; unless started it begins a solve iff captcha is offered, there is a token and the challenge is not silent |
| `ChallengeHandlerClass.ChallengeHandler.Unregister` | Signal-Desktop-Persona-main/ts/challenge.dom.ts:329-342 | Removes registration, pending start and timer of one conversation |
| `ChallengeHandlerClass.ChallengeHandler.ForceWaitOnAll` | Signal-Desktop-Persona-main/ts/challenge.dom.ts:248-262 | Sets the rate limit and reschedules every registered conversation |
| `ChallengeHandlerClass.ChallengeHandler.StartQueue` | Signal-Desktop-Persona-main/ts/challenge.dom.ts:391-405 | Offline it holds the start back, online it unregisters and starts |
| `ChallengeHandlerClass.ChallengeHandler.StartAllQueues` | Signal-Desktop-Persona-main/ts/challenge.dom.ts:379-389 | Starts, each once and in some order, exactly the registered conversations that are forced or matured |
| `ChallengeHandlerClass.ChallengeHandler.OnOnline` | Signal-Desktop-Persona-main/ts/challenge.dom.ts:192-202 | Coming online is the model's step |
| `SqlKey.LaunchKeepsKey` | Signal-Desktop-Persona-main/app/main.main.ts:1671-1783 | After any number of its config writes, a launch on a config that holds only copies of k leaves such a config and returns nothing but k |
| `SqlKey.LaunchMakesKey` | Signal-Desktop-Persona-main/app/main.main.ts:1747-1781 | A launch without a key leaves none, or only copies of the key it generated, and returns it only once stored |
| `SqlKey.EveryLaunchReturnsTheFirstKey` | Signal-Desktop-Persona-main/app/main.main.ts:1671-1816 | Over every sequence of launches, with a crash between any two writes, every launch that returns gives the key first returned |
| `SqlKey.ReturnsExactlyWhen` | Signal-Desktop-Persona-main/app/main.main.ts:1671-1783 | From config and environment alone: a launch returns a key iff the backend did not change, an encrypted key can be decrypted and a mismatch with the plaintext was accepted before or is now, and the writes that are due succeed |
| `SqlKey.ReturnsWhich` | Signal-Desktop-Persona-main/app/main.main.ts:1709-1751 | It is the plaintext key if there is one, else the decrypted one, else a new one |
| `SqlKey.DecryptingLeaves` | Signal-Desktop-Persona-main/app/main.main.ts:1710-1738 | A launch that decrypts removes the plaintext once decryption gave it back, records an accepted mismatch and, on Linux, the backend, and leaves the encrypted key |
| `SqlKey.StoringLeaves` | Signal-Desktop-Persona-main/app/main.main.ts:1757-1781 | A launch without an encrypted key stores the key encrypted under the backend of the day where there is encryption, in plaintext besides only under Flatpak, and records the backend on Linux; without encryption it stores it in plaintext |
| `SqlKey.NextLaunchReturns` | Signal-Desktop-Persona-main/app/main.main.ts:1671-1783 | After a launch that returned, the next one on the same machine returns the same key if its writes succeed |
| `SqlKey.PlaintextGoesOnlyAfterRoundTrip` | Signal-Desktop-Persona-main/app/main.main.ts:1719-1733 | Under Flatpak the plaintext copy disappears only in a launch whose decryption gave back that very key |
| `SqlKey.WrongDecryptionIsReturned` | Signal-Desktop-Persona-main/app/main.main.ts:1710-1738 | The assumption on decryption is needed: without the plaintext copy a wrong decryption is returned |
| `SqlKey.WrongDecryptionIsCaught` | Signal-Desktop-Persona-main/app/main.main.ts:1719-1733 | While the plaintext copy is kept a wrong decryption does no harm: the true key is returned once the user has accepted |
| `SqlKey.UserConfig.Set` | Signal-Desktop-Persona-main/app/base_config.node.ts:75-97 | With errors thrown a value reaches the cache iff the file was written; without, it reaches the cache in any case |
| `SqlKey.HandleDecryptionError` | Signal-Desktop-Persona-main/app/main.main.ts:1785-1816 | Goes on if the user accepted before, and otherwise asks and records the acceptance |
| `SqlKey.GetFromEncrypted` | Signal-Desktop-Persona-main/app/main.main.ts:1710-1738 | The decrypting branch performs the planned writes in order and returns the planned key iff all succeed |
| `SqlKey.StoreKey` | Signal-Desktop-Persona-main/app/main.main.ts:1757-1781 | The storing branch performs the planned writes in order and returns the key iff all succeed |
| `SqlKey.GetSQLKey` | Signal-Desktop-Persona-main/app/main.main.ts:1671-1783 | One launch leaves the config after as many of its planned writes as succeed, and returns iff all do |
| `IdentityKeys.ReplacedKeyIsNeverTrusted` | Signal-Desktop-Persona-main/ts/SignalProtocolStore.preload.ts:1975-2024 | Once the key of a verified contact is replaced, no key is trusted for sending, whatever is saved or approved later and at any time, until an explicit verify, sync or removal |
| `IdentityKeys.TrustedExactlyWhen` | Signal-Desktop-Persona-main/ts/SignalProtocolStore.preload.ts:1975-2024 | In every state reached from no record the key on record is the one last saved or synced, no other is trusted, and it is trusted iff the contact is not unverified and, unless it was the first or 5 seconds have passed, it was approved |
| `IdentityKeys.HeldKeyWasLast` | Signal-Desktop-Persona-main/ts/SignalProtocolStore.preload.ts:2075-2207 | Some event brought the key on record, and none after it removed the record or replaced the key |
| `IdentityKeys.TrustWithoutRecord` | Signal-Desktop-Persona-main/ts/SignalProtocolStore.preload.ts:1983-2000 | Without a record a key is trusted iff no previous key is known or it is that very one |
| `IdentityKeys.FirstKeyIsTrusted` | Signal-Desktop-Persona-main/ts/SignalProtocolStore.preload.ts:2075-2130 | The first key saved is trusted at once, and no other |
| `IdentityKeys.ReplacementIsTrustedExactlyWhen` | Signal-Desktop-Persona-main/ts/SignalProtocolStore.preload.ts:2131-2207 | A key that replaces one never verified is trusted, and no other is, once it is approved or 5 seconds old |
| `IdentityKeys.EventsDoWhatTheySay` | Signal-Desktop-Persona-main/ts/SignalProtocolStore.preload.ts:2261-2323 | What saves that do not overwrite, our own key, the same key, verification, sync and removal leave of a record |
| `IdentityKeys.VerifiedOnlyForVouchedKey` | Signal-Desktop-Persona-main/ts/SignalProtocolStore.preload.ts:2291-2323 | In every run a record is verified only for the key that the latest explicit verification was about |
| `IdentityKeys.IdentityStore.SaveIdentity` | Signal-Desktop-Persona-main/ts/SignalProtocolStore.preload.ts:2075-2207 | Saves, keeps, replaces or approves as specified, touches no other contact, and reports a replacement iff a different key took the place of an existing one |
| `IdentityKeys.IdentityStore.UpdateIdentityAfterSync` | Signal-Desktop-Persona-main/ts/SignalProtocolStore.preload.ts:2379-2456 | Throws iff a record has to be written at clock 0; otherwise the record has the synced key and status, and a message is due iff the contact became or ceased to be verified under an unchanged or new key |
| `OrphanSweep.LastPageLeavesNoReferenced` | Signal-Desktop-Persona-main/ts/sql/Server.node.ts:9030-9128 | Whatever is saved, removed or reused between pages, when the last page has been read no message names a file that is still a candidate for deletion |
| `OrphanSweep.PagesAreFull` | Signal-Desktop-Persona-main/ts/sql/Server.node.ts:9085-9126 | A page reports 1000 rows or all there are, it is the last iff fewer were left, and it takes off the candidates exactly what the rows it reports name |
| `OrphanSweep.UnusedIsSwept` | Signal-Desktop-Persona-main/app/attachment_channel.main.ts:410-523 | A listed file that nobody uses is never used again and stays a candidate to the end: no garbage is missed |
| `OrphanSweep.SweepIsSafe` | Signal-Desktop-Persona-main/app/attachment_channel.main.ts:410-523 | Over every whole sweep, if no claim on a candidate is given up between the last page and the reading of the claims, no deleted file is in use then or at any later time |
| `OrphanSweep.HarmlessExactlyWhen` | Signal-Desktop-Persona-main/app/attachment_channel.main.ts:451-462 | Reading the claims now dooms no file that is ever used iff no message saved since the last page names an unclaimed candidate |
| `OrphanSweep.FileInUseIsDeleted` | Signal-Desktop-Persona-main/app/attachment_channel.main.ts:424-462 | The window is real: a run of five steps deletes a file under a message that names it |
| `OrphanSweep.DeleteKnown` | Signal-Desktop-Persona-main/app/attachment_channel.main.ts:346-351 | The loop removes exactly the known paths and counts those that were not there |
| `OrphanSweep.PagesReadExactlyWhen` | Signal-Desktop-Persona-main/app/attachment_channel.main.ts:424-450 | Reading goes on exactly while a reply has a cursor that is not done |
| `OrphanSweep.DeleteOrphaned` | Signal-Desktop-Persona-main/app/attachment_channel.main.ts:410-512 | The deleted files are exactly the candidates that no page and no claim names and that still exist; if any read throws, nothing is deleted |
| `ChainReport.ReportIsExact` | Signal-Desktop-Persona-main/scripts/personas-decrypt-errors.py:359-432 | For any number of processes and any interleaving the report finds no race, gap, save failure or repeated fallback iff no load fell inside an open turn, no save was lost, and no unlogged writer's state was loaded after the first load |
| `ChainReport.CoherentExactlyWhen` | Signal-Desktop-Persona-main/scripts/personas-decrypt-errors.py:374-432 | Over the entries of any log: coherent iff no save failed, at most one load fell back to the bundle, no state was loaded twice, and every load of the file but the first was of a state saved before |
| `ChainReport.TurnsInOrder` | Signal-Desktop-Persona-main/scripts/personas-decrypt-errors.py:343-357 | Two turns in order log a load, a save and a load of what was saved |
| `ChainReport.Analyse` | Signal-Desktop-Persona-main/scripts/personas-decrypt-errors.py:374-432 | The loops compute the verdict, the gaps and the repeats that the exactness result is about |
| `CryptoFraming.SIVInverse` | Signal-Desktop-Persona-main/ts/Crypto.node.ts:740-790 | A plaintext encrypts to a ciphertext iff that ciphertext decrypts to the plaintext: the two are mutual inverses |
| `CryptoFraming.SIVLayout` | Signal-Desktop-Persona-main/ts/Crypto.node.ts:740-790 | The IV is the start of the MAC of the plaintext under the key derived for "auth", the rest is masked with the MAC of the IV under the key derived for "enc", and what decrypts begins with the MAC of what it decrypts to |
| `CryptoFraming.SIVLengths` | Signal-Desktop-Persona-main/ts/Crypto.node.ts:740-775 | Keys, plaintexts and ciphertexts of any other length are refused |
| `CryptoFraming.AttachmentRoundTrip` | Signal-Desktop-Persona-main/ts/Crypto.node.ts:510-586 | Decryption undoes encryption with or without the digest, and refuses any blob that differs in the MAC alone |
| `CryptoFraming.AttachmentIsAuthentic` | Signal-Desktop-Persona-main/ts/Crypto.node.ts:510-543 | Whatever decrypts ends in the MAC of what precedes it and is the plain decryption of its middle; a full-length digest other than its own is refused |
| `CryptoFraming.SymmetricRoundTrip` | Signal-Desktop-Persona-main/ts/Crypto.node.ts:302-354 | Decryption undoes encryption for every key, plaintext and 16-byte nonce |
| `CryptoFraming.SymmetricIsAuthentic` | Signal-Desktop-Persona-main/ts/Crypto.node.ts:322-354 | Whatever decrypts ends in the first 16 bytes of the MAC that key, nonce and ciphertext determine, and of all blobs that share nonce and ciphertext with an encryption only the encryption decrypts |
| `CryptoFraming.XorBytes` | Signal-Desktop-Persona-main/ts/Crypto.node.ts:702-731 | The loop is the bytewise XOR, and fails iff the lengths differ |
| `CryptoFraming.VerifyMac` | Signal-Desktop-Persona-main/ts/Crypto.node.ts:368-388 | The OR-of-XOR loop accepts iff the given MAC is exactly the `length`-byte prefix of the computed one |
| `CryptoFraming.VerifyDigest` | Signal-Desktop-Persona-main/ts/Crypto.node.ts:495-508 | The loop accepts iff every byte given equals the computed one, a missing byte counting as 0; on equal lengths, iff the digests are equal |
| `CryptoFraming.CutOrPaddedDigestIsAccepted` | Signal-Desktop-Persona-main/ts/Crypto.node.ts:495-543 | A sealed attachment is accepted with every proper prefix of its digest, the empty one included, and with its digest followed by zeroes |
| `CryptoFraming.DigestDecidesExactlyWhen` | Signal-Desktop-Persona-main/ts/Crypto.node.ts:495-508 | For given digests of length n acceptance means equality iff n is the full length |

## Left out

- Hydration of cache entries: a cached record and its hydrated form are one value.
- Removals that change the cache before the database (`removeSessionsByConversation`, `removeSessionsByServiceId`, the `clear*` stores, `removeOurOldPni`), and signed prekeys.
- ZoneSystem.EveryRunIsConsistent: the callbacks drained by a release enter together; the synchronous part of each body is a later step.
- IdentityKeys.VerifiedOnlyForVouchedKey: `saveIdentityWithAttributes` and the migration of old records are not among the steps.
- Session queues, `PQueue` timeouts and the queueing of sender keys.
- Notifications, profile, pin, draft and session side effects of identifier updates and of combining conversations.
- Conversations are records named by their local id; aliasing of model objects is captured by that id only.
- MergePromises.MergeKeepsItsPromises: requires well-formed books (identifiers unique and of disjoint kinds, a PNI used as service id also in the PNI field, numbers with `+`), an ACI in the `aci` argument and a fresh new id.
- ConflictSweep.SweepSeparates: takes combining as atomic and assumes that only private conversations have a service id, PNI or number, as combining a private and a group conversation does nothing.
- SweepLookups.LookupsFailExactlyWhen: assumes that equal group ids have equal v2 ids, as deriving them gives; `LookupsExactExactlyWhen` does without.
- ChallengeQueue.EveryRunIsSafe: persistence is atomic with the change it records; `load`, `maybeSolve` and retries scheduled from elsewhere are not steps.
- SqlKey.EveryLaunchReturnsTheFirstKey: assumes that decryption, if it does not fail, inverts encryption, and is wrong only while the plaintext copy is kept.
- OrphanSweep.SweepIsSafe: a message can name only a file written after the listing, one that a message already names, or one under a claim it holds; conversation attachments are taken off before the first page; downloads appear in the code of the sweep and not in its interleaving.
- OrphanSweep.DeleteOrphaned: deleted means handed to the deleter, whose own failures are not modelled.
- ChainReport.ReportIsExact: digests are fresh, log order is real order, and no unlogged process deletes the state file.
- CryptoFraming.AttachmentRoundTrip: the primitives are abstract functions with the lengths and the round trip their standards give; nothing is claimed about their strength.
- Padding of profile names, the streaming attachment pipeline, stickers, badges and draft attachments: they would add only easier members.
- User interface, IPC, relay and resource services, remote configuration and the persona replica engine (not part of this model).
