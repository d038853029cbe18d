/** The identity-key record of a contact: which public key we hold, whether
    the user verified it, and whether we may send to it. */
module IdentityKeys {
  import opened Options

  type PublicKey = seq<int>

  datatype Status = Default | Verified | Unverified

  datatype Record = Record(key: PublicKey, firstUse: bool, timestamp: nat, verified: Status, nonblockingApproval: bool)

  const TIMESTAMP_THRESHOLD := 5000

  /** `#isNonBlockingApprovalRequired`. */
  predicate NeedsApproval(r: Record, now: int) {
    !r.firstUse && r.timestamp > now - TIMESTAMP_THRESHOLD && !r.nonblockingApproval
  }

  /** `isTrustedForSending`; `previousKey` is the one saved on the conversation. */
  predicate TrustedForSending(r: Option<Record>, previousKey: Option<PublicKey>, key: PublicKey, now: int) {
    if r.None? then previousKey.None? || previousKey.value == key
    else r.value.key == key && !r.value.verified.Unverified? && !NeedsApproval(r.value, now)
  }

  /** The schema that `validateIdentityKey` checks, beyond the types. */
  predicate PassesSchema(r: Record) { r.timestamp > 0 }

  /** `SetVerifiedExtra`: properties that may be missing. */
  datatype Extra = Extra(firstUse: Option<bool>, nonblockingApproval: Option<bool>)

  datatype Event =
    | SaveIdentity(key: PublicKey, nonblocking: bool, noOverwrite: bool, ours: bool, now: nat)
    | SetApproval(nonblocking: bool)
    | SetVerified(status: Status, extra: Extra)
    | UpdateAfterSync(status: Status, key: PublicKey, now: nat)
    | RemoveIdentityKey

  function Saved(r: Option<Record>, key: PublicKey, nonblocking: bool, noOverwrite: bool, ours: bool,
                 now: nat): Option<Record> {
    if r.None? then Some(Record(key, true, now, Default, nonblocking))
    else if noOverwrite then r
    else if r.value.key != key then
      if ours then r
      else Some(Record(key, false, now, if r.value.verified.Default? then Default else Unverified, nonblocking))
    else if NeedsApproval(r.value, now) then Some(r.value.(nonblockingApproval := nonblocking))
    else r
  }

  /** Calls that throw leave the record as it is. */
  function Step(r: Option<Record>, e: Event): Option<Record> {
    match e
    case SaveIdentity(key, nb, keep, ours, now) => Saved(r, key, nb, keep, ours, now)
    case SetApproval(nb) => if r.None? then r else Some(r.value.(nonblockingApproval := nb))
    case SetVerified(status, x) =>
      if r.None? || !PassesSchema(r.value) then r
      else Some(r.value.(verified := status,
                         firstUse := if x.firstUse.Some? then x.firstUse.value else r.value.firstUse,
                         nonblockingApproval := if x.nonblockingApproval.Some? then x.nonblockingApproval.value
                                                else r.value.nonblockingApproval))
    case UpdateAfterSync(status, key, now) =>
      if (r.Some? && r.value.key == key && r.value.verified == status) || now == 0 then r
      else Some(Record(key, r.None?, now, status, true))
    case RemoveIdentityKey => None
  }

  function Run(r: Option<Record>, es: seq<Event>): Option<Record>
    decreases |es|
  {
    if es == [] then r else Run(Step(r, es[0]), es[1..])
  }

  // -------------------------------------------------- a replaced verified key

  lemma {:induction false} UnverifiedStays(r: Option<Record>, es: seq<Event>)
    requires r.Some? && r.value.verified.Unverified?
    requires forall i :: 0 <= i < |es| ==> es[i].SaveIdentity? || es[i].SetApproval?
    ensures Run(r, es).Some? && Run(r, es).value.verified.Unverified?
    decreases |es|
  {
    if es != [] {
      assert es[0].SaveIdentity? || es[0].SetApproval?;
      UnverifiedStays(Step(r, es[0]), es[1..]);
    }
  }

  /** Once the key of a verified contact has been replaced, no key at all is
      trusted for sending, at any later time and however often keys are saved
      or approved, until someone verifies, syncs or removes. */
  lemma ReplacedKeyIsNeverTrusted(r: Record, key: PublicKey, nonblocking: bool, now: nat, es: seq<Event>,
                                  anyKey: PublicKey, previousKey: Option<PublicKey>, later: int)
    requires r.verified.Verified? && key != r.key
    requires forall i :: 0 <= i < |es| ==> es[i].SaveIdentity? || es[i].SetApproval?
    ensures !TrustedForSending(Run(Saved(Some(r), key, nonblocking, false, false, now), es), previousKey, anyKey, later)
  {
    UnverifiedStays(Saved(Some(r), key, nonblocking, false, false, now), es);
  }

  // ------------------------------------------------------------ who is trusted

  /** Without a record a key is trusted exactly if no previous one is known, or
      that very one is. */
  lemma TrustWithoutRecord(previousKey: Option<PublicKey>, key: PublicKey, now: int)
    ensures TrustedForSending(None, previousKey, key, now) <==> previousKey.None? || previousKey == Some(key)
  {
  }

  /** The event gives the contact the key `key`, if it has any effect. */
  predicate Brings(e: Event, key: PublicKey) {
    (e.SaveIdentity? && e.key == key) || (e.UpdateAfterSync? && e.key == key)
  }

  /** The event does not take a key away: it is no removal, and no save or sync
      of another key but one that is not to overwrite, is about ourselves, or
      fails. */
  predicate Leaves(e: Event, key: PublicKey) {
    && !e.RemoveIdentityKey?
    && (e.SaveIdentity? && e.key != key ==> e.noOverwrite || e.ours)
    && (e.UpdateAfterSync? && e.key != key ==> e.now == 0)
  }

  /** In every state reached from no record, the key on record is the one that
      was saved or synced last: some event brought it, and none after that took
      it away. */
  lemma {:induction false} HeldKeyWasLast(es: seq<Event>) returns (i: nat)
    requires Run(None, es).Some?
    ensures i < |es| && Brings(es[i], Run(None, es).value.key)
    ensures forall j :: i < j < |es| ==> Leaves(es[j], Run(None, es).value.key)
    decreases |es|
  {
    var front, e := es[..|es| - 1], es[|es| - 1];
    RunOneMore(None, front, e);
    assert es == front + [e];
    var was, now := Run(None, front), Run(None, es).value;
    if was.Some? && was.value.key == now.key && !e.RemoveIdentityKey? {
      i := HeldKeyWasLast(front);
    } else {
      i := |es| - 1;
    }
  }

  lemma {:induction false} RunOneMore(r: Option<Record>, es: seq<Event>, e: Event)
    ensures Run(r, es + [e]) == Step(Run(r, es), e)
    decreases |es|
  {
    if es == [] {
      assert es + [e] == [e] && [e][1..] == [];
    } else {
      assert (es + [e])[1..] == es[1..] + [e];
      RunOneMore(Step(r, es[0]), es[1..], e);
    }
  }

  /** So in every such state the trusted key, if there is one, is the key last
      saved or synced, and that one is trusted exactly if the contact is not
      unverified and, unless it was the first or 5 seconds have passed, it was
      approved. */
  lemma TrustedExactlyWhen(es: seq<Event>, previousKey: Option<PublicKey>, key: PublicKey, later: int) returns (i: nat)
    requires Run(None, es).Some?
    ensures var r := Run(None, es).value;
            && i < |es| && Brings(es[i], r.key) && (forall j :: i < j < |es| ==> Leaves(es[j], r.key))
            && (TrustedForSending(Run(None, es), previousKey, key, later) <==>
                  key == r.key && r.verified != Unverified
                  && (r.firstUse || r.timestamp + 5000 <= later || r.nonblockingApproval))
  {
    i := HeldKeyWasLast(es);
  }

  /** The first key saved is trusted at once, and no other. */
  lemma FirstKeyIsTrusted(key: PublicKey, nonblocking: bool, noOverwrite: bool, ours: bool, now: nat,
                          previousKey: Option<PublicKey>, anyKey: PublicKey, later: int)
    ensures TrustedForSending(Step(None, SaveIdentity(key, nonblocking, noOverwrite, ours, now)), previousKey, anyKey,
                              later)
            <==> anyKey == key
  {
  }

  /** A key that replaces one never verified is trusted, and no other is, once it
      is approved or 5 seconds old. */
  lemma ReplacementIsTrustedExactlyWhen(r: Record, key: PublicKey, nonblocking: bool, now: nat,
                                        previousKey: Option<PublicKey>, anyKey: PublicKey, later: int)
    requires r.verified.Default? && key != r.key
    ensures var r' := Step(Some(r), SaveIdentity(key, nonblocking, false, false, now));
            && (TrustedForSending(r', previousKey, anyKey, later) <==>
                  anyKey == key && (nonblocking || now + 5000 <= later))
            && (TrustedForSending(Step(r', SetApproval(true)), previousKey, anyKey, later) <==> anyKey == key)
  {
  }

  /** What the other events leave of a record: our own key and a save that is not
      to overwrite change nothing, verification sets the status asked for, and
      sync a trusted key of the status asked for, unless that is unverified. */
  lemma EventsDoWhatTheySay(r: Record, key: PublicKey, nb: bool, status: Status, now: nat,
                            previousKey: Option<PublicKey>, later: int)
    ensures Step(Some(r), SaveIdentity(key, nb, true, false, now)) == Some(r)
    ensures key != r.key ==> Step(Some(r), SaveIdentity(key, nb, false, true, now)) == Some(r)
    ensures Step(Some(r), RemoveIdentityKey) == None
    ensures Step(Some(r), SaveIdentity(r.key, nb, false, false, now))
            == Some(if !r.firstUse && now < r.timestamp + 5000 && !r.nonblockingApproval
                    then r.(nonblockingApproval := nb) else r)
    ensures key != r.key ==>
              var u := Step(Some(r), SaveIdentity(key, nb, false, false, now));
              u.Some? && (u.value.verified == if r.verified == Default then Default else Unverified)
    ensures r.timestamp > 0 ==> Step(Some(r), SetVerified(status, Extra(Some(true), Some(nb))))
                                == Some(r.(verified := status, firstUse := true, nonblockingApproval := nb))
    ensures var v := Step(Some(r), SetVerified(status, Extra(None, None)));
            v == if r.timestamp > 0 then Some(r.(verified := status)) else Some(r)
    ensures now > 0 ==> Step(None, UpdateAfterSync(status, key, now)) == Some(Record(key, true, now, status, true))
    ensures now > 0 && (key != r.key || status != r.verified) ==>
              Step(Some(r), UpdateAfterSync(status, key, now)) == Some(Record(key, false, now, status, true))
    ensures now > 0 && (key != r.key || status != r.verified) ==>
              var u := Step(Some(r), UpdateAfterSync(status, key, now));
              u.Some? && u.value.verified == status
              && (TrustedForSending(u, previousKey, key, later) <==> status != Unverified)
  {
  }

  // ---------------------------------------------------------- what is verified

  /** The key that the latest explicit verification vouched for. */
  function VouchedAfter(r: Option<Record>, e: Event, vouched: Option<PublicKey>): Option<PublicKey> {
    match e
    case SetVerified(Verified, _) => if r.Some? && PassesSchema(r.value) then Some(r.value.key) else vouched
    case UpdateAfterSync(Verified, key, now) => if now == 0 then vouched else Some(key)
    case _ => vouched
  }

  function Vouched(r: Option<Record>, es: seq<Event>, vouched: Option<PublicKey>): Option<PublicKey>
    decreases |es|
  {
    if es == [] then vouched else Vouched(Step(r, es[0]), es[1..], VouchedAfter(r, es[0], vouched))
  }

  /** In every run a record is verified only for the very key that the latest
      explicit verification, by the user or by sync, was about. */
  lemma {:induction false} VerifiedOnlyForVouchedKey(r: Option<Record>, es: seq<Event>, vouched: Option<PublicKey>)
    requires r.Some? && r.value.verified.Verified? ==> vouched == Some(r.value.key)
    ensures Run(r, es).Some? && Run(r, es).value.verified.Verified?
            ==> Vouched(r, es, vouched) == Some(Run(r, es).value.key)
    decreases |es|
  {
    if es != [] {
      VerifiedOnlyForVouchedKey(Step(r, es[0]), es[1..], VouchedAfter(r, es[0], vouched));
    }
  }

  // ------------------------------------------------------------------ the object

  datatype Change = NewOrUnchanged | ReplacedExisting

  class IdentityStore {
    var identityKeys: map<string, Record>

    function Get(id: string): Option<Record>
      reads this
    {
      if id in identityKeys then Some(identityKeys[id]) else None
    }

    /** `saveIdentity`. The change reported is a replacement exactly when a
        different key took the place of an existing one. */
    method SaveIdentity(id: string, key: PublicKey, nonblocking: bool, noOverwrite: bool, ours: bool, now: nat)
      returns (change: Change)
      modifies this
      ensures Get(id) == Saved(old(Get(id)), key, nonblocking, noOverwrite, ours, now)
      ensures forall other :: other != id ==> Get(other) == old(Get(other))
      ensures change.ReplacedExisting? <==> old(Get(id)).Some? && Get(id).value.key != old(Get(id)).value.key
    {
      if id !in identityKeys {
        identityKeys := identityKeys[id := Record(key, true, now, Default, nonblocking)];
        return NewOrUnchanged;
      }
      var record := identityKeys[id];
      if noOverwrite { return NewOrUnchanged; }
      if record.key != key {
        if ours { return NewOrUnchanged; }
        var status := if record.verified.Verified? || record.verified.Unverified? then Unverified else Default;
        identityKeys := identityKeys[id := Record(key, false, now, status, nonblocking)];
        return ReplacedExisting;
      }
      if NeedsApproval(record, now) {
        identityKeys := identityKeys[id := record.(nonblockingApproval := nonblocking)];
      }
      return NewOrUnchanged;
    }

    /** `updateIdentityAfterSync`. No answer is its throw, when a record has to
        be written and the clock reads 0. A message is due exactly when the
        contact became, or ceased to be, verified while its key stayed the same
        or was not known before. */
    method UpdateIdentityAfterSync(id: string, status: Status, key: PublicKey, now: nat)
      returns (addMessage: Option<bool>)
      modifies this
      ensures Get(id) == Step(old(Get(id)), UpdateAfterSync(status, key, now))
      ensures forall other :: other != id ==> Get(other) == old(Get(other))
      ensures addMessage.None? <==>
                now == 0 && !(old(Get(id)).Some? && old(Get(id)).value.key == key
                              && old(Get(id)).value.verified == status)
      ensures addMessage.Some? ==> Get(id).Some? && Get(id).value.key == key && Get(id).value.verified == status
      ensures var was := old(Get(id));
              addMessage.Some? ==>
                (addMessage.value <==> (was.Some? ==> was.value.key == key)
                                       && (status.Verified? <==> !(was.Some? && was.value.verified.Verified?)))
    {
      var hadEntry := id in identityKeys;
      var keyMatches := hadEntry && identityKeys[id].key == key;
      var statusMatches := keyMatches && identityKeys[id].verified == status;
      var wasVerified := hadEntry && identityKeys[id].verified.Verified?;
      if !keyMatches || !statusMatches {
        var record := Record(key, !hadEntry, now, status, true);
        if !PassesSchema(record) { return None; }
        identityKeys := identityKeys[id := record];
      }
      if hadEntry && !keyMatches { return Some(false); }
      if status.Verified? && !wasVerified { return Some(true); }
      if !status.Verified? && hadEntry && wasVerified { return Some(true); }
      return Some(false);
    }
  }
}
