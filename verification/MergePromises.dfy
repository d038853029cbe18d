/** What callers of `maybeMergeContacts` rely on, read off its closed form. */
module MergePromises {
  import opened Options
  import opened ConversationIndex
  import opened MergeContacts
  import opened MergeSpec
  import MergeProof

  predicate HoldsAll(a: Attrs, aci: Option<string>, e164: Option<string>, pni: Option<string>) {
    && (aci.Some? ==> a.serviceId == aci)
    && (e164.Some? ==> a.e164 == e164)
    && (pni.Some? ==> a.pni == pni)
  }

  /** Every identifier given leads to `t`. */
  predicate ResolvesTo(b: Book, t: ConvId, aci: Option<string>, e164: Option<string>, pni: Option<string>) {
    && (aci.Some? ==> LookupOpt(b, aci) == Some(t))
    && (e164.Some? ==> LookupOpt(b, e164) == Some(t))
    && (pni.Some? ==> LookupOpt(b, pni) == Some(t))
  }

  predicate OnlyLoses(a: Attrs, a': Attrs) {
    && (a'.serviceId == a.serviceId || a'.serviceId.None?)
    && (a'.e164 == a.e164 || a'.e164.None?)
    && (a'.pni == a.pni || a'.pni.None?)
    && a'.groupId == a.groupId
  }

  lemma HolderIsTarget(b: Book, t: ConvId, key: Field, v: string)
    requires Indexed(b) && WellFormed(b.convs) && NoClash(b.convs, Some(v)) && KindOf(key, v)
    requires t in b.convs && Get(b.convs[t], key) == Some(v)
    ensures Lookup(b, v) == Some(t)
  {
    LookupFindsHolder(b, key, v);
    var c := Lookup(b, v).value;
    assert c != t ==> Apart(b.convs[c], b.convs[t]);
  }

  lemma NoClashAfter(convs: map<ConvId, Attrs>, convs': map<ConvId, Attrs>, t: ConvId, aci: Option<string>,
                     e164: Option<string>, pni: Option<string>, v: Option<string>)
    requires IsMerged(convs, convs', t, aci, e164, pni) && NoClash(convs, v) && v != Some(t)
    ensures NoClash(convs', v)
  {
    if v.Some? {
      forall c | c in convs' ensures convs'[c].groupId != v {
        assert c in convs ==> convs'[c].groupId == convs[c].groupId;
      }
    }
  }

  lemma TargetResolves(b: Book, t: ConvId, aci: Option<string>, e164: Option<string>, pni: Option<string>)
    requires Indexed(b) && WellFormed(b.convs) && GoodInput(b.convs, aci, e164, pni)
    requires t in b.convs && HoldsAll(b.convs[t], aci, e164, pni)
    ensures ResolvesTo(b, t, aci, e164, pni)
  {
    if aci.Some? { HolderIsTarget(b, t, ServiceId, aci.value); }
    if e164.Some? { HolderIsTarget(b, t, E164, e164.value); }
    if pni.Some? { HolderIsTarget(b, t, Pni, pni.value); }
  }

  lemma InputStaysGood(convs: map<ConvId, Attrs>, convs': map<ConvId, Attrs>, t: ConvId, aci: Option<string>,
                       e164: Option<string>, pni: Option<string>)
    requires IsMerged(convs, convs', t, aci, e164, pni) && GoodInput(convs, aci, e164, pni)
    requires aci != Some(t) && e164 != Some(t) && pni != Some(t)
    ensures GoodInput(convs', aci, e164, pni)
  {
    NoClashAfter(convs, convs', t, aci, e164, pni, aci);
    NoClashAfter(convs, convs', t, aci, e164, pni, e164);
    NoClashAfter(convs, convs', t, aci, e164, pni, pni);
  }

  lemma OthersLoseAndMerge(convs: map<ConvId, Attrs>, convs': map<ConvId, Attrs>, t: ConvId, aci: Option<string>,
                           e164: Option<string>, pni: Option<string>, merges: seq<ConvId>)
    requires IsMerged(convs, convs', t, aci, e164, pni) && MergesAre(convs, t, e164, pni, merges)
    ensures forall c :: c in convs && c != t ==> OnlyLoses(convs[c], convs'[c])
    ensures forall c :: Times(merges, c) == MergeCount(convs, convs', t, e164, pni, c)
  {
    forall c | c in convs && c != t
      ensures OnlyLoses(convs[c], convs'[c])
      ensures Handed(convs, t, e164, pni, c) == MergeCount(convs, convs', t, e164, pni, c)
    {
      assert convs'[c] == Stripped(convs[c], e164, pni);
    }
    forall c ensures Times(merges, c) == MergeCount(convs, convs', t, e164, pni, c) {
      assert Times(merges, c) == Handed(convs, t, e164, pni, c);
    }
  }

  /** A conversation other than the target that lost its last identifier is
      handed to merge: twice if it held both the number and the PNI, as the
      matches are looked up before the loop, and else once. */
  function MergeCount(convs: map<ConvId, Attrs>, convs': map<ConvId, Attrs>, t: ConvId, e164: Option<string>,
                      pni: Option<string>, c: ConvId): nat
  {
    if !(c in convs && c in convs' && c != t && !NoIds(convs[c]) && NoIds(convs'[c])) then 0
    else if e164.Some? && pni.Some? && convs[c].e164 == e164 && convs[c].pni == pni then 2
    else 1
  }

  /** The conversation returned holds everything given and is what each
      identifier now leads to; identifiers stay unique; every other
      conversation keeps or loses, never gains; and those handed to merge are
      exactly the conversations that lost their last identifier, each as often
      as `MergeCount` says. */
  lemma MergeKeepsItsPromises(b: Book, aci: Option<string>, e164: Option<string>, pni: Option<string>, newId: ConvId)
    requires Ready(b, aci, e164, pni, newId) && (aci.Some? || e164.Some? || pni.Some?)
    ensures MaybeMergeContacts(b, aci, e164, pni, newId).Some?
    ensures var r := MaybeMergeContacts(b, aci, e164, pni, newId).value;
            && Indexed(r.book) && WellFormed(r.book.convs)
            && r.book.convs.Keys == b.convs.Keys + {r.target}
            && HoldsAll(r.book.convs[r.target], aci, e164, pni)
            && ResolvesTo(r.book, r.target, aci, e164, pni)
            && (forall c :: c in b.convs && c != r.target ==> OnlyLoses(b.convs[c], r.book.convs[c]))
            && (forall c :: Times(r.merges, c) == MergeCount(b.convs, r.book.convs, r.target, e164, pni, c))
  {
    MergeProof.MergeIsClosedForm(b, aci, e164, pni, newId);
    var r := MaybeMergeContacts(b, aci, e164, pni, newId).value;
    ChosenIsNotAnInput(b, aci, e164, pni, newId);
    InputStaysGood(b.convs, r.book.convs, r.target, aci, e164, pni);
    TargetResolves(r.book, r.target, aci, e164, pni);
    OthersLoseAndMerge(b.convs, r.book.convs, r.target, aci, e164, pni, r.merges);
  }

  lemma ChosenIsNotAnInput(b: Book, aci: Option<string>, e164: Option<string>, pni: Option<string>, newId: ConvId)
    requires Ready(b, aci, e164, pni, newId)
    ensures var t := Chosen(b, aci, e164, pni, newId); aci != Some(t) && e164 != Some(t) && pni != Some(t)
  {
    MergeProof.Holders(b, aci, e164, pni);
  }

  /** Once every identifier leads to one conversation, asking again changes
      nothing, whatever new id is on offer. */
  lemma AskingAgainChangesNothing(b: Book, t: ConvId, aci: Option<string>, e164: Option<string>, pni: Option<string>,
                                  newId: ConvId)
    requires t in b.convs && HoldsAll(b.convs[t], aci, e164, pni) && ResolvesTo(b, t, aci, e164, pni)
    requires aci.Some? || e164.Some? || pni.Some?
    ensures MaybeMergeContacts(b, aci, e164, pni, newId) == Some(Merged(b, t, []))
  {
    var start := Local(b, None, [], []);
    var found := Local(b, Some(t), [], []);
    var l1 := AfterAci(b, aci, pni, newId);
    assert l1 == if aci.Some? then found else start;
    var l2 := AfterE164(b, aci, e164, pni, newId);
    assert l2 == if aci.Some? || e164.Some? then found else start by {
      if e164.Some? && aci.Some? { MergeProof.ProcessKnown(found, t, E164, e164.value, Some(t), pni, newId); }
    }
    if pni.Some? && (aci.Some? || e164.Some?) {
      MergeProof.ProcessKnown(found, t, Pni, pni.value, Some(t), pni, newId);
    }
  }

  /** So a second identical call is a no-op that returns the same conversation. */
  lemma MergeIsIdempotent(b: Book, aci: Option<string>, e164: Option<string>, pni: Option<string>, newId: ConvId,
                          newId': ConvId)
    requires Ready(b, aci, e164, pni, newId) && (aci.Some? || e164.Some? || pni.Some?)
    ensures MaybeMergeContacts(b, aci, e164, pni, newId).Some?
    ensures var r := MaybeMergeContacts(b, aci, e164, pni, newId).value;
            MaybeMergeContacts(r.book, aci, e164, pni, newId') == Some(r.(merges := []))
  {
    MergeKeepsItsPromises(b, aci, e164, pni, newId);
    var r := MaybeMergeContacts(b, aci, e164, pni, newId).value;
    AskingAgainChangesNothing(r.book, r.target, aci, e164, pni, newId');
  }

  /** The promise needs a PNI in the service id slot to be in the PNI slot as
      well: otherwise asking by PNI finds the conversation and returns it
      without ever filling the slot. */
  lemma PniOnlyAsServiceIdIsLeftSo(b: Book, c: ConvId, pni: string, newId: ConvId)
    requires c in b.convs && b.convs[c].serviceId == Some(pni) && b.convs[c].pni.None? && Lookup(b, pni) == Some(c)
    ensures MaybeMergeContacts(b, None, None, Some(pni), newId) == Some(Merged(b, c, []))
    ensures !HoldsAll(b.convs[c], None, None, Some(pni))
  {
  }

  // ------------------------------------------------------------ merged twice

  /** `t` is known by its ACI, and `m` by number and PNI. */
  function TwoContacts(t: ConvId, m: ConvId, aci: string, e164: string, pni: string): map<ConvId, Attrs> {
    map[t := BLANK.(serviceId := Some(aci)), m := BLANK.(e164 := Some(e164), pni := Some(pni))]
  }

  function TwoContactsBook(t: ConvId, m: ConvId, aci: string, e164: string, pni: string): Book {
    Add(Add(EMPTY_BOOK, t, BLANK.(serviceId := Some(aci))), m, BLANK.(e164 := Some(e164), pni := Some(pni)))
  }

  lemma EmptyIsIndexed()
    ensures Indexed(EMPTY_BOOK)
  {
    forall f ensures Inverse(IndexOf(EMPTY_BOOK, f), EMPTY_BOOK.convs, f) {
      match f { case ServiceId => case E164 => case Pni => case GroupId => }
    }
  }

  lemma TwoContactsIndexed(t: ConvId, m: ConvId, aci: string, e164: string, pni: string)
    requires t != m
    ensures var b := TwoContactsBook(t, m, aci, e164, pni);
            Indexed(b) && b.convs == TwoContacts(t, m, aci, e164, pni)
  {
    var a, d := BLANK.(serviceId := Some(aci)), BLANK.(e164 := Some(e164), pni := Some(pni));
    var b1 := Add(EMPTY_BOOK, t, a);
    EmptyIsIndexed();
    AddKeepsIndexed(EMPTY_BOOK, t, a);
    assert b1.convs == map[t := a];
    forall f ensures Unheld(b1.convs, m, f, Get(d, f)) {
      match f { case ServiceId => case E164 => case Pni => case GroupId => }
    }
    AddKeepsIndexed(b1, m, d);
  }

  ghost predicate Tellable(t: ConvId, m: ConvId, aci: string, e164: string, pni: string, newId: ConvId) {
    && IsAci(aci) && IsE164(e164) && IsPni(pni) && t != m && newId != t && newId != m
    && {t, m, newId} !! {aci, e164, pni}
  }

  lemma TwoContactsGood(t: ConvId, m: ConvId, aci: string, e164: string, pni: string, newId: ConvId)
    requires Tellable(t, m, aci, e164, pni, newId)
    ensures var convs := TwoContacts(t, m, aci, e164, pni);
            && WellFormed(convs) && GoodInput(convs, Some(aci), Some(e164), Some(pni))
            && newId !in convs && aci != newId && e164 != newId && pni != newId
  {
    assert newId in {t, m, newId} && t in {t, m, newId} && m in {t, m, newId};
    assert aci in {aci, e164, pni} && e164 in {aci, e164, pni} && pni in {aci, e164, pni};
  }

  lemma {:induction false} JustTwice(merges: seq<ConvId>, m: ConvId)
    requires forall c :: Times(merges, c) == if c == m then 2 else 0
    ensures merges == [m, m]
  {
    forall i | 0 <= i < |merges| ensures merges[i] == m { assert Times(merges, merges[i]) > 0; }
    AllTheSame(merges, m);
  }

  lemma {:induction false} AllTheSame(merges: seq<ConvId>, m: ConvId)
    requires forall i :: 0 <= i < |merges| ==> merges[i] == m
    ensures Times(merges, m) == |merges|
    decreases |merges|
  {
    if merges != [] {
      assert merges == [merges[0]] + merges[1..];
      AllTheSame(merges[1..], m);
    }
  }

  lemma HandedTwice(b: Book, t: ConvId, m: ConvId, aci: string, e164: string, pni: string, newId: ConvId)
    requires Ready(b, Some(aci), Some(e164), Some(pni), newId) && t != m
    requires b.convs == TwoContacts(t, m, aci, e164, pni)
    ensures var r := MaybeMergeContacts(b, Some(aci), Some(e164), Some(pni), newId);
            r.Some? && r.value.target == t && r.value.merges == [m, m]
  {
    MergeProof.MergeIsClosedForm(b, Some(aci), Some(e164), Some(pni), newId);
    HolderIsTarget(b, t, ServiceId, aci);
    AllHandedTwice(MaybeMergeContacts(b, Some(aci), Some(e164), Some(pni), newId).value.merges, t, m, aci, e164, pni);
  }

  lemma AllHandedTwice(merges: seq<ConvId>, t: ConvId, m: ConvId, aci: string, e164: string, pni: string)
    requires t != m && MergesAre(TwoContacts(t, m, aci, e164, pni), t, Some(e164), Some(pni), merges)
    ensures merges == [m, m]
  {
    forall c ensures Times(merges, c) == if c == m then 2 else 0 { CountsTwo(t, m, aci, e164, pni, c); }
    JustTwice(merges, m);
  }

  lemma CountsTwo(t: ConvId, m: ConvId, aci: string, e164: string, pni: string, c: ConvId)
    requires t != m
    ensures Handed(TwoContacts(t, m, aci, e164, pni), t, Some(e164), Some(pni), c) == if c == m then 2 else 0
  {
  }

  /** Asking for all three at once hands `m` to merge twice. */
  lemma SameContactIsMergedTwice(t: ConvId, m: ConvId, aci: string, e164: string, pni: string, newId: ConvId)
    requires Tellable(t, m, aci, e164, pni, newId)
    ensures var b := TwoContactsBook(t, m, aci, e164, pni);
            var r := MaybeMergeContacts(b, Some(aci), Some(e164), Some(pni), newId);
            && Ready(b, Some(aci), Some(e164), Some(pni), newId)
            && r.Some? && r.value.target == t && r.value.merges == [m, m]
  {
    TwoContactsIndexed(t, m, aci, e164, pni);
    TwoContactsGood(t, m, aci, e164, pni, newId);
    HandedTwice(TwoContactsBook(t, m, aci, e164, pni), t, m, aci, e164, pni, newId);
  }
}
