/** The controller's lookups after a sweep that started from freshly generated
    ones: they are exact unless some turn of the sweep removes the conversation
    that a lookup names for an identifier and leaves another holder of it. */
module SweepLookups {
  import opened Options
  import opened ConversationIndex
  import opened ConflictSweep
  import opened SweepLosses

  /** The controller's state, as the sweep has it. */
  function BookOf(s: Sweep): Book {
    Book(s.list, map c | c in s.list && c in s.convs :: s.convs[c].ids,
         s.look.byServiceId, s.look.byE164, s.look.byPni, s.look.byGroupId, s.look.byId)
  }

  /** Combining removes the obsolete conversation as `#removeConversation` does. */
  lemma CombineIsRemove(s: Sweep, current: ConvId, obsolete: ConvId)
    requires obsolete in s.list && obsolete in s.convs
    requires Of(s, obsolete).kind.Private? == Of(s, current).kind.Private?
    ensures BookOf(Combine(s, current, obsolete)) == Remove(BookOf(s), obsolete)
  {
    var s' := Combine(s, current, obsolete);
    forall d ensures d in s'.list <==> d in s.list && d != obsolete { InWithout(s.list, obsolete, d); }
    assert BookOf(s').convs == BookOf(s).convs - {obsolete};
  }

  function WithoutNumber(a: Conv): Conv { a.(ids := a.ids.(e164 := None)) }

  /** Taking the number of an object shows in the controller if it is listed. */
  lemma StripInBook(s: Sweep, s': Sweep, y: ConvId)
    requires y in s.convs && s' == s.(convs := s.convs[y := WithoutNumber(s.convs[y])])
    ensures var b := BookOf(s);
            BookOf(s') == b.(convs := if y in b.convs then b.convs[y := b.convs[y].(e164 := None)] else b.convs)
  {
    var b := BookOf(s);
    assert BookOf(s').convs == if y in b.convs then b.convs[y := b.convs[y].(e164 := None)] else b.convs;
  }

  // ---------------------------------------------------- generating the lookups

  function Ids(convs: map<ConvId, Conv>): map<ConvId, Attrs> { map c | c in convs :: convs[c].ids }

  function IdsOf(ids: map<ConvId, Attrs>, c: ConvId): Attrs { if c in ids then ids[c] else BLANK }

  /** The field that lets an entry of `#addToLookup` stay. */
  function Better(f: Field): Option<Field> {
    match f
    case ServiceId => Some(E164)
    case E164 => Some(ServiceId)
    case Pni => Some(ServiceId)
    case GroupId => None
  }

  /** One lookup of `#generateLookups`. */
  function GeneratedIndex(list: seq<ConvId>, ids: map<ConvId, Attrs>, f: Field): Index
    decreases |list|
  {
    if list == [] then map[]
    else
      var c := list[|list| - 1];
      Added(GeneratedIndex(list[..|list| - 1], ids, f), ids, Get(IdsOf(ids, c), f), c, Better(f))
  }

  function GeneratedById(list: seq<ConvId>, ids: map<ConvId, Attrs>): Index
    decreases |list|
  {
    if list == [] then map[]
    else
      var c := list[|list| - 1];
      Added(GeneratedById(list[..|list| - 1], ids), ids, Some(c), c, Some(ServiceId))
  }

  function Generated(list: seq<ConvId>, ids: map<ConvId, Attrs>): Lookups {
    Lookups(GeneratedIndex(list, ids, ServiceId), GeneratedIndex(list, ids, E164), GeneratedIndex(list, ids, Pni),
            GeneratedIndex(list, ids, GroupId), GeneratedById(list, ids))
  }

  function LookIn(l: Lookups, f: Field): Index {
    match f
    case ServiceId => l.byServiceId
    case E164 => l.byE164
    case Pni => l.byPni
    case GroupId => l.byGroupId
  }

  predicate Has(ids: map<ConvId, Attrs>, f: Field, k: string, c: ConvId) { Get(IdsOf(ids, c), f) == Some(k) }

  predicate Qualifies(ids: map<ConvId, Attrs>, f: Field, k: string, c: ConvId) {
    Has(ids, f, k, c) && Better(f).Some? && Get(IdsOf(ids, c), Better(f).value).Some?
  }

  function FirstBetter(list: seq<ConvId>, ids: map<ConvId, Attrs>, f: Field, k: string): Option<ConvId>
    decreases |list|
  {
    if list == [] then None
    else
      var r := FirstBetter(list[..|list| - 1], ids, f, k);
      if r.Some? then r
      else if Qualifies(ids, f, k, list[|list| - 1]) then Some(list[|list| - 1]) else None
  }

  function LastHolder(list: seq<ConvId>, ids: map<ConvId, Attrs>, f: Field, k: string): Option<ConvId>
    decreases |list|
  {
    if list == [] then None
    else if Has(ids, f, k, list[|list| - 1]) then Some(list[|list| - 1])
    else LastHolder(list[..|list| - 1], ids, f, k)
  }

  /** Whom the lookup names: the first holder that has the better field as well,
      or else the last holder. */
  function Winner(list: seq<ConvId>, ids: map<ConvId, Attrs>, f: Field, k: string): Option<ConvId> {
    var first := FirstBetter(list, ids, f, k);
    if first.Some? then first else LastHolder(list, ids, f, k)
  }

  lemma {:induction false} WinnerHolds(list: seq<ConvId>, ids: map<ConvId, Attrs>, f: Field, k: string)
    ensures var first := FirstBetter(list, ids, f, k);
            first.Some? ==> first.value in list && Qualifies(ids, f, k, first.value)
    ensures FirstBetter(list, ids, f, k).None? ==> forall c :: c in list ==> !Qualifies(ids, f, k, c)
    ensures var last := LastHolder(list, ids, f, k); last.Some? ==> last.value in list && Has(ids, f, k, last.value)
    decreases |list|
  {
    if list != [] {
      var front := list[..|list| - 1];
      WinnerHolds(front, ids, f, k);
      assert list == front + [list[|list| - 1]];
    }
  }

  lemma {:induction false} GeneratedIsWinner(list: seq<ConvId>, ids: map<ConvId, Attrs>, f: Field, k: string)
    requires forall c :: c in list ==> c in ids
    ensures At(GeneratedIndex(list, ids, f), k) == Winner(list, ids, f, k)
    decreases |list|
  {
    if list != [] {
      var front := list[..|list| - 1];
      GeneratedIsWinner(front, ids, f, k);
      WinnerHolds(front, ids, f, k);
      assert list == front + [list[|list| - 1]];
    }
  }

  lemma {:induction false} GeneratedByIdIsId(list: seq<ConvId>, ids: map<ConvId, Attrs>, k: string)
    requires Distinct(list)
    ensures At(GeneratedById(list, ids), k) == if k in list then Some(k) else None
    decreases |list|
  {
    if list != [] {
      var front, c := list[..|list| - 1], list[|list| - 1];
      GeneratedByIdIsId(front, ids, k);
      GeneratedByIdIsId(front, ids, c);
      assert list == front + [c] && c !in front;
    }
  }

  lemma {:induction false} FirstBetterOfPrefix(list: seq<ConvId>, ids: map<ConvId, Attrs>, f: Field, k: string, n: nat)
    requires n <= |list| && FirstBetter(list[..n], ids, f, k).Some?
    ensures FirstBetter(list, ids, f, k) == FirstBetter(list[..n], ids, f, k)
    decreases |list|
  {
    if n < |list| {
      assert list[..|list| - 1][..n] == list[..n];
      FirstBetterOfPrefix(list[..|list| - 1], ids, f, k, n);
    } else {
      assert list[..n] == list;
    }
  }

  // ------------------------------------------------------ lookups in the sweep

  /** `i` is what is left of `i0` when only the listed conversations stay. */
  ghost predicate Restricted(i: Index, i0: Index, list: seq<ConvId>) {
    forall k :: At(i, k) == if k in i0 && i0[k] in list then At(i0, k) else None
  }

  lemma RemovedRestricts(i: Index, i0: Index, list: seq<ConvId>, v: Option<string>, c: ConvId)
    requires Restricted(i, i0, list) && c in list
    requires forall k :: k in i0 && i0[k] == c ==> v == Some(k)
    ensures Restricted(Removed(i, v, c), i0, Without(list, c))
  {
    forall k ensures At(Removed(i, v, c), k) == if k in i0 && i0[k] in Without(list, c) then At(i0, k) else None {
      assert At(i, k) == if k in i0 && i0[k] in list then At(i0, k) else None;
      if k in i0 { InWithout(list, c, i0[k]); }
    }
  }

  /** Every entry whose conversation is listed is right about it. */
  ghost predicate Points(s: Sweep, i0: Index, f: Field) {
    forall k :: k in i0 && i0[k] in s.list ==> Get(Of(s, i0[k]).ids, f) == Some(k)
  }

  ghost predicate FieldInv(s: Sweep, l0: Lookups, f: Field) {
    Restricted(LookIn(s.look, f), LookIn(l0, f), s.list) && Points(s, LookIn(l0, f), f)
  }

  ghost predicate LookInv(s: Sweep, l0: Lookups) {
    && (forall f :: FieldInv(s, l0, f))
    && Restricted(s.look.byId, l0.byId, s.list) && (forall k :: k in l0.byId ==> l0.byId[k] == k)
    && Distinct(s.list)
  }

  lemma CombineKeepsField(s: Sweep, current: ConvId, obsolete: ConvId, l0: Lookups, f: Field)
    requires FieldInv(s, l0, f)
    ensures FieldInv(Combine(s, current, obsolete), l0, f)
  {
    var s' := Combine(s, current, obsolete);
    if s'.list != s.list || s'.look != s.look {
      var a := Of(s, obsolete).ids;
      RemovedRestricts(LookIn(s.look, f), LookIn(l0, f), s.list, Get(a, f), obsolete);
      assert LookIn(s'.look, f) == Removed(LookIn(s.look, f), Get(a, f), obsolete);
      forall k | k in LookIn(l0, f) && LookIn(l0, f)[k] in s'.list
        ensures Get(Of(s', LookIn(l0, f)[k]).ids, f) == Some(k)
      {
        InWithout(s.list, obsolete, LookIn(l0, f)[k]);
      }
    }
  }

  lemma CombineKeepsLook(s: Sweep, current: ConvId, obsolete: ConvId, l0: Lookups)
    requires LookInv(s, l0)
    ensures LookInv(Combine(s, current, obsolete), l0)
  {
    var s' := Combine(s, current, obsolete);
    forall f ensures FieldInv(s', l0, f) {
      assert FieldInv(s, l0, f);
      CombineKeepsField(s, current, obsolete, l0, f);
    }
    if s' != s {
      WithoutDrops(s.list, obsolete);
      RemovedRestricts(s.look.byId, l0.byId, s.list, Some(obsolete), obsolete);
    }
  }

  /** The invariant does not look at the sweep's own records. */
  lemma RecordsDoNotMatter(s: Sweep, s': Sweep, l0: Lookups)
    requires LookInv(s, l0) && s'.list == s.list && s'.convs == s.convs && s'.look == s.look
    ensures LookInv(s', l0)
  {
    forall f ensures FieldInv(s', l0, f) { assert FieldInv(s, l0, f); }
  }

  /** The number taken from `y` without `idUpdated` does no harm if the lookup
      names another for it. */
  lemma StripKeepsLook(s: Sweep, s': Sweep, l0: Lookups, y: ConvId, n: string)
    requires LookInv(s, l0) && y in s.convs && Of(s, y).ids.e164 == Some(n) && At(l0.byE164, n) != Some(y)
    requires s'.convs == s.convs[y := Of(s, y).(ids := Of(s, y).ids.(e164 := None))]
    requires s'.list == s.list && s'.look == s.look
    ensures LookInv(s', l0)
  {
    forall f ensures FieldInv(s', l0, f) {
      assert FieldInv(s, l0, f);
      forall k | k in LookIn(l0, f) && LookIn(l0, f)[k] in s'.list
        ensures Get(Of(s', LookIn(l0, f)[k]).ids, f) == Some(k)
      {
        assert Get(Of(s, LookIn(l0, f)[k]).ids, f) == Some(k);
      }
    }
  }

  lemma ServiceIdKeepsLook(s: Sweep, c: ConvId, l0: Lookups)
    requires LookInv(s, l0)
    ensures LookInv(ServiceIdBranch(s, c), l0)
  {
    var a, s' := Of(s, c), ServiceIdBranch(s, c);
    var e := RecordAt(s.byServiceId, a.ids.serviceId);
    var kept := if e.None? then s else if a.ids.e164.Some? then Combine(s, c, e.value) else Combine(s, e.value, c);
    if e.Some? {
      CombineKeepsLook(s, c, e.value, l0);
      CombineKeepsLook(s, e.value, c, l0);
    }
    RecordsDoNotMatter(kept, s', l0);
  }

  lemma PniKeepsLook(s: Sweep, c: ConvId, l0: Lookups)
    requires LookInv(s, l0)
    ensures LookInv(PniBranch(s, c), l0)
  {
    var s' := PniBranch(s, c);
    var x := RecordAt(s.byServiceId, Of(s, c).ids.pni);
    if x.Some? { CombineKeepsLook(s, c, x.value, l0); }
    RecordsDoNotMatter(if x.Some? && x.value != c then Combine(s, c, x.value) else s, s', l0);
  }

  lemma GroupKeepsLook(s: Sweep, c: ConvId, l0: Lookups)
    requires LookInv(s, l0)
    ensures LookInv(GroupBranch(s, c), l0)
  {
    var a, s' := Of(s, c), GroupBranch(s, c);
    var g := RecordAt(s.byGroupV2Id, V2Id(a));
    if g.Some? {
      CombineKeepsLook(s, c, g.value, l0);
      CombineKeepsLook(s, g.value, c, l0);
      var newer := a.kind.GroupV2? && !Of(s, g.value).kind.GroupV2?;
      RecordsDoNotMatter(if newer then Combine(s, c, g.value) else Combine(s, g.value, c), s', l0);
    } else {
      RecordsDoNotMatter(s, s', l0);
    }
  }

  lemma E164KeepsLook(s: Sweep, seen: set<ConvId>, c: ConvId, l0: Lookups)
    requires LookInv(s, l0) && Recorded(s, seen, c, 2) && Holding(s)
    requires forall y :: NumberStripped(s, c, y) ==> At(l0.byE164, Of(s, c).ids.e164.value) != Some(y)
    ensures LookInv(E164Branch(s, c), l0)
  {
    var a, s' := Of(s, c), E164Branch(s, c);
    var y := RecordAt(s.byE164, a.ids.e164);
    if y.None? {
      RecordsDoNotMatter(s, s', l0);
    } else if NumberStripped(s, c, y.value) {
      var n := a.ids.e164.value;
      assert RecordOf(s, NumberKey(n)) == y;
      StripKeepsLook(s, s', l0, y.value, n);
    } else {
      CombineKeepsLook(s, c, y.value, l0);
      CombineKeepsLook(s, y.value, c, l0);
      RecordsDoNotMatter(if a.ids.serviceId.Some? then Combine(s, c, y.value) else Combine(s, y.value, c), s', l0);
    }
  }

  lemma VisitKeepsLook(s: Sweep, pre: seq<ConvId>, seen: set<ConvId>, c: ConvId, l0: Lookups)
    requires LookInv(s, l0) && Visiting(s, pre, seen, c, 0) && Holding(s)
    requires forall y :: y in seen && Of(s, c).ids.e164.Some? && Of(s, c).ids.serviceId.Some? ==>
               At(l0.byE164, Of(s, c).ids.e164.value) != Some(y)
    ensures LookInv(Visit(s, c), l0)
  {
    VisitGoesThrough(s, pre, seen, c);
    FirstTwoRemove(s, pre, seen, c, c);
    var s1 := ServiceIdBranch(s, c);
    var s2 := PniBranch(s1, c);
    ServiceIdKeepsLook(s, c, l0);
    PniKeepsLook(s1, c, l0);
    ServiceIdHolds(s, c);
    PniHolds(s1, c);
    E164KeepsLook(s2, seen, c, l0);
    GroupKeepsLook(E164Branch(s2, c), c, l0);
  }

  // ----------------------------------------------------------- the whole sweep

  /** Conversations still to come are as they were. */
  lemma {:induction false} AheadUnchanged(original: seq<ConvId>, convs: map<ConvId, Conv>, look: Lookups, i: int,
                                          j: nat)
    requires Sweepable(original, convs) && -1 <= i < |original| && j <= i
    ensures Of(SweepTo(original, convs, look, i), original[j]) == convs[original[j]]
    decreases |original| - i
  {
    if i < |original| - 1 {
      AheadUnchanged(original, convs, look, i + 1, j);
      TurnBegins(original, convs, look, i + 1);
      StripsNobodyAhead(SweepTo(original, convs, look, i + 1), original[..i + 1], VisitedFrom(original, i + 2),
                        original[i + 1], original[j]);
    }
  }

  lemma StripsNobodyAhead(s: Sweep, pre: seq<ConvId>, seen: set<ConvId>, c: ConvId, x: ConvId)
    requires Visiting(s, pre, seen, c, 0) && x in pre
    ensures Of(Visit(s, c), x) == Of(s, x)
  {
    VisitRemoves(s, pre, seen, c, x);
    AheadStays(s, pre, seen, c, x);
    assert x !in seen + {c};
  }

  lemma {:induction false} VisitedIsLater(original: seq<ConvId>, i: nat, y: ConvId)
    requires i <= |original| && y in VisitedFrom(original, i)
    ensures exists m :: i <= m < |original| && original[m] == y
    decreases |original| - i
  {
    if y != original[i] { VisitedIsLater(original, i + 1, y); }
  }

  lemma LaterIsNotEarlier(original: seq<ConvId>, i: nat, y: ConvId)
    requires Distinct(original) && i <= |original| && y in VisitedFrom(original, i)
    ensures y !in original[..i]
  {
    VisitedIsLater(original, i, y);
    var m :| i <= m < |original| && original[m] == y;
  }

  /** Of those that have a number and a service id, the lookup names the first. */
  lemma WinnerIsEarly(original: seq<ConvId>, ids: map<ConvId, Attrs>, i: nat, n: string)
    requires i < |original| && Qualifies(ids, E164, n, original[i])
    ensures var w := Winner(original, ids, E164, n); w.Some? && w.value in original[..i + 1]
  {
    var upTo := original[..i + 1];
    assert upTo[i] == original[i] && original[i] in upTo;
    WinnerHolds(upTo, ids, E164, n);
    FirstBetterOfPrefix(original, ids, E164, n, i + 1);
  }

  /** A number is only ever taken from a conversation that `#_byE164` does not
      name: of those with a service id it names the first, and the one that
      keeps the number comes before the one that loses it. */
  lemma WinnerIsNotStripped(original: seq<ConvId>, ids: map<ConvId, Attrs>, i: nat, y: ConvId, n: string)
    requires Distinct(original) && (forall c :: c in original ==> c in ids) && i < |original|
    requires Qualifies(ids, E164, n, original[i]) && y in VisitedFrom(original, i + 1)
    ensures At(Generated(original, ids).byE164, n) != Some(y)
  {
    GeneratedIsWinner(original, ids, E164, n);
    WinnerIsEarly(original, ids, i, n);
    LaterIsNotEarlier(original, i + 1, y);
  }

  lemma LooksFresh(original: seq<ConvId>, convs: map<ConvId, Conv>)
    requires Sweepable(original, convs)
    ensures var l0 := Generated(original, Ids(convs)); LookInv(Start(original, convs, l0), l0)
  {
    var ids := Ids(convs);
    var l0 := Generated(original, ids);
    var s := Start(original, convs, l0);
    forall f ensures FieldInv(s, l0, f) {
      assert LookIn(l0, f) == GeneratedIndex(original, ids, f);
      forall k | k in LookIn(l0, f)
        ensures LookIn(l0, f)[k] in original && Get(Of(s, LookIn(l0, f)[k]).ids, f) == Some(k)
      {
        GeneratedIsWinner(original, ids, f, k);
        WinnerHolds(original, ids, f, k);
      }
    }
    forall k ensures At(l0.byId, k) == if k in original then Some(k) else None { GeneratedByIdIsId(original, ids, k); }
    forall k ensures At(l0.byId, k) == if k in l0.byId && l0.byId[k] in original then At(l0.byId, k) else None {
      assert At(l0.byId, k) == if k in original then Some(k) else None;
    }
    forall k | k in l0.byId ensures l0.byId[k] == k { assert At(l0.byId, k) == Some(l0.byId[k]); }
  }

  lemma {:induction false} SweepKeepsLook(original: seq<ConvId>, convs: map<ConvId, Conv>, l0: Lookups, i: int)
    requires Sweepable(original, convs) && -1 <= i < |original| && l0 == Generated(original, Ids(convs))
    ensures LookInv(SweepTo(original, convs, l0, i), l0)
    decreases |original| - i
  {
    if i == |original| - 1 {
      LooksFresh(original, convs);
    } else {
      SweepKeepsLook(original, convs, l0, i + 1);
      TurnKeepsLook(original, convs, l0, i + 1, SweepTo(original, convs, l0, i + 1));
    }
  }

  lemma TurnKeepsLook(original: seq<ConvId>, convs: map<ConvId, Conv>, l0: Lookups, i: nat, s: Sweep)
    requires Sweepable(original, convs) && i < |original| && l0 == Generated(original, Ids(convs))
    requires s == SweepTo(original, convs, l0, i) && LookInv(s, l0)
    ensures LookInv(Visit(s, original[i]), l0)
  {
    var c, seen := original[i], VisitedFrom(original, i + 1);
    TurnBegins(original, convs, l0, i);
    SweepHolds(original, convs, l0, i);
    AheadUnchanged(original, convs, l0, i, i);
    forall y | y in seen && Of(s, c).ids.e164.Some? && Of(s, c).ids.serviceId.Some?
      ensures At(l0.byE164, Of(s, c).ids.e164.value) != Some(y)
    {
      WinnerIsNotStripped(original, Ids(convs), i, y, Of(s, c).ids.e164.value);
    }
    VisitKeepsLook(s, original[..i], seen, c, l0);
  }

  /** The conversation that the sweep has kept for an identifier, if any, is the
      one that the lookup named before. */
  ghost predicate KeptWinner(original: seq<ConvId>, ids: map<ConvId, Attrs>, end: Sweep, f: Field) {
    forall c :: c in end.list && Get(Of(end, c).ids, f).Some? ==>
      Winner(original, ids, f, Get(Of(end, c).ids, f).value) == Some(c)
  }

  ghost predicate KeptWinners(original: seq<ConvId>, convs: map<ConvId, Conv>, end: Sweep) {
    forall f :: KeptWinner(original, Ids(convs), end, f)
  }

  /** An entry for what a listed conversation has leads to it exactly if it is
      the winner. */
  lemma EntryExactlyWhen(original: seq<ConvId>, ids: map<ConvId, Attrs>, end: Sweep, f: Field, c: ConvId, k: string)
    requires FieldInv(end, Generated(original, ids), f) && forall d :: d in original ==> d in ids
    requires c in end.list
    ensures At(LookIn(end.look, f), k) == Some(c) <==> Winner(original, ids, f, k) == Some(c)
  {
    var i0 := GeneratedIndex(original, ids, f);
    assert LookIn(Generated(original, ids), f) == i0;
    assert At(LookIn(end.look, f), k) == if k in i0 && i0[k] in end.list then At(i0, k) else None;
    GeneratedIsWinner(original, ids, f, k);
  }

  lemma EntriesAreRight(end: Sweep, l0: Lookups, f: Field, k: string)
    requires FieldInv(end, l0, f) && k in LookIn(end.look, f)
    ensures var c := LookIn(end.look, f)[k]; c in end.list && Get(Of(end, c).ids, f) == Some(k)
  {
    var i0 := LookIn(l0, f);
    assert At(LookIn(end.look, f), k) == if k in i0 && i0[k] in end.list then At(i0, k) else None;
  }

  /** Right entries are an inverse exactly if every value has one. */
  lemma InverseExactlyWhen(i: Index, convs: map<ConvId, Attrs>, f: Field)
    requires forall k :: k in i ==> i[k] in convs && Get(convs[i[k]], f) == Some(k)
    ensures Inverse(i, convs, f) <==>
            forall c :: c in convs && Get(convs[c], f).Some? ==> At(i, Get(convs[c], f).value) == Some(c)
  {
  }

  lemma FieldExactlyWhen(original: seq<ConvId>, ids: map<ConvId, Attrs>, end: Sweep, f: Field)
    requires FieldInv(end, Generated(original, ids), f) && forall c :: c in original ==> c in ids
    requires forall c :: c in end.list ==> c in end.convs
    ensures var b := BookOf(end); Inverse(IndexOf(b, f), b.convs, f) <==> KeptWinner(original, ids, end, f)
  {
    var b, i := BookOf(end), LookIn(end.look, f);
    assert IndexOf(b, f) == i;
    forall k | k in i ensures i[k] in b.convs && Get(b.convs[i[k]], f) == Some(k) {
      EntriesAreRight(end, Generated(original, ids), f, k);
    }
    InverseExactlyWhen(i, b.convs, f);
    forall c | c in end.list && Get(Of(end, c).ids, f).Some?
      ensures var k := Get(Of(end, c).ids, f).value; At(i, k) == Some(c) <==> Winner(original, ids, f, k) == Some(c)
    {
      EntryExactlyWhen(original, ids, end, f, c, Get(Of(end, c).ids, f).value);
    }
  }

  lemma ByIdIsExact(original: seq<ConvId>, ids: map<ConvId, Attrs>, end: Sweep)
    requires Distinct(original) && Restricted(end.look.byId, GeneratedById(original, ids), end.list)
    requires forall c :: c in end.list ==> c in end.convs && c in original
    ensures var b := BookOf(end);
            (forall k :: k in b.byId <==> k in b.convs) && forall k :: k in b.byId ==> b.byId[k] == k
  {
    forall k ensures At(end.look.byId, k) == if k in end.list then Some(k) else None {
      var i0 := GeneratedById(original, ids);
      assert At(end.look.byId, k) == if k in i0 && i0[k] in end.list then At(i0, k) else None;
      GeneratedByIdIsId(original, ids, k);
    }
    var b := BookOf(end);
    forall k ensures (k in b.byId <==> k in b.convs) && (k in b.byId ==> b.byId[k] == k) {
      assert At(end.look.byId, k) == if k in end.list then Some(k) else None;
    }
  }

  lemma ExactExactlyWhen(original: seq<ConvId>, convs: map<ConvId, Conv>, end: Sweep)
    requires Sweepable(original, convs) && LookInv(end, Generated(original, Ids(convs)))
    requires forall c :: c in end.list ==> c in end.convs && c in original
    ensures Indexed(BookOf(end)) <==> KeptWinners(original, convs, end)
  {
    var l0, b := Generated(original, Ids(convs)), BookOf(end);
    forall f ensures Inverse(IndexOf(b, f), b.convs, f) <==> KeptWinner(original, Ids(convs), end, f) {
      assert FieldInv(end, l0, f);
      FieldExactlyWhen(original, Ids(convs), end, f);
    }
    ByIdIsExact(original, Ids(convs), end);
  }

  lemma ExactIfKept(original: seq<ConvId>, convs: map<ConvId, Conv>, l0: Lookups)
    requires Sweepable(original, convs) && l0 == Generated(original, Ids(convs))
    ensures var end := SweepTo(original, convs, l0, -1);
            Indexed(BookOf(end)) <==> KeptWinners(original, convs, end)
  {
    SweepKeepsLook(original, convs, l0, -1);
    var end := SweepTo(original, convs, l0, -1);
    forall c | c in end.list ensures c in end.convs && c in original { StillOriginal(original, convs, l0, -1, c); }
    ExactExactlyWhen(original, convs, end);
  }

  // ------------------------------------------------------------ turn by turn

  /** `d` is listed and has the value in the slot. */
  predicate HasIn(s: Sweep, f: Field, k: string, d: ConvId) { d in s.list && Get(Of(s, d).ids, f) == Some(k) }

  /** The visit of `c` removes `d`. */
  predicate Goes(s: Sweep, c: ConvId, d: ConvId) { (d == c && Leaves(s, c)) || IsDropped(s, c, d) }

  /** ... or takes from it what it has in the slot. */
  predicate Gives(s: Sweep, c: ConvId, f: Field, d: ConvId) { Goes(s, c, d) || (f == E164 && NumberStripped(s, c, d)) }

  ghost predicate GoesAt(original: seq<ConvId>, convs: map<ConvId, Conv>, l0: Lookups, i: int, d: ConvId)
    requires 0 <= i < |original|
  {
    var s := SweepTo(original, convs, l0, i);
    d in s.list && Goes(s, original[i], d)
  }

  ghost predicate GivesAt(original: seq<ConvId>, convs: map<ConvId, Conv>, l0: Lookups, i: int, f: Field, d: ConvId)
    requires 0 <= i < |original|
  {
    var s := SweepTo(original, convs, l0, i);
    d in s.list && Gives(s, original[i], f, d)
  }

  lemma VisitOfSlot(s: Sweep, pre: seq<ConvId>, seen: set<ConvId>, c: ConvId, f: Field, k: string, d: ConvId)
    requires Visiting(s, pre, seen, c, 0)
    ensures HasIn(Visit(s, c), f, k, d) <==> HasIn(s, f, k, d) && !Gives(s, c, f, d)
  {
    VisitRemoves(s, pre, seen, c, d);
  }

  lemma TurnOfSlot(original: seq<ConvId>, convs: map<ConvId, Conv>, l0: Lookups, i: int, f: Field, k: string, d: ConvId)
    requires Sweepable(original, convs) && 0 <= i < |original|
    ensures var s, s' := SweepTo(original, convs, l0, i), SweepTo(original, convs, l0, i - 1);
            HasIn(s', f, k, d) <==> HasIn(s, f, k, d) && !GivesAt(original, convs, l0, i, f, d)
  {
    TurnBegins(original, convs, l0, i);
    VisitOfSlot(SweepTo(original, convs, l0, i), original[..i], VisitedFrom(original, i + 1), original[i], f, k, d);
  }

  /** No turn from the first down to index `i` takes it. */
  ghost predicate NobodyTakes(original: seq<ConvId>, convs: map<ConvId, Conv>, l0: Lookups, i: int, f: Field, d: ConvId)
    requires -1 <= i
  {
    forall j :: i < j < |original| ==> !GivesAt(original, convs, l0, j, f, d)
  }

  /** `has` and `takes` go with the turns as having and taking do. */
  ghost predicate TakenInTurn(has: seq<bool>, takes: seq<bool>) {
    |has| == |takes| + 1 && forall j {:trigger takes[j]} :: 0 <= j < |takes| ==> (has[j] <==> has[j + 1] && !takes[j])
  }

  lemma {:induction false} KeptUnlessTaken(has: seq<bool>, takes: seq<bool>, i: nat)
    requires TakenInTurn(has, takes) && i < |has|
    ensures has[i] <==> has[|takes|] && forall j :: i <= j < |takes| ==> !takes[j]
    decreases |takes| - i
  {
    if i < |takes| {
      KeptUnlessTaken(has, takes, i + 1);
      assert takes[i] || !takes[i];
    }
  }

  ghost function HasTrace(original: seq<ConvId>, convs: map<ConvId, Conv>, l0: Lookups, f: Field, k: string, d: ConvId):
    (has: seq<bool>)
    ensures |has| == |original| + 1
  {
    seq(|original| + 1, i requires 0 <= i <= |original| => HasIn(SweepTo(original, convs, l0, i - 1), f, k, d))
  }

  ghost function TakesTrace(original: seq<ConvId>, convs: map<ConvId, Conv>, l0: Lookups, f: Field, d: ConvId):
    (takes: seq<bool>)
    ensures |takes| == |original|
  {
    seq(|original|, i requires 0 <= i < |original| => GivesAt(original, convs, l0, i, f, d))
  }

  lemma TraceOfTurn(original: seq<ConvId>, convs: map<ConvId, Conv>, l0: Lookups, f: Field, k: string, d: ConvId,
                    j: nat)
    requires Sweepable(original, convs) && j < |original|
    ensures var has, takes := HasTrace(original, convs, l0, f, k, d), TakesTrace(original, convs, l0, f, d);
            has[j] <==> has[j + 1] && !takes[j]
  {
    TurnOfSlot(original, convs, l0, j, f, k, d);
  }

  lemma TurnsOfSlot(original: seq<ConvId>, convs: map<ConvId, Conv>, l0: Lookups, f: Field, k: string, d: ConvId,
                    has: seq<bool>, takes: seq<bool>)
    requires Sweepable(original, convs)
    requires has == HasTrace(original, convs, l0, f, k, d) && takes == TakesTrace(original, convs, l0, f, d)
    ensures TakenInTurn(has, takes)
  {
    forall j {:trigger takes[j]} | 0 <= j < |takes| ensures has[j] <==> has[j + 1] && !takes[j] {
      TraceOfTurn(original, convs, l0, f, k, d, j);
    }
  }

  lemma NobodyInTrace(original: seq<ConvId>, convs: map<ConvId, Conv>, l0: Lookups, i: int, f: Field, d: ConvId)
    requires -1 <= i < |original|
    ensures var takes := TakesTrace(original, convs, l0, f, d);
            NobodyTakes(original, convs, l0, i, f, d) <==> forall j :: i + 1 <= j < |takes| ==> !takes[j]
  {
    var takes := TakesTrace(original, convs, l0, f, d);
    forall j | 0 <= j < |original| ensures takes[j] == GivesAt(original, convs, l0, j, f, d) {}
  }

  lemma HasInTrace(original: seq<ConvId>, convs: map<ConvId, Conv>, l0: Lookups, i: int, f: Field, k: string, d: ConvId)
    requires -1 <= i < |original|
    ensures var has := HasTrace(original, convs, l0, f, k, d);
            && has[i + 1] == HasIn(SweepTo(original, convs, l0, i), f, k, d)
            && has[|original|] == HasIn(Start(original, convs, l0), f, k, d)
  {
    assert SweepTo(original, convs, l0, |original| - 1) == Start(original, convs, l0);
  }

  lemma KeptInTrace(has: seq<bool>, takes: seq<bool>, i: nat, now: bool, start: bool, nobody: bool)
    requires TakenInTurn(has, takes) && i < |has| && has[i] == now && has[|takes|] == start
    requires nobody <==> forall j :: i <= j < |takes| ==> !takes[j]
    ensures now <==> start && nobody
  {
    KeptUnlessTaken(has, takes, i);
  }

  /** Down to index `i`, `d` still has what it had exactly if no turn took it. */
  lemma StaysExactlyWhen(original: seq<ConvId>, convs: map<ConvId, Conv>, l0: Lookups, i: int, f: Field, k: string,
                         d: ConvId)
    requires Sweepable(original, convs) && -1 <= i < |original|
    ensures HasIn(SweepTo(original, convs, l0, i), f, k, d) <==>
            HasIn(Start(original, convs, l0), f, k, d) && NobodyTakes(original, convs, l0, i, f, d)
  {
    var has, takes := HasTrace(original, convs, l0, f, k, d), TakesTrace(original, convs, l0, f, d);
    TurnsOfSlot(original, convs, l0, f, k, d, has, takes);
    HasInTrace(original, convs, l0, i, f, k, d);
    NobodyInTrace(original, convs, l0, i, f, d);
    KeptInTrace(has, takes, i + 1, HasIn(SweepTo(original, convs, l0, i), f, k, d),
                HasIn(Start(original, convs, l0), f, k, d), NobodyTakes(original, convs, l0, i, f, d));
  }

  /** A holder of an identifier, at the start, that its lookup does not name and
      from which no turn of the sweep takes it. */
  ghost predicate Overlooked(original: seq<ConvId>, convs: map<ConvId, Conv>, l0: Lookups, f: Field, k: string,
                             c: ConvId) {
    && c in original && Has(Ids(convs), f, k, c) && Winner(original, Ids(convs), f, k) != Some(c)
    && NobodyTakes(original, convs, l0, -1, f, c)
  }

  lemma OverlookedIsKept(original: seq<ConvId>, convs: map<ConvId, Conv>, l0: Lookups, f: Field, k: string, c: ConvId)
    requires Sweepable(original, convs)
    ensures Overlooked(original, convs, l0, f, k, c) <==>
            HasIn(SweepTo(original, convs, l0, -1), f, k, c) && Winner(original, Ids(convs), f, k) != Some(c)
  {
    StaysExactlyWhen(original, convs, l0, -1, f, k, c);
    assert HasIn(Start(original, convs, l0), f, k, c) <==> c in original && Has(Ids(convs), f, k, c);
  }

  lemma KeptIfNoneOverlooked(original: seq<ConvId>, convs: map<ConvId, Conv>, l0: Lookups)
    requires Sweepable(original, convs)
    ensures KeptWinners(original, convs, SweepTo(original, convs, l0, -1)) <==>
            forall f, k, c :: !Overlooked(original, convs, l0, f, k, c)
  {
    var end, ids := SweepTo(original, convs, l0, -1), Ids(convs);
    if KeptWinners(original, convs, end) {
      forall f, k, c ensures !Overlooked(original, convs, l0, f, k, c) {
        OverlookedIsKept(original, convs, l0, f, k, c);
        assert KeptWinner(original, ids, end, f);
      }
    } else {
      var f :| !KeptWinner(original, ids, end, f);
      var c :| c in end.list && Get(Of(end, c).ids, f).Some?
               && Winner(original, ids, f, Get(Of(end, c).ids, f).value) != Some(c);
      OverlookedIsKept(original, convs, l0, f, Get(Of(end, c).ids, f).value, c);
    }
  }

  /** After a sweep over freshly generated lookups the five lookups are the exact
      inverses of the identifiers in the list, if and only if no holder of an
      identifier is overlooked. */
  lemma LookupsExactExactlyWhen(original: seq<ConvId>, convs: map<ConvId, Conv>)
    requires Sweepable(original, convs)
    ensures var l0 := Generated(original, Ids(convs));
            Indexed(BookOf(SweepDown(Start(original, convs, l0), |original| - 1))) <==>
            forall f, k, c :: !Overlooked(original, convs, l0, f, k, c)
  {
    var l0 := Generated(original, Ids(convs));
    LoopEnds(original, convs, l0);
    ExactIfKept(original, convs, l0);
    KeptIfNoneOverlooked(original, convs, l0);
  }

  // ------------------------------------------------- the winner is removed

  /** The turn at index `i` takes the identifier from everyone who has it in the
      slot. */
  ghost predicate SlotLostAt(original: seq<ConvId>, convs: map<ConvId, Conv>, l0: Lookups, i: int, f: Field, k: string)
    requires 0 <= i < |original|
  {
    var s := SweepTo(original, convs, l0, i);
    && (exists d :: HasIn(s, f, k, d))
    && forall d :: HasIn(s, f, k, d) ==> GivesAt(original, convs, l0, i, f, d)
  }

  /** Some turn removes the conversation that the lookup names for `k`, and no
      turn takes `k` from everyone: another holder is left. */
  ghost predicate WinnerGone(original: seq<ConvId>, convs: map<ConvId, Conv>, l0: Lookups, f: Field, k: string) {
    var w := Winner(original, Ids(convs), f, k);
    && w.Some? && (exists i :: 0 <= i < |original| && GoesAt(original, convs, l0, i, w.value))
    && forall i :: 0 <= i < |original| ==> !SlotLostAt(original, convs, l0, i, f, k)
  }

  lemma SlotGoesOn(original: seq<ConvId>, convs: map<ConvId, Conv>, l0: Lookups, i: int, f: Field, k: string, e: ConvId)
    returns (d: ConvId)
    requires Sweepable(original, convs) && 0 <= i < |original| && HasIn(SweepTo(original, convs, l0, i), f, k, e)
    requires !SlotLostAt(original, convs, l0, i, f, k)
    ensures HasIn(SweepTo(original, convs, l0, i - 1), f, k, d)
  {
    d :| HasIn(SweepTo(original, convs, l0, i), f, k, d) && !GivesAt(original, convs, l0, i, f, d);
    TurnOfSlot(original, convs, l0, i, f, k, d);
  }

  lemma {:induction false} SlotHeldOn(original: seq<ConvId>, convs: map<ConvId, Conv>, l0: Lookups, i: int, f: Field,
                                      k: string, e: ConvId)
    returns (d: ConvId)
    requires Sweepable(original, convs) && -1 <= i < |original| && HasIn(SweepTo(original, convs, l0, i), f, k, e)
    requires forall j :: 0 <= j < |original| ==> !SlotLostAt(original, convs, l0, j, f, k)
    ensures HasIn(SweepTo(original, convs, l0, -1), f, k, d)
    decreases i
  {
    if i == -1 { return e; }
    var e' := SlotGoesOn(original, convs, l0, i, f, k, e);
    d := SlotHeldOn(original, convs, l0, i - 1, f, k, e');
  }

  /** What somebody has to the end, no turn takes from everyone. */
  lemma HeldIsNotLost(original: seq<ConvId>, convs: map<ConvId, Conv>, l0: Lookups, f: Field, k: string, c: ConvId,
                      i: int)
    requires Sweepable(original, convs) && 0 <= i < |original| && HasIn(SweepTo(original, convs, l0, -1), f, k, c)
    ensures !SlotLostAt(original, convs, l0, i, f, k)
  {
    StaysExactlyWhen(original, convs, l0, -1, f, k, c);
    StaysExactlyWhen(original, convs, l0, i, f, k, c);
  }

  /** A v2 id goes with a group id, and a private conversation has neither. */
  ghost predicate GroupIdsDerive(convs: map<ConvId, Conv>) {
    forall c, d :: c in convs && d in convs && convs[c].ids.groupId.Some?
      && convs[c].ids.groupId == convs[d].ids.groupId
      ==> V2Id(convs[c]).Some? && V2Id(convs[c]) == V2Id(convs[d])
  }

  lemma {:induction false} SweepKeepsGroups(original: seq<ConvId>, convs: map<ConvId, Conv>, l0: Lookups, i: int,
                                            c: ConvId)
    requires Sweepable(original, convs) && -1 <= i < |original| && c in convs
    ensures V2Id(Of(SweepTo(original, convs, l0, i), c)) == V2Id(convs[c])
    decreases |original| - i
  {
    if i < |original| - 1 {
      SweepKeepsGroups(original, convs, l0, i + 1, c);
      TurnBegins(original, convs, l0, i + 1);
      VisitRemoves(SweepTo(original, convs, l0, i + 1), original[..i + 1], VisitedFrom(original, i + 2),
                   original[i + 1], c);
    }
  }

  lemma SameGroupSameV2Id(original: seq<ConvId>, convs: map<ConvId, Conv>, l0: Lookups, k: string, c: ConvId, d: ConvId)
    requires Sweepable(original, convs) && GroupIdsDerive(convs)
    requires var end := SweepTo(original, convs, l0, -1); HasIn(end, GroupId, k, c) && HasIn(end, GroupId, k, d)
    ensures var end := SweepTo(original, convs, l0, -1);
            V2Id(Of(end, c)).Some? && V2Id(Of(end, c)) == V2Id(Of(end, d))
  {
    StaysExactlyWhen(original, convs, l0, -1, GroupId, k, c);
    StaysExactlyWhen(original, convs, l0, -1, GroupId, k, d);
    SweepKeepsGroups(original, convs, l0, -1, c);
    SweepKeepsGroups(original, convs, l0, -1, d);
  }

  lemma ApartInSlot(end: Sweep, f: Field, k: string, c: ConvId, d: ConvId)
    requires AllApart(end) && HasIn(end, f, k, c) && HasIn(end, f, k, d)
    requires f == GroupId ==> V2Id(Of(end, c)).Some? && V2Id(Of(end, c)) == V2Id(Of(end, d))
    ensures c == d
  {
    assert c != d ==> Apart(SweptIds(Of(end, c)), SweptIds(Of(end, d)));
  }

  /** Two conversations in the end do not have the same value in a slot. */
  lemma SlotIsUnique(original: seq<ConvId>, convs: map<ConvId, Conv>, l0: Lookups, f: Field, k: string, c: ConvId,
                     d: ConvId)
    requires Sweepable(original, convs) && GroupIdsDerive(convs)
    requires var end := SweepTo(original, convs, l0, -1); HasIn(end, f, k, c) && HasIn(end, f, k, d)
    ensures c == d
  {
    LoopStarts(original, convs, l0);
    LoopEnds(original, convs, l0);
    if f == GroupId { SameGroupSameV2Id(original, convs, l0, k, c, d); }
    ApartInSlot(SweepTo(original, convs, l0, -1), f, k, c, d);
  }

  /** The winner never just loses its number. */
  lemma WinnerGoesIfItGives(original: seq<ConvId>, convs: map<ConvId, Conv>, l0: Lookups, f: Field, k: string, i: nat)
    requires Sweepable(original, convs) && i < |original| && l0 == Generated(original, Ids(convs))
    requires var w := Winner(original, Ids(convs), f, k);
             w.Some? && HasIn(SweepTo(original, convs, l0, i), f, k, w.value)
               && GivesAt(original, convs, l0, i, f, w.value)
    ensures GoesAt(original, convs, l0, i, Winner(original, Ids(convs), f, k).value)
  {
    var s, c, w := SweepTo(original, convs, l0, i), original[i], Winner(original, Ids(convs), f, k).value;
    if f == E164 && NumberStripped(s, c, w) {
      TurnBegins(original, convs, l0, i);
      SweepHolds(original, convs, l0, i);
      AheadUnchanged(original, convs, l0, i, i);
      assert RecordOf(s, NumberKey(Of(s, c).ids.e164.value)) == Some(w);
      WinnerIsNotStripped(original, Ids(convs), i, w, k);
      GeneratedIsWinner(original, Ids(convs), E164, k);
    }
  }

  lemma OverlookedMeansGone(original: seq<ConvId>, convs: map<ConvId, Conv>, l0: Lookups, f: Field, k: string,
                            c: ConvId)
    requires Sweepable(original, convs) && GroupIdsDerive(convs) && l0 == Generated(original, Ids(convs))
    requires Overlooked(original, convs, l0, f, k, c)
    ensures WinnerGone(original, convs, l0, f, k)
  {
    OverlookedIsKept(original, convs, l0, f, k, c);
    forall i | 0 <= i < |original| ensures !SlotLostAt(original, convs, l0, i, f, k) {
      HeldIsNotLost(original, convs, l0, f, k, c, i);
    }
    HolderMeansWinner(original, Ids(convs), f, k, c);
    var w := Winner(original, Ids(convs), f, k).value;
    var i := WinnerLoses(original, convs, l0, f, k, c, w, -1);
    WinnerGoesIfItGives(original, convs, l0, f, k, i);
  }

  lemma {:induction false} HolderMeansWinner(original: seq<ConvId>, ids: map<ConvId, Attrs>, f: Field, k: string,
                                             c: ConvId)
    requires c in original && Has(ids, f, k, c)
    ensures Winner(original, ids, f, k).Some?
    ensures var w := Winner(original, ids, f, k).value; w in original && Has(ids, f, k, w)
    decreases |original|
  {
    WinnerHolds(original, ids, f, k);
    if c != original[|original| - 1] { HolderMeansWinner(original[..|original| - 1], ids, f, k, c); }
  }

  /** The turn at which the winner is parted from the identifier. */
  lemma {:induction false} WinnerLoses(original: seq<ConvId>, convs: map<ConvId, Conv>, l0: Lookups, f: Field,
                                       k: string,
                                       c: ConvId, w: ConvId, i: int)
    returns (j: nat)
    requires Sweepable(original, convs) && GroupIdsDerive(convs) && -1 <= i < |original|
    requires HasIn(SweepTo(original, convs, l0, -1), f, k, c) && w != c && w in original && Has(Ids(convs), f, k, w)
    requires !HasIn(SweepTo(original, convs, l0, i), f, k, w) || i == -1
    ensures j < |original| && HasIn(SweepTo(original, convs, l0, j), f, k, w) && GivesAt(original, convs, l0, j, f, w)
    decreases |original| - i
  {
    if i == -1 && HasIn(SweepTo(original, convs, l0, -1), f, k, w) {
      SlotIsUnique(original, convs, l0, f, k, c, w);
    }
    if i < |original| - 1 {
      TurnOfSlot(original, convs, l0, i + 1, f, k, w);
      if HasIn(SweepTo(original, convs, l0, i + 1), f, k, w) { j := i + 1; }
      else { j := WinnerLoses(original, convs, l0, f, k, c, w, i + 1); }
    }
  }

  lemma GoneMeansOverlooked(original: seq<ConvId>, convs: map<ConvId, Conv>, l0: Lookups, f: Field, k: string)
    returns (c: ConvId)
    requires Sweepable(original, convs) && WinnerGone(original, convs, l0, f, k)
    ensures Overlooked(original, convs, l0, f, k, c)
  {
    var ids := Ids(convs);
    var w := Winner(original, ids, f, k).value;
    WinnerHolds(original, ids, f, k);
    assert HasIn(Start(original, convs, l0), f, k, w);
    c := SlotHeldOn(original, convs, l0, |original| - 1, f, k, w);
    var i :| 0 <= i < |original| && GoesAt(original, convs, l0, i, w);
    assert GivesAt(original, convs, l0, i, f, w);
    StaysExactlyWhen(original, convs, l0, -1, f, k, w);
    OverlookedIsKept(original, convs, l0, f, k, c);
  }

  /** Where group ids determine v2 ids, as deriving them does, the lookups fail
      to be exact if and only if, for some identifier, a turn of the sweep
      removes the conversation that the lookup names and no turn takes the
      identifier from all its holders. */
  lemma LookupsFailExactlyWhen(original: seq<ConvId>, convs: map<ConvId, Conv>)
    requires Sweepable(original, convs) && GroupIdsDerive(convs)
    ensures var l0 := Generated(original, Ids(convs));
            !Indexed(BookOf(SweepDown(Start(original, convs, l0), |original| - 1))) <==>
            exists f, k :: WinnerGone(original, convs, l0, f, k)
  {
    var l0 := Generated(original, Ids(convs));
    LookupsExactExactlyWhen(original, convs);
    if f, k, c :| Overlooked(original, convs, l0, f, k, c) { OverlookedMeansGone(original, convs, l0, f, k, c); }
    if f, k :| WinnerGone(original, convs, l0, f, k) {
      var c := GoneMeansOverlooked(original, convs, l0, f, k);
    }
  }

  lemma {:induction false} StillOriginal(original: seq<ConvId>, convs: map<ConvId, Conv>, look: Lookups, i: int,
                                         c: ConvId)
    requires Sweepable(original, convs) && -1 <= i < |original| && c in SweepTo(original, convs, look, i).list
    ensures c in SweepTo(original, convs, look, i).convs && c in original
    decreases |original| - i
  {
    if i < |original| - 1 {
      TurnBegins(original, convs, look, i + 1);
      WasListed(SweepTo(original, convs, look, i + 1), original[..i + 1], VisitedFrom(original, i + 2),
                original[i + 1], c);
      StillOriginal(original, convs, look, i + 1, c);
    }
  }

  lemma WasListed(s: Sweep, pre: seq<ConvId>, seen: set<ConvId>, c: ConvId, d: ConvId)
    requires Visiting(s, pre, seen, c, 0) && d in Visit(s, c).list
    ensures d in s.list && (d in s.convs ==> d in Visit(s, c).convs)
  {
    VisitRemoves(s, pre, seen, c, d);
    if d in s.convs { VisitKeepsObject(s, pre, seen, c, d); }
  }

  lemma VisitKeepsObject(s: Sweep, pre: seq<ConvId>, seen: set<ConvId>, c: ConvId, d: ConvId)
    requires Visiting(s, pre, seen, c, 0) && d in s.convs
    ensures d in Visit(s, c).convs
  {
    VisitGoesThrough(s, pre, seen, c);
    FirstTwoRemove(s, pre, seen, c, d);
    var s2 := PniBranch(ServiceIdBranch(s, c), c);
    NumberKeepsObject(s2, c, d);
    GroupRemoves(E164Branch(s2, c), seen, c, d);
  }

  lemma NumberKeepsObject(s: Sweep, c: ConvId, d: ConvId)
    requires d in s.convs
    ensures d in E164Branch(s, c).convs
  {
  }

  /** It does fail. Of two conversations known by their PNI alone the lookup
      names the last and the sweep keeps the first: its PNI leads nowhere. */
  lemma PniHolderIsForgotten(c: ConvId, d: ConvId, p: string)
    requires c != d
    ensures var a := PrivateConv(None, Some(p), None);
            var convs := map[c := a, d := a];
            var end := SweepDown(Start([c, d], convs, Generated([c, d], Ids(convs))), 1);
            end.list == [c] && Of(end, c).ids.pni == Some(p) && p !in end.look.byPni && !Indexed(BookOf(end))
  {
    var a := PrivateConv(None, Some(p), None);
    var convs, l := map[c := a, d := a], [c, d];
    var l0 := Generated(l, Ids(convs));
    var s := Start(l, convs, l0);
    PniGoesToLast(c, d, p, Ids(convs));
    WithoutCons(d, [], d);
    WithoutCons(c, [d] + [], d);
    assert [c] + ([d] + []) == l;
    var s1 := Visit(s, d);
    assert s1 == s.(byServiceId := map[p := d]);
    var s2 := Visit(s1, c);
    assert s2 == Combine(s1, c, d).(byServiceId := map[p := c]);
    assert s2.list == [c] && s2.look.byPni == Removed(l0.byPni, Some(p), d);
    assert SweepDown(s, 1) == SweepDown(s1, 0) == SweepDown(s2, -1);
    var b := BookOf(s2);
    assert c in b.convs && Get(b.convs[c], Pni) == Some(p) && IndexOf(b, Pni) == s2.look.byPni;
  }

  lemma PniGoesToLast(c: ConvId, d: ConvId, p: string, ids: map<ConvId, Attrs>)
    requires c != d && c in ids && d in ids && ids[c] == ids[d] == BLANK.(pni := Some(p))
    ensures At(GeneratedIndex([c, d], ids, Pni), p) == Some(d)
  {
    var l := [c, d];
    assert l[..1] == [c] && [c][..0] == [];
    GeneratedIsWinner(l, ids, Pni, p);
    WinnerHolds(l, ids, Pni, p);
  }
}
