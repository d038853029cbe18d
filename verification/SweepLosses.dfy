/** Which identifiers the sweep leaves without a holder. The records of the
    sweep are not purged when a conversation is removed, and combining does not
    ask whether the one to keep is still there, so a conversation can be
    combined into one that is long gone. */
module SweepLosses {
  import opened Options
  import opened ConversationIndex
  import opened ConflictSweep

  /** What conversations are compared by; service ids and PNIs share records. */
  datatype Key = ServiceKey(v: string) | NumberKey(v: string) | GroupKey(v: string)

  predicate HasKey(a: Conv, k: Key) {
    match k
    case ServiceKey(v) => a.ids.serviceId == Some(v) || a.ids.pni == Some(v)
    case NumberKey(v) => a.ids.e164 == Some(v)
    case GroupKey(v) => V2Id(a) == Some(v)
  }

  /** Some conversation in the list has the identifier. */
  ghost predicate Held(s: Sweep, k: Key) { exists d :: d in s.list && HasKey(Of(s, d), k) }

  function RecordAt(m: Index, v: Option<string>): Option<ConvId> { if v.Some? then At(m, v.value) else None }

  function RecordOf(s: Sweep, k: Key): Option<ConvId> {
    match k
    case ServiceKey(v) => At(s.byServiceId, v)
    case NumberKey(v) => At(s.byE164, v)
    case GroupKey(v) => At(s.byGroupV2Id, v)
  }

  /** `c` is combined into the conversation recorded for its service id, for its
      number or for its group id. */
  predicate Leaves(s: Sweep, c: ConvId) {
    var a := Of(s, c);
    || (RecordAt(s.byServiceId, a.ids.serviceId).Some? && a.ids.e164.None?)
    || (RecordAt(s.byE164, a.ids.e164).Some? && a.ids.serviceId.None?)
    || (RecordAt(s.byGroupV2Id, V2Id(a)).Some?
        && !(a.kind.GroupV2? && !Of(s, RecordAt(s.byGroupV2Id, V2Id(a)).value).kind.GroupV2?))
  }

  /** `d`, met earlier, is combined into `c`. */
  predicate IsDropped(s: Sweep, c: ConvId, d: ConvId) {
    var a, b := Of(s, c), Of(s, d);
    || (RecordAt(s.byServiceId, a.ids.serviceId) == Some(d) && a.ids.e164.Some?)
    || RecordAt(s.byServiceId, a.ids.pni) == Some(d)
    || (RecordAt(s.byE164, a.ids.e164) == Some(d) && a.ids.serviceId.Some?
        && !(b.ids.serviceId.Some? && b.ids.serviceId != a.ids.serviceId))
    || (RecordAt(s.byGroupV2Id, V2Id(a)) == Some(d) && a.kind.GroupV2? && !b.kind.GroupV2?)
  }

  // -------------------------------------------------------- who is removed

  lemma CombineRemoves(s: Sweep, current: ConvId, obsolete: ConvId, d: ConvId)
    requires Of(s, obsolete).kind.Private? == Of(s, current).kind.Private?
    ensures d in Combine(s, current, obsolete).list <==> d in s.list && d != obsolete
  {
    InWithout(s.list, obsolete, d);
  }

  lemma ServiceIdRemoves(s: Sweep, seen: set<ConvId>, c: ConvId, d: ConvId)
    requires Recorded(s, seen, c, 0)
    ensures var a := Of(s, c); var e := RecordAt(s.byServiceId, a.ids.serviceId);
            var s' := ServiceIdBranch(s, c);
            && (d in s'.list <==> d in s.list && !(e.Some? && d == if a.ids.e164.Some? then e.value else c))
            && s'.convs == s.convs && s'.byE164 == s.byE164 && s'.byGroupV2Id == s.byGroupV2Id
            && (s'.byServiceId == if a.ids.serviceId.Some? && (e.None? || a.ids.e164.Some?)
                                  then s.byServiceId[a.ids.serviceId.value := c] else s.byServiceId)
  {
    var a := Of(s, c);
    var e := RecordAt(s.byServiceId, a.ids.serviceId);
    if e.Some? {
      CombineRemoves(s, c, e.value, d);
      CombineRemoves(s, e.value, c, d);
    }
  }

  lemma PniRemoves(s: Sweep, seen: set<ConvId>, c: ConvId, d: ConvId)
    requires Recorded(s, seen, c, 1)
    ensures var a := Of(s, c); var x := RecordAt(s.byServiceId, a.ids.pni);
            var s' := PniBranch(s, c);
            && (d in s'.list <==> d in s.list && !(x == Some(d) && d != c))
            && s'.convs == s.convs && s'.byE164 == s.byE164 && s'.byGroupV2Id == s.byGroupV2Id
  {
    var x := RecordAt(s.byServiceId, Of(s, c).ids.pni);
    if x.Some? { CombineRemoves(s, c, x.value, d); }
  }

  predicate NumberStripped(s: Sweep, c: ConvId, d: ConvId) {
    var a, b := Of(s, c), Of(s, d);
    && RecordAt(s.byE164, a.ids.e164) == Some(d)
    && a.ids.serviceId.Some? && b.ids.serviceId.Some? && a.ids.serviceId != b.ids.serviceId
  }

  lemma E164Removes(s: Sweep, seen: set<ConvId>, c: ConvId, d: ConvId)
    requires Recorded(s, seen, c, 2)
    ensures var a := Of(s, c); var y := RecordAt(s.byE164, a.ids.e164);
            var s' := E164Branch(s, c);
            && (d in s'.list <==> d in s.list && !(y == Some(d) && a.ids.serviceId.Some? && !NumberStripped(s, c, d))
                                  && !(y.Some? && a.ids.serviceId.None? && d == c))
            && Of(s', d) == (if NumberStripped(s, c, d) then Of(s, d).(ids := Of(s, d).ids.(e164 := None))
                             else Of(s, d))
            && s'.byGroupV2Id == s.byGroupV2Id
  {
    var y := RecordAt(s.byE164, Of(s, c).ids.e164);
    if y.Some? {
      CombineRemoves(s, c, y.value, d);
      CombineRemoves(s, y.value, c, d);
    }
  }

  lemma GroupRemoves(s: Sweep, seen: set<ConvId>, c: ConvId, d: ConvId)
    requires Recorded(s, seen, c, 3)
    ensures var a := Of(s, c); var g := RecordAt(s.byGroupV2Id, V2Id(a));
            var s' := GroupBranch(s, c);
            && (d in s'.list <==>
                d in s.list
                  && !(g.Some? && d == if a.kind.GroupV2? && !Of(s, g.value).kind.GroupV2? then g.value else c))
            && s'.convs == s.convs
  {
    var g := RecordAt(s.byGroupV2Id, V2Id(Of(s, c)));
    if g.Some? {
      CombineRemoves(s, c, g.value, d);
      CombineRemoves(s, g.value, c, d);
    }
  }

  /** A private conversation has no group id, and a group nothing else. */
  lemma OneKind(s: Sweep, seen: set<ConvId>, c: ConvId, n: nat)
    requires Recorded(s, seen, c, n)
    ensures var a := Of(s, c);
            V2Id(a).Some? ==> a.ids.serviceId.None? && a.ids.pni.None? && a.ids.e164.None?
  {
  }

  /** The first two branches together. */
  lemma FirstTwoRemove(s: Sweep, pre: seq<ConvId>, seen: set<ConvId>, c: ConvId, d: ConvId)
    requires Visiting(s, pre, seen, c, 0)
    ensures var a := Of(s, c); var s2 := PniBranch(ServiceIdBranch(s, c), c);
            var e, x := RecordAt(s.byServiceId, a.ids.serviceId), RecordAt(s.byServiceId, a.ids.pni);
            && (d in s2.list <==> d in s.list && !(d == c && e.Some? && a.ids.e164.None?)
                                  && !(e == Some(d) && a.ids.e164.Some?) && x != Some(d))
            && s2.convs == s.convs && s2.byE164 == s.byE164 && s2.byGroupV2Id == s.byGroupV2Id
  {
    ServiceIdRecorded(s, seen, c);
    ServiceIdRemoves(s, seen, c, d);
    PniRemoves(ServiceIdBranch(s, c), seen, c, d);
  }

  /** One visit removes exactly these, and takes a number from at most one. */
  lemma VisitRemoves(s: Sweep, pre: seq<ConvId>, seen: set<ConvId>, c: ConvId, d: ConvId)
    requires Visiting(s, pre, seen, c, 0)
    ensures d in Visit(s, c).list <==> d in s.list && !(d == c && Leaves(s, c)) && !IsDropped(s, c, d)
    ensures Of(Visit(s, c), d)
            == if NumberStripped(s, c, d) then Of(s, d).(ids := Of(s, d).ids.(e164 := None)) else Of(s, d)
  {
    VisitGoesThrough(s, pre, seen, c);
    var s2 := PniBranch(ServiceIdBranch(s, c), c);
    FirstTwoRemove(s, pre, seen, c, d);
    E164Removes(s2, seen, c, d);
    GroupRemoves(E164Branch(s2, c), seen, c, d);
    OneKind(s, seen, c, 0);
    GroupUntouched(s2, seen, c, d);
  }

  /** A group's visit comes to its branch with nothing changed. */
  lemma GroupUntouched(s: Sweep, seen: set<ConvId>, c: ConvId, d: ConvId)
    requires Recorded(s, seen, c, 2)
    ensures var s' := E164Branch(s, c);
            Of(s', c).kind == Of(s, c).kind && V2Id(Of(s', c)) == V2Id(Of(s, c)) && Of(s', d).kind == Of(s, d).kind
  {
    E164Removes(s, seen, c, c);
    E164Removes(s, seen, c, d);
  }

  // ------------------------------------------------------- what a record means

  /** Whoever is recorded for an identifier, listed or not, has it. */
  ghost predicate Holding(s: Sweep) {
    forall k :: RecordOf(s, k).Some? ==> HasKey(Of(s, RecordOf(s, k).value), k)
  }

  lemma ServiceIdHolds(s: Sweep, c: ConvId)
    requires Holding(s)
    ensures Holding(ServiceIdBranch(s, c))
  {
    HoldingFrame(s, ServiceIdBranch(s, c), c);
  }

  /** Records of before, of which some were taken over by `c`. */
  lemma HoldingFrame(s: Sweep, s': Sweep, c: ConvId)
    requires Holding(s) && s'.convs == s.convs
    requires forall k :: RecordOf(s', k) == RecordOf(s, k) || (RecordOf(s', k) == Some(c) && HasKey(Of(s, c), k))
    ensures Holding(s')
  {
  }

  lemma PniHolds(s: Sweep, c: ConvId)
    requires Holding(s)
    ensures Holding(PniBranch(s, c))
  {
    HoldingFrame(s, PniBranch(s, c), c);
  }

  lemma GroupHolds(s: Sweep, c: ConvId)
    requires Holding(s)
    ensures Holding(GroupBranch(s, c))
  {
    HoldingFrame(s, GroupBranch(s, c), c);
  }

  lemma E164Holds(s: Sweep, seen: set<ConvId>, c: ConvId)
    requires Holding(s) && Recorded(s, seen, c, 2) && c !in seen
    ensures Holding(E164Branch(s, c))
  {
    var s' := E164Branch(s, c);
    var y := RecordAt(s.byE164, Of(s, c).ids.e164);
    if y.Some? && NumberStripped(s, c, y.value) {
      forall k | RecordOf(s', k).Some? ensures HasKey(Of(s', RecordOf(s', k).value), k) {
        StrippedHolds(s, seen, c, y.value, k);
      }
    } else {
      HoldingFrame(s, s', c);
    }
  }

  /** The one that loses its number is no longer recorded for it. */
  lemma StrippedHolds(s: Sweep, seen: set<ConvId>, c: ConvId, y: ConvId, k: Key)
    requires Holding(s) && Recorded(s, seen, c, 2) && c !in seen && NumberStripped(s, c, y)
    requires RecordOf(E164Branch(s, c), k).Some?
    ensures var s' := E164Branch(s, c); HasKey(Of(s', RecordOf(s', k).value), k)
  {
    var s', n := E164Branch(s, c), Of(s, c).ids.e164.value;
    assert RecordOf(s, NumberKey(n)) == Some(y);
    assert RecordOf(s', k) == if k == NumberKey(n) then Some(c) else RecordOf(s, k);
    assert RecordOf(s, k).Some? ==> HasKey(Of(s, RecordOf(s, k).value), k);
    E164Removes(s, seen, c, RecordOf(s', k).value);
  }

  lemma VisitKeepsHolding(s: Sweep, pre: seq<ConvId>, seen: set<ConvId>, c: ConvId)
    requires Visiting(s, pre, seen, c, 0) && Holding(s)
    ensures Holding(Visit(s, c))
  {
    VisitGoesThrough(s, pre, seen, c);
    var s1 := ServiceIdBranch(s, c);
    var s2 := PniBranch(s1, c);
    ServiceIdHolds(s, c);
    PniHolds(s1, c);
    E164Holds(s2, seen, c);
    GroupHolds(E164Branch(s2, c), c);
  }

  // --------------------------------------------------- when nobody is left

  /** The visit of `c`, with `pre` still to come, leaves nobody with `k`: nobody
      to come has it, `c` does not have it or is combined away, and the one
      recorded for it is no longer listed or is combined into `c`. */
  ghost predicate LosesKey(s: Sweep, pre: seq<ConvId>, c: ConvId, k: Key) {
    && (forall x :: x in pre ==> !HasKey(Of(s, x), k))
    && (HasKey(Of(s, c), k) ==> Leaves(s, c))
    && (RecordOf(s, k).Some? ==> RecordOf(s, k).value !in s.list || IsDropped(s, c, RecordOf(s, k).value))
  }

  lemma StillHeld(s: Sweep, pre: seq<ConvId>, seen: set<ConvId>, c: ConvId, k: Key, d: ConvId)
    requires Visiting(s, pre, seen, c, 0) && Holding(s) && c in s.list && d in s.list && HasKey(Of(s, d), k)
    requires !(d == c && Leaves(s, c)) && !IsDropped(s, c, d)
    ensures Held(Visit(s, c), k)
  {
    var s' := Visit(s, c);
    VisitRemoves(s, pre, seen, c, d);
    if HasKey(Of(s', d), k) {
      assert d in s'.list;
    } else {
      VisitRemoves(s, pre, seen, c, c);
      NotDroppedItself(s, pre, seen, c);
      OneKind(s, seen, c, 0);
      assert RecordOf(s, NumberKey(Of(s, c).ids.e164.value)) == Some(d);
      assert HasKey(Of(s', c), k) && c in s'.list;
    }
  }

  lemma HolderBefore(s: Sweep, pre: seq<ConvId>, seen: set<ConvId>, c: ConvId, k: Key, d: ConvId)
    requires Visiting(s, pre, seen, c, 0) && d in Visit(s, c).list && HasKey(Of(Visit(s, c), d), k)
    ensures d in s.list && HasKey(Of(s, d), k) && !LosesKey(s, pre, c, k)
  {
    VisitRemoves(s, pre, seen, c, d);
    StayerKeepsKey(s, pre, seen, c, k, d);
  }

  lemma StayerKeepsKey(s: Sweep, pre: seq<ConvId>, seen: set<ConvId>, c: ConvId, k: Key, d: ConvId)
    requires Visiting(s, pre, seen, c, 0) && d in s.list && HasKey(Of(s, d), k)
    requires !(d == c && Leaves(s, c)) && !IsDropped(s, c, d)
    ensures !LosesKey(s, pre, c, k)
  {
    if d in seen { OwnerIsRecorded(s, d, k); }
  }

  lemma OwnerIsRecorded(s: Sweep, d: ConvId, k: Key)
    requires Owns(s, d, 4) && HasKey(Of(s, d), k)
    ensures RecordOf(s, k) == Some(d)
  {
  }

  /** A turn of the sweep leaves nobody in the list with the identifier `k`, be
      it one of the conversation visited or not, exactly when `LosesKey` says:
      in particular for `k` of a conversation that is combined into a record
      which is no longer listed, or which its PNI removes in the same turn. */
  lemma LostExactlyWhen(s: Sweep, pre: seq<ConvId>, seen: set<ConvId>, c: ConvId, k: Key)
    requires Between(s, pre + [c], seen) && Holding(s)
    ensures !Held(Visit(s, c), k) <==> LosesKey(s, pre, c, k)
  {
    VisitBegins(s, pre, seen, c);
    var s' := Visit(s, c);
    if Held(s', k) {
      var d :| d in s'.list && HasKey(Of(s', d), k);
      HolderBefore(s, pre, seen, c, k, d);
    }
    if !LosesKey(s, pre, c, k) {
      if x :| x in pre && HasKey(Of(s, x), k) {
        AheadStays(s, pre, seen, c, x);
        StillHeld(s, pre, seen, c, k, x);
      } else if HasKey(Of(s, c), k) && !Leaves(s, c) {
        NotDroppedItself(s, pre, seen, c);
        StillHeld(s, pre, seen, c, k, c);
      } else {
        NotItself(s, pre, seen, c, k);
        StillHeld(s, pre, seen, c, k, RecordOf(s, k).value);
      }
    }
  }

  lemma NotItself(s: Sweep, pre: seq<ConvId>, seen: set<ConvId>, c: ConvId, k: Key)
    requires Visiting(s, pre, seen, c, 0) && RecordOf(s, k).Some?
    ensures RecordOf(s, k).value in seen && RecordOf(s, k).value != c
  {
  }

  lemma NotDroppedItself(s: Sweep, pre: seq<ConvId>, seen: set<ConvId>, c: ConvId)
    requires Visiting(s, pre, seen, c, 0)
    ensures !IsDropped(s, c, c)
  {
  }

  lemma AheadStays(s: Sweep, pre: seq<ConvId>, seen: set<ConvId>, c: ConvId, x: ConvId)
    requires Visiting(s, pre, seen, c, 0) && x in pre
    ensures x in s.list && x != c && !IsDropped(s, c, x)
  {
    assert x !in seen + {c};
  }

  // ------------------------------------------------------- the whole sweep

  lemma {:induction false} SweepHolds(original: seq<ConvId>, convs: map<ConvId, Conv>, look: Lookups, i: int)
    requires Sweepable(original, convs) && -1 <= i < |original|
    ensures Holding(SweepTo(original, convs, look, i))
    decreases |original| - i
  {
    if i < |original| - 1 {
      SweepHolds(original, convs, look, i + 1);
      TurnBegins(original, convs, look, i + 1);
      VisitKeepsHolding(SweepTo(original, convs, look, i + 1), original[..i + 1], VisitedFrom(original, i + 2),
                        original[i + 1]);
    }
  }

  lemma TurnBegins(original: seq<ConvId>, convs: map<ConvId, Conv>, look: Lookups, i: int)
    requires Sweepable(original, convs) && 0 <= i < |original|
    ensures var s := SweepTo(original, convs, look, i);
            && Between(s, original[..i] + [original[i]], VisitedFrom(original, i + 1))
            && Visiting(s, original[..i], VisitedFrom(original, i + 1), original[i], 0)
            && original[i] in s.list
  {
    LoopReaches(original, convs, look, i);
    TurnIn(SweepTo(original, convs, look, i), original, VisitedFrom(original, i + 1), i);
  }

  lemma TurnIn(s: Sweep, original: seq<ConvId>, seen: set<ConvId>, i: nat)
    requires i < |original| && Between(s, original[..i + 1], seen)
    ensures Between(s, original[..i] + [original[i]], seen)
    ensures Visiting(s, original[..i], seen, original[i], 0) && original[i] in s.list
  {
    assert original[..i + 1] == original[..i] + [original[i]];
    VisitBegins(s, original[..i], seen, original[i]);
  }

  /** The turn at index `i` is the one that leaves nobody with `k`. */
  ghost predicate LostAt(original: seq<ConvId>, convs: map<ConvId, Conv>, look: Lookups, i: int, k: Key)
    requires 0 <= i < |original|
  {
    var s := SweepTo(original, convs, look, i);
    Held(s, k) && LosesKey(s, original[..i], original[i], k)
  }

  lemma TurnLoses(original: seq<ConvId>, convs: map<ConvId, Conv>, look: Lookups, i: int, k: Key)
    requires Sweepable(original, convs) && 0 <= i < |original|
    ensures var s, s' := SweepTo(original, convs, look, i), SweepTo(original, convs, look, i - 1);
            && (Held(s', k) ==> Held(s, k))
            && (Held(s, k) && !Held(s', k) <==> LostAt(original, convs, look, i, k))
  {
    var s, pre, seen := SweepTo(original, convs, look, i), original[..i], VisitedFrom(original, i + 1);
    SweepHolds(original, convs, look, i);
    TurnBegins(original, convs, look, i);
    LostExactlyWhen(s, pre, seen, original[i], k);
    var s' := Visit(s, original[i]);
    if Held(s', k) {
      var d :| d in s'.list && HasKey(Of(s', d), k);
      HolderBefore(s, pre, seen, original[i], k, d);
    }
  }

  lemma {:induction false} SomeTurnLoses(original: seq<ConvId>, convs: map<ConvId, Conv>, look: Lookups, i: int, k: Key)
    returns (j: int)
    requires Sweepable(original, convs) && -1 <= i < |original|
    requires Held(Start(original, convs, look), k) && !Held(SweepTo(original, convs, look, i), k)
    ensures 0 <= j < |original| && LostAt(original, convs, look, j, k)
    decreases |original| - i
  {
    TurnLoses(original, convs, look, i + 1, k);
    if Held(SweepTo(original, convs, look, i + 1), k) { j := i + 1; }
    else { j := SomeTurnLoses(original, convs, look, i + 1, k); }
  }

  lemma {:induction false} StaysLost(original: seq<ConvId>, convs: map<ConvId, Conv>, look: Lookups, i: int, k: Key)
    requires Sweepable(original, convs) && -1 <= i < |original|
    requires !Held(SweepTo(original, convs, look, i), k)
    ensures !Held(SweepTo(original, convs, look, -1), k)
    decreases i
  {
    if i >= 0 {
      TurnLoses(original, convs, look, i, k);
      StaysLost(original, convs, look, i - 1, k);
    }
  }

  /** Over every whole sweep: an identifier that some conversation had at the
      start is nobody's in the end if and only if some turn loses it. */
  lemma SweepLosesExactlyWhen(original: seq<ConvId>, convs: map<ConvId, Conv>, look: Lookups, k: Key)
    requires Sweepable(original, convs) && Held(Start(original, convs, look), k)
    ensures !Held(SweepDown(Start(original, convs, look), |original| - 1), k) <==>
            exists i :: 0 <= i < |original| && LostAt(original, convs, look, i, k)
  {
    LoopEnds(original, convs, look);
    LostInSomeTurn(original, convs, look, k);
  }

  lemma LostInSomeTurn(original: seq<ConvId>, convs: map<ConvId, Conv>, look: Lookups, k: Key)
    requires Sweepable(original, convs) && Held(Start(original, convs, look), k)
    ensures !Held(SweepTo(original, convs, look, -1), k) <==>
            exists i :: 0 <= i < |original| && LostAt(original, convs, look, i, k)
  {
    if !Held(SweepTo(original, convs, look, -1), k) {
      var i := SomeTurnLoses(original, convs, look, -1, k);
    }
    if i :| 0 <= i < |original| && LostAt(original, convs, look, i, k) { LostForGood(original, convs, look, i, k); }
  }

  lemma LostForGood(original: seq<ConvId>, convs: map<ConvId, Conv>, look: Lookups, i: int, k: Key)
    requires Sweepable(original, convs) && 0 <= i < |original| && LostAt(original, convs, look, i, k)
    ensures !Held(SweepTo(original, convs, look, -1), k)
  {
    TurnLoses(original, convs, look, i, k);
    StaysLost(original, convs, look, i - 1, k);
  }

  // -------------------------------------------------- field by field, in the end

  lemma LeftApart(original: seq<ConvId>, convs: map<ConvId, Conv>, look: Lookups, c: ConvId, d: ConvId)
    requires Sweepable(original, convs)
    requires var end := SweepDown(Start(original, convs, look), |original| - 1);
             c in end.list && d in end.list && c != d
    ensures var end := SweepDown(Start(original, convs, look), |original| - 1);
            Apart(SweptIds(Of(end, c)), SweptIds(Of(end, d)))
  {
    LoopStarts(original, convs, look);
  }

  /** Two conversations that the sweep leaves have no service id, PNI or number
      in common, be it as service id of one and PNI of the other. */
  lemma NoIdentifierIsShared(original: seq<ConvId>, convs: map<ConvId, Conv>, look: Lookups, c: ConvId, d: ConvId)
    requires Sweepable(original, convs)
    requires var end := SweepDown(Start(original, convs, look), |original| - 1);
             c in end.list && d in end.list && c != d
    ensures var end := SweepDown(Start(original, convs, look), |original| - 1);
            var a, b := Of(end, c).ids, Of(end, d).ids;
            && (a.serviceId.Some? ==> a.serviceId != b.serviceId && a.serviceId != b.pni)
            && (a.pni.Some? ==> a.pni != b.pni && a.pni != b.serviceId)
            && (a.e164.Some? ==> a.e164 != b.e164)
  {
    LeftApart(original, convs, look, c, d);
  }

  /** Nor do two groups have a v2 id in common, which is the group id of a v2
      group and the derived id of a v1 group. */
  lemma NoGroupIsShared(original: seq<ConvId>, convs: map<ConvId, Conv>, look: Lookups, c: ConvId, d: ConvId)
    requires Sweepable(original, convs)
    requires var end := SweepDown(Start(original, convs, look), |original| - 1);
             c in end.list && d in end.list && c != d
    ensures var end := SweepDown(Start(original, convs, look), |original| - 1);
            var a, b := Of(end, c), Of(end, d);
            && (a.kind.GroupV2? && b.kind.GroupV2? && a.ids.groupId.Some? ==> a.ids.groupId != b.ids.groupId)
            && (a.kind.GroupV1? && b.kind.GroupV1? && a.derivedId.Some? ==> a.derivedId != b.derivedId)
            && (a.kind.GroupV1? && b.kind.GroupV2? && a.derivedId.Some? ==> a.derivedId != b.ids.groupId)
  {
    LeftApart(original, convs, look, c, d);
  }

  /** A v1 group and the v2 group derived from it end as the v2 group alone,
      whichever comes first in the list. */
  lemma V1GroupJoinsItsV2Group(v1: ConvId, v2: ConvId, a: Attrs, b: Attrs, id: string, look: Lookups)
    requires v1 != v2 && b.groupId == Some(id)
    requires a.serviceId.None? && a.pni.None? && a.e164.None?
    requires b.serviceId.None? && b.pni.None? && b.e164.None?
    ensures var convs := map[v1 := Conv(GroupV1, a, Some(id)), v2 := Conv(GroupV2, b, None)];
            && SweepDown(Start([v1, v2], convs, look), 1).list == [v2]
            && SweepDown(Start([v2, v1], convs, look), 1).list == [v2]
  {
    var convs := map[v1 := Conv(GroupV1, a, Some(id)), v2 := Conv(GroupV2, b, None)];
    WithoutFirst(v1, v2);
    WithoutLast(v2, v1);
    var s := Start([v1, v2], convs, look);
    var s1 := Visit(s, v2);
    assert s1 == s.(byGroupV2Id := map[id := v2]);
    assert Visit(s1, v1) == Combine(s1, v2, v1);
    assert SweepDown(s, 1) == SweepDown(s1, 0) == SweepDown(Visit(s1, v1), -1);
    var r := Start([v2, v1], convs, look);
    var r1 := Visit(r, v1);
    assert r1 == r.(byGroupV2Id := map[id := v1]);
    assert Visit(r1, v2).list == Combine(r1, v2, v1).list;
    assert SweepDown(r, 1) == SweepDown(r1, 0) == SweepDown(Visit(r1, v2), -1);
  }

  lemma WithoutFirst(c: ConvId, d: ConvId)
    requires c != d
    ensures Without([c, d], c) == [d]
  {
    assert [c] + ([d] + []) == [c, d] && [d] + [] == [d];
    WithoutCons(d, [], c);
    WithoutCons(c, [d] + [], c);
  }

  lemma WithoutLast(c: ConvId, d: ConvId)
    requires c != d
    ensures Without([c, d], d) == [c]
  {
    assert [c] + ([d] + []) == [c, d];
    WithoutCons(d, [], d);
    WithoutCons(c, [d] + [], d);
  }

  // ------------------------------------------------------------ three losses

  lemma WithoutCons(x: ConvId, rest: seq<ConvId>, c: ConvId)
    ensures Without([x] + rest, c) == (if x == c then [] else [x]) + Without(rest, c)
  {
    assert ([x] + rest)[1..] == rest;
  }

  lemma WithoutOne(c: ConvId, d: ConvId, e: ConvId)
    requires c != d && c != e && d != e
    ensures Without([c, d, e], e) == [c, d] && Without([c, d], c) == [d]
  {
    assert [c] + ([d] + ([e] + [])) == [c, d, e] && [c] + ([d] + []) == [c, d];
    WithoutCons(e, [], e);
    WithoutCons(d, [e] + [], e);
    WithoutCons(c, [d] + ([e] + []), e);
    WithoutCons(d, [], c);
    WithoutCons(c, [d] + [], c);
  }

  /** Two conversations known only by the same PNI, in both slots: the second is
      dropped for the first, and takes it along. None is left. */
  lemma SamePniDeletesBoth(c: ConvId, d: ConvId, pni: string, look: Lookups)
    requires c != d
    ensures var a := Conv(Private, BLANK.(serviceId := Some(pni), pni := Some(pni)), None);
            SweepDown(Start([c, d], map[c := a, d := a], look), 1).list == []
  {
    var a := Conv(Private, BLANK.(serviceId := Some(pni), pni := Some(pni)), None);
    var s := Start([c, d], map[c := a, d := a], look);
    assert [c] + ([d] + []) == [c, d] && [d] + [] == [d];
    WithoutCons(d, [], d);
    WithoutCons(d, [], c);
    WithoutCons(c, [d] + [], c);
    var s1 := Visit(s, d);
    assert s1 == s.(byServiceId := map[pni := d]);
    var s2 := ServiceIdBranch(s1, c);
    assert s2.list == [d] && s2.byServiceId == s1.byServiceId;
    assert PniBranch(s2, c).list == [];
    assert Visit(s1, c).list == [];
    assert SweepDown(s, 1) == SweepDown(s1, 0) == SweepDown(Visit(s1, c), -1);
  }

  lemma ThreeTurns(s: Sweep, c: ConvId, d: ConvId, e: ConvId, s1: Sweep, s2: Sweep, s3: Sweep)
    requires s.list == [c, d, e] && s1 == Visit(s, e) && s1.list == [c, d, e]
    requires s2 == Visit(s1, d) && s2.list == [c, d] && s3 == Visit(s2, c)
    ensures SweepDown(s, 2) == s3
  {
    assert SweepDown(s, 2) == SweepDown(s1, 1) == SweepDown(s2, 0) == SweepDown(s3, -1);
  }

  function PrivateConv(serviceId: Option<string>, pni: Option<string>, e164: Option<string>): Conv {
    Conv(Private, Attrs(serviceId, e164, pni, None), None)
  }

  /** The first visit records whatever the conversation has. */
  lemma FirstVisit(s: Sweep, c: ConvId, a: Conv)
    requires c in s.convs && s.convs[c] == a && a.kind.Private?
    requires s.byServiceId == map[] && s.byE164 == map[] && s.byGroupV2Id == map[]
    ensures var ids := a.ids;
            var m := if ids.serviceId.Some? then map[ids.serviceId.value := c] else map[];
            Visit(s, c) == s.(byServiceId := if ids.pni.Some? then m[ids.pni.value := c] else m,
                              byE164 := if ids.e164.Some? then map[ids.e164.value := c] else map[])
  {
    var s1 := ServiceIdBranch(s, c);
    var s2 := PniBranch(s1, c);
    assert s2.convs == s.convs && s2.byE164 == map[] && s2.list == s.list;
    assert E164Branch(s2, c).convs == s.convs;
  }

  lemma PniReplaces(s1: Sweep, c: ConvId, d: ConvId, e: ConvId, a: string, b: string, p: string)
    requires c != d && c != e && d != e && a != b && a != p && b != p && s1.list == [c, d, e]
    requires d in s1.convs && s1.convs[d] == PrivateConv(Some(b), Some(p), None)
    requires e in s1.convs && s1.convs[e].kind.Private? && s1.byServiceId == map[a := e, p := e]
    ensures var s2 := Visit(s1, d);
            && s2.list == [c, d] && s2.convs == s1.convs && s2.byServiceId == map[a := e, p := d, b := d]
            && s2.byE164 == s1.byE164 && s2.byGroupV2Id == s1.byGroupV2Id
  {
    WithoutOne(c, d, e);
    var s' := ServiceIdBranch(s1, d);
    assert s' == s1.(byServiceId := s1.byServiceId[b := d]);
    var s'' := PniBranch(s', d);
    assert s'' == Combine(s', d, e).(byServiceId := s'.byServiceId[p := d]);
    assert s''.byServiceId == map[a := e, p := d, b := d];
    assert Visit(s1, d) == s'';
  }

  /** A conversation with just a service id is combined into its record. */
  lemma JoinsServiceId(s: Sweep, c: ConvId, d: ConvId, e: ConvId, a: string)
    requires c != d && s.list == [c, d] && c in s.convs && s.convs[c] == PrivateConv(Some(a), None, None)
    requires e in s.convs && s.convs[e].kind.Private? && a in s.byServiceId && s.byServiceId[a] == e
    ensures Visit(s, c).list == [d] && Visit(s, c).convs == s.convs
  {
    assert [c] + ([d] + []) == [c, d] && [d] + [] == [d];
    WithoutCons(d, [], c);
    WithoutCons(c, [d] + [], c);
    assert ServiceIdBranch(s, c) == Combine(s, e, c);
  }

  /** One with just a number likewise. */
  lemma JoinsNumber(s: Sweep, c: ConvId, d: ConvId, y: ConvId, n: string)
    requires c != d && s.list == [c, d] && c in s.convs && s.convs[c] == PrivateConv(None, None, Some(n))
    requires y in s.convs && s.convs[y].kind.Private? && n in s.byE164 && s.byE164[n] == y
    ensures Visit(s, c).list == [d] && Visit(s, c).convs == s.convs
  {
    assert [c] + ([d] + []) == [c, d] && [d] + [] == [d];
    WithoutCons(d, [], c);
    WithoutCons(c, [d] + [], c);
    assert PniBranch(ServiceIdBranch(s, c), c) == s;
    assert E164Branch(s, c) == Combine(s, y, c);
  }

  /** `d` replaces `e` for their common PNI, and the record of `e` for its
      service id stays: `c`, which shares that one, is combined into `e`. */
  lemma StaleServiceIdLosesIt(c: ConvId, d: ConvId, e: ConvId, a: string, b: string, p: string, look: Lookups)
    requires c != d && c != e && d != e && a != b && a != p && b != p
    ensures var convs := map[c := PrivateConv(Some(a), None, None), d := PrivateConv(Some(b), Some(p), None),
                             e := PrivateConv(Some(a), Some(p), None)];
            var end := SweepDown(Start([c, d, e], convs, look), 2);
            end.list == [d] && !Held(end, ServiceKey(a))
  {
    var convs := map[c := PrivateConv(Some(a), None, None), d := PrivateConv(Some(b), Some(p), None),
                     e := PrivateConv(Some(a), Some(p), None)];
    var s := Start([c, d, e], convs, look);
    var s1 := Visit(s, e);
    FirstVisit(s, e, convs[e]);
    PniReplaces(s1, c, d, e, a, b, p);
    var s2 := Visit(s1, d);
    JoinsServiceId(s2, c, d, e, a);
    ThreeTurns(s, c, d, e, s1, s2, Visit(s2, c));
    assert !HasKey(convs[d], ServiceKey(a));
  }

  lemma ServiceIdReplaces(s1: Sweep, c: ConvId, d: ConvId, y: ConvId, a: string, n: string, m: string)
    requires c != d && c != y && d != y && n != m && s1.list == [c, d, y]
    requires d in s1.convs && s1.convs[d] == PrivateConv(Some(a), None, Some(m))
    requires y in s1.convs && s1.convs[y].kind.Private?
    requires s1.byServiceId == map[a := y] && s1.byE164 == map[n := y]
    ensures var s2 := Visit(s1, d);
            s2.list == [c, d] && s2.convs == s1.convs && s2.byE164 == map[n := y, m := d]
  {
    WithoutOne(c, d, y);
    var s' := ServiceIdBranch(s1, d);
    assert s' == Combine(s1, d, y).(byServiceId := s1.byServiceId[a := d]);
    assert PniBranch(s', d) == s';
    assert E164Branch(s', d) == s'.(byE164 := s'.byE164[m := d]);
  }

  /** `d` replaces `y` for their common service id, and the record of `y` for
      its number stays: `c`, which has just that number, is combined into `y`. */
  lemma StaleNumberLosesIt(c: ConvId, d: ConvId, y: ConvId, a: string, n: string, m: string, look: Lookups)
    requires c != d && c != y && d != y && n != m
    ensures var convs := map[c := PrivateConv(None, None, Some(n)), d := PrivateConv(Some(a), None, Some(m)),
                             y := PrivateConv(Some(a), None, Some(n))];
            var end := SweepDown(Start([c, d, y], convs, look), 2);
            end.list == [d] && !Held(end, NumberKey(n))
  {
    var convs := map[c := PrivateConv(None, None, Some(n)), d := PrivateConv(Some(a), None, Some(m)),
                     y := PrivateConv(Some(a), None, Some(n))];
    var s := Start([c, d, y], convs, look);
    var s1 := Visit(s, y);
    FirstVisit(s, y, convs[y]);
    ServiceIdReplaces(s1, c, d, y, a, n, m);
    var s2 := Visit(s1, d);
    JoinsNumber(s2, c, d, y, n);
    ThreeTurns(s, c, d, y, s1, s2, Visit(s2, c));
    assert !HasKey(convs[d], NumberKey(n));
  }
}
