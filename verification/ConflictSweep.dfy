/** `checkForConflicts`: one pass over the conversations, newest last, that
    combines those sharing an identifier while the list shrinks under it. */
module ConflictSweep {
  import opened Options
  import opened ConversationIndex

  datatype Kind = Private | GroupV1 | GroupV2

  /** A v1 group has the v2 id derived from it besides its own. */
  datatype Conv = Conv(kind: Kind, ids: Attrs, derivedId: Option<string>)

  function V2Id(a: Conv): Option<string> {
    match a.kind
    case Private => None
    case GroupV1 => a.derivedId
    case GroupV2 => a.ids.groupId
  }

  /** The controller's lookups. */
  datatype Lookups = Lookups(byServiceId: Index, byE164: Index, byPni: Index, byGroupId: Index, byId: Index)

  /** The list, the conversation objects (which outlive their removal from it),
      what the sweep has recorded, and the lookups. */
  datatype Sweep = Sweep(list: seq<ConvId>, convs: map<ConvId, Conv>,
                         byServiceId: Index, byE164: Index, byGroupV2Id: Index, look: Lookups)

  function Of(s: Sweep, c: ConvId): Conv {
    if c in s.convs then s.convs[c] else Conv(Private, BLANK, None)
  }

  /** `#removeFromLookup`. */
  function Forgotten(l: Lookups, c: ConvId, a: Attrs): Lookups {
    Lookups(Removed(l.byServiceId, a.serviceId, c), Removed(l.byE164, a.e164, c), Removed(l.byPni, a.pni, c),
            Removed(l.byGroupId, a.groupId, c), Removed(l.byId, Some(c), c))
  }

  /** `#doCombineConversations`, as far as list and lookups go. Nothing asks
      whether `current` is still in the list. */
  function Combine(s: Sweep, current: ConvId, obsolete: ConvId): Sweep {
    if obsolete !in s.list || Of(s, obsolete).kind.Private? != Of(s, current).kind.Private? then s
    else s.(list := Without(s.list, obsolete), look := Forgotten(s.look, obsolete, Of(s, obsolete).ids))
  }

  // ---------------------------------------------------------------- the branches

  function ServiceIdBranch(s: Sweep, c: ConvId): Sweep {
    var a := Of(s, c);
    if a.ids.serviceId.None? then s
    else
      var k := a.ids.serviceId.value;
      if k !in s.byServiceId then s.(byServiceId := s.byServiceId[k := c])
      else if a.ids.e164.Some? then Combine(s, c, s.byServiceId[k]).(byServiceId := s.byServiceId[k := c])
      else Combine(s, s.byServiceId[k], c)
  }

  /** The test that decides whom to keep includes the PNI just found, so it
      always keeps the newer one. */
  function PniBranch(s: Sweep, c: ConvId): Sweep {
    var a := Of(s, c);
    if a.ids.pni.None? then s
    else
      var k := a.ids.pni.value;
      if k !in s.byServiceId then s.(byServiceId := s.byServiceId[k := c])
      else if s.byServiceId[k] == c then s
      else Combine(s, c, s.byServiceId[k]).(byServiceId := s.byServiceId[k := c])
  }

  function E164Branch(s: Sweep, c: ConvId): Sweep {
    var a := Of(s, c);
    if a.ids.e164.None? then s
    else
      var k := a.ids.e164.value;
      if k !in s.byE164 then s.(byE164 := s.byE164[k := c])
      else
        var existing := s.byE164[k];
        var b := Of(s, existing);
        if a.ids.serviceId.Some? && b.ids.serviceId.Some? && a.ids.serviceId != b.ids.serviceId then
          s.(convs := s.convs[existing := b.(ids := b.ids.(e164 := None))], byE164 := s.byE164[k := c])
        else if a.ids.serviceId.Some? then Combine(s, c, existing).(byE164 := s.byE164[k := c])
        else Combine(s, existing, c)
  }

  function GroupBranch(s: Sweep, c: ConvId): Sweep {
    var a := Of(s, c);
    if V2Id(a).None? then s
    else
      var k := V2Id(a).value;
      if k !in s.byGroupV2Id then s.(byGroupV2Id := s.byGroupV2Id[k := c])
      else
        var existing := s.byGroupV2Id[k];
        if a.kind.GroupV2? && !Of(s, existing).kind.GroupV2? then
          Combine(s, c, existing).(byGroupV2Id := s.byGroupV2Id[k := c])
        else Combine(s, existing, c)
  }

  function Visit(s: Sweep, c: ConvId): Sweep {
    GroupBranch(E164Branch(PniBranch(ServiceIdBranch(s, c), c), c), c)
  }

  /** The rest of the loop, from index `i` down. */
  function SweepDown(s: Sweep, i: int): Sweep
    decreases i + 1
  {
    if i < 0 || i >= |s.list| then s else SweepDown(Visit(s, s.list[i]), i - 1)
  }

  /** Nothing recorded yet. */
  function Start(list: seq<ConvId>, convs: map<ConvId, Conv>, look: Lookups): Sweep {
    Sweep(list, convs, map[], map[], map[], look)
  }

  // ---------------------------------------------------------------- the invariant

  /** Only a private conversation has a service id, a PNI or a number. */
  ghost predicate Typed(convs: map<ConvId, Conv>) {
    forall c :: c in convs ==>
      convs[c].ids.serviceId.Some? || convs[c].ids.pni.Some? || convs[c].ids.e164.Some? ==> convs[c].kind.Private?
  }

  predicate Claims(m: Index, k: Option<string>, c: ConvId) { k.Some? ==> k.value in m && m[k.value] == c }

  /** `c` is the one recorded for each of its first `n` kinds of identifier. */
  predicate Owns(s: Sweep, c: ConvId, n: nat) {
    var a := Of(s, c);
    && (n > 0 ==> Claims(s.byServiceId, a.ids.serviceId, c))
    && (n > 1 ==> Claims(s.byServiceId, a.ids.pni, c))
    && (n > 2 ==> Claims(s.byE164, a.ids.e164, c))
    && (n > 3 ==> Claims(s.byGroupV2Id, V2Id(a), c))
  }

  /** The records name conversations visited before, of the right type. */
  ghost predicate RecordsIn(m: Index, convs: map<ConvId, Conv>, seen: set<ConvId>, private: bool) {
    forall k :: k in m ==> m[k] in seen && m[k] in convs && convs[m[k]].kind.Private? == private
  }

  /** The records, when `c` has been through its first `n` branches. */
  ghost predicate Recorded(s: Sweep, seen: set<ConvId>, c: ConvId, n: nat) {
    && c in s.convs && Typed(s.convs)
    && RecordsIn(s.byServiceId, s.convs, if n == 0 then seen else seen + {c}, true)
    && RecordsIn(s.byE164, s.convs, if n <= 2 then seen else seen + {c}, true)
    && RecordsIn(s.byGroupV2Id, s.convs, if n <= 3 then seen else seen + {c}, false)
  }

  /** Who is left, and what they own: `pre` is still to come, and `seen` are
      the conversations visited before `c`. */
  ghost predicate Owned(s: Sweep, pre: seq<ConvId>, seen: set<ConvId>, c: ConvId, n: nat) {
    && c !in seen
    && (forall d :: d in seen && d in s.list ==> Owns(s, d, 4))
    && (c in s.list ==> Owns(s, c, n))
    && Ahead(s, pre, seen + {c})
  }

  ghost predicate Visiting(s: Sweep, pre: seq<ConvId>, seen: set<ConvId>, c: ConvId, n: nat) {
    Recorded(s, seen, c, n) && Owned(s, pre, seen, c, n)
  }

  /** The part of the list still to come is untouched; the rest was visited. */
  ghost predicate Ahead(s: Sweep, pre: seq<ConvId>, done: set<ConvId>) {
    && pre <= s.list
    && (forall x :: x in pre ==> x !in done && x in s.convs)
    && (forall d :: d in s.list ==> d in pre || d in done)
  }

  lemma {:induction false} InWithout(list: seq<ConvId>, c: ConvId, d: ConvId)
    ensures d in Without(list, c) <==> d in list && d != c
  {
    if list != [] {
      InWithout(list[1..], c, d);
      assert d in list <==> d == list[0] || d in list[1..];
    }
  }

  lemma {:induction false} WithoutKeepsPrefix(list: seq<ConvId>, pre: seq<ConvId>, c: ConvId)
    requires pre <= list && c !in pre
    ensures pre <= Without(list, c)
  {
    if pre != [] {
      assert list[0] == pre[0] && pre[0] in pre;
      assert forall x :: x in pre[1..] ==> x in pre;
      WithoutKeepsPrefix(list[1..], pre[1..], c);
      assert pre == [pre[0]] + pre[1..];
    }
  }

  lemma CombineDrops(s: Sweep, current: ConvId, obsolete: ConvId, pre: seq<ConvId>, done: set<ConvId>)
    requires Of(s, obsolete).kind.Private? == Of(s, current).kind.Private?
    requires Ahead(s, pre, done) && obsolete in done
    ensures forall d :: d in Combine(s, current, obsolete).list <==> d in s.list && d != obsolete
    ensures Ahead(Combine(s, current, obsolete), pre, done)
  {
    forall d ensures d in Without(s.list, obsolete) <==> d in s.list && d != obsolete {
      InWithout(s.list, obsolete, d);
    }
    WithoutKeepsPrefix(s.list, pre, obsolete);
  }

  lemma ServiceIdRecorded(s: Sweep, seen: set<ConvId>, c: ConvId)
    requires Recorded(s, seen, c, 0)
    ensures Recorded(ServiceIdBranch(s, c), seen, c, 1)
  {
  }

  lemma PniRecorded(s: Sweep, seen: set<ConvId>, c: ConvId)
    requires Recorded(s, seen, c, 1)
    ensures Recorded(PniBranch(s, c), seen, c, 2)
  {
  }

  lemma GroupRecorded(s: Sweep, seen: set<ConvId>, c: ConvId)
    requires Recorded(s, seen, c, 3)
    ensures Recorded(GroupBranch(s, c), seen, c, 4)
  {
  }

  lemma ServiceIdVisit(s: Sweep, pre: seq<ConvId>, seen: set<ConvId>, c: ConvId)
    requires Visiting(s, pre, seen, c, 0)
    ensures Visiting(ServiceIdBranch(s, c), pre, seen, c, 1)
  {
    ServiceIdRecorded(s, seen, c);
    ServiceIdOwned(s, pre, seen, c);
  }

  lemma ServiceIdOwned(s: Sweep, pre: seq<ConvId>, seen: set<ConvId>, c: ConvId)
    requires Visiting(s, pre, seen, c, 0)
    ensures Owned(ServiceIdBranch(s, c), pre, seen, c, 1)
  {
    var a := Of(s, c);
    if a.ids.serviceId.Some? && a.ids.serviceId.value in s.byServiceId {
      var k := a.ids.serviceId.value;
      var e := s.byServiceId[k];
      if a.ids.e164.Some? { ServiceIdTaken(s, pre, seen, c, k, e); } else { OlderKept(s, pre, seen, c, e, 0, 1); }
    }
  }

  /** The visited conversation goes, and those before it own what they owned. */
  lemma OlderKept(s: Sweep, pre: seq<ConvId>, seen: set<ConvId>, c: ConvId, e: ConvId, n: nat, n': nat)
    requires Owned(s, pre, seen, c, n) && Of(s, e).kind.Private? == Of(s, c).kind.Private?
    ensures Owned(Combine(s, e, c), pre, seen, c, n')
  {
    CombineDrops(s, e, c, pre, seen + {c});
    var s' := Combine(s, e, c);
    forall d | d in seen && d in s'.list ensures Owns(s', d, 4) { assert Owns(s, d, 4); }
  }

  lemma ServiceIdTaken(s: Sweep, pre: seq<ConvId>, seen: set<ConvId>, c: ConvId, k: string, e: ConvId)
    requires Visiting(s, pre, seen, c, 0) && Of(s, c).ids.serviceId == Some(k)
    requires k in s.byServiceId && s.byServiceId[k] == e
    ensures Owned(Combine(s, c, e).(byServiceId := s.byServiceId[k := c]), pre, seen, c, 1)
  {
    CombineDrops(s, c, e, pre, seen + {c});
    var s' := Combine(s, c, e).(byServiceId := s.byServiceId[k := c]);
    forall d | d in seen && d in s'.list ensures Owns(s', d, 4) { assert Owns(s, d, 4); }
  }

  lemma PniTaken(s: Sweep, pre: seq<ConvId>, seen: set<ConvId>, c: ConvId, k: string, e: ConvId)
    requires Visiting(s, pre, seen, c, 1) && Of(s, c).ids.pni == Some(k)
    requires k in s.byServiceId && s.byServiceId[k] == e && e != c
    ensures Owned(Combine(s, c, e).(byServiceId := s.byServiceId[k := c]), pre, seen, c, 2)
  {
    CombineDrops(s, c, e, pre, seen + {c});
    var s' := Combine(s, c, e).(byServiceId := s.byServiceId[k := c]);
    forall d | d in seen && d in s'.list ensures Owns(s', d, 4) { assert Owns(s, d, 4); }
  }

  lemma PniVisit(s: Sweep, pre: seq<ConvId>, seen: set<ConvId>, c: ConvId)
    requires Visiting(s, pre, seen, c, 1)
    ensures Visiting(PniBranch(s, c), pre, seen, c, 2)
  {
    PniRecorded(s, seen, c);
    var a := Of(s, c);
    if a.ids.pni.Some? && a.ids.pni.value in s.byServiceId && s.byServiceId[a.ids.pni.value] != c {
      PniTaken(s, pre, seen, c, a.ids.pni.value, s.byServiceId[a.ids.pni.value]);
    }
  }

  /** Both keep their service ids, and the one met earlier loses the number. */
  lemma NumberDropped(s: Sweep, pre: seq<ConvId>, seen: set<ConvId>, c: ConvId, e: ConvId)
    requires Visiting(s, pre, seen, c, 2) && Of(s, c).ids.e164.Some?
    requires Of(s, c).ids.e164.value in s.byE164 && s.byE164[Of(s, c).ids.e164.value] == e
    ensures var k := Of(s, c).ids.e164.value;
            Visiting(s.(convs := s.convs[e := Of(s, e).(ids := Of(s, e).ids.(e164 := None))],
                        byE164 := s.byE164[k := c]), pre, seen, c, 3)
  {
    var k := Of(s, c).ids.e164.value;
    var s' := s.(convs := s.convs[e := Of(s, e).(ids := Of(s, e).ids.(e164 := None))], byE164 := s.byE164[k := c]);
    forall d | d in seen && d in s'.list ensures Owns(s', d, 4) { assert Owns(s, d, 4); }
  }

  lemma NewerKeepsNumber(s: Sweep, pre: seq<ConvId>, seen: set<ConvId>, c: ConvId, e: ConvId)
    requires Visiting(s, pre, seen, c, 2) && Of(s, c).ids.e164.Some?
    requires Of(s, c).ids.e164.value in s.byE164 && s.byE164[Of(s, c).ids.e164.value] == e
    ensures Visiting(Combine(s, c, e).(byE164 := s.byE164[Of(s, c).ids.e164.value := c]), pre, seen, c, 3)
  {
    CombineDrops(s, c, e, pre, seen + {c});
  }

  lemma OlderKeepsNumber(s: Sweep, pre: seq<ConvId>, seen: set<ConvId>, c: ConvId, e: ConvId)
    requires Visiting(s, pre, seen, c, 2) && Of(s, c).ids.e164.Some?
    requires Of(s, c).ids.e164.value in s.byE164 && s.byE164[Of(s, c).ids.e164.value] == e
    ensures Visiting(Combine(s, e, c), pre, seen, c, 3)
  {
    OlderKept(s, pre, seen, c, e, 2, 3);
  }

  lemma E164Visit(s: Sweep, pre: seq<ConvId>, seen: set<ConvId>, c: ConvId)
    requires Visiting(s, pre, seen, c, 2)
    ensures Visiting(E164Branch(s, c), pre, seen, c, 3)
  {
    var a := Of(s, c);
    if a.ids.e164.Some? && a.ids.e164.value in s.byE164 {
      var e := s.byE164[a.ids.e164.value];
      NumberDropped(s, pre, seen, c, e);
      NewerKeepsNumber(s, pre, seen, c, e);
      OlderKeepsNumber(s, pre, seen, c, e);
    }
  }

  lemma GroupVisit(s: Sweep, pre: seq<ConvId>, seen: set<ConvId>, c: ConvId)
    requires Visiting(s, pre, seen, c, 3)
    ensures Visiting(GroupBranch(s, c), pre, seen, c, 4)
  {
    GroupRecorded(s, seen, c);
    GroupOwned(s, pre, seen, c);
  }

  lemma GroupTaken(s: Sweep, pre: seq<ConvId>, seen: set<ConvId>, c: ConvId, k: string, e: ConvId)
    requires Visiting(s, pre, seen, c, 3) && V2Id(Of(s, c)) == Some(k)
    requires k in s.byGroupV2Id && s.byGroupV2Id[k] == e
    ensures Owned(Combine(s, c, e).(byGroupV2Id := s.byGroupV2Id[k := c]), pre, seen, c, 4)
  {
    CombineDrops(s, c, e, pre, seen + {c});
    var s' := Combine(s, c, e).(byGroupV2Id := s.byGroupV2Id[k := c]);
    forall d | d in seen && d in s'.list ensures Owns(s', d, 4) { assert Owns(s, d, 4); }
  }

  lemma GroupOwned(s: Sweep, pre: seq<ConvId>, seen: set<ConvId>, c: ConvId)
    requires Visiting(s, pre, seen, c, 3)
    ensures Owned(GroupBranch(s, c), pre, seen, c, 4)
  {
    var a := Of(s, c);
    if V2Id(a).Some? && V2Id(a).value in s.byGroupV2Id {
      var k := V2Id(a).value;
      var e := s.byGroupV2Id[k];
      if a.kind.GroupV2? && !Of(s, e).kind.GroupV2? { GroupTaken(s, pre, seen, c, k, e); }
      else { OlderKept(s, pre, seen, c, e, 3, 4); }
    }
  }

  /** Between two turns: everything visited and still there owns its identifiers. */
  ghost predicate Between(s: Sweep, pre: seq<ConvId>, seen: set<ConvId>) {
    && Typed(s.convs) && Distinct(pre)
    && RecordsIn(s.byServiceId, s.convs, seen, true)
    && RecordsIn(s.byE164, s.convs, seen, true)
    && RecordsIn(s.byGroupV2Id, s.convs, seen, false)
    && (forall d :: d in seen && d in s.list ==> Owns(s, d, 4))
    && Ahead(s, pre, seen)
  }

  lemma VisitBegins(s: Sweep, pre: seq<ConvId>, seen: set<ConvId>, c: ConvId)
    requires Between(s, pre + [c], seen)
    ensures Visiting(s, pre, seen, c, 0) && Distinct(pre) && c in s.list
  {
    var all := pre + [c];
    assert s.list[|pre|] == all[|pre|];
    assert c == all[|pre|] && c in all;
    assert forall i :: 0 <= i < |pre| ==> all[i] == pre[i];
    assert forall x :: x in pre ==> x in all && x != c;
    assert forall x :: x in all ==> x in pre || x == c;
  }

  lemma VisitGoesThrough(s: Sweep, pre: seq<ConvId>, seen: set<ConvId>, c: ConvId)
    requires Visiting(s, pre, seen, c, 0)
    ensures var s1 := ServiceIdBranch(s, c);
            var s2 := PniBranch(s1, c);
            var s3 := E164Branch(s2, c);
            && Visiting(s1, pre, seen, c, 1) && Visiting(s2, pre, seen, c, 2) && Visiting(s3, pre, seen, c, 3)
            && Visiting(Visit(s, c), pre, seen, c, 4)
  {
    ServiceIdVisit(s, pre, seen, c);
    var s1 := ServiceIdBranch(s, c);
    PniVisit(s1, pre, seen, c);
    var s2 := PniBranch(s1, c);
    E164Visit(s2, pre, seen, c);
    GroupVisit(E164Branch(s2, c), pre, seen, c);
  }

  lemma VisitEnds(s: Sweep, pre: seq<ConvId>, seen: set<ConvId>, c: ConvId)
    requires Visiting(s, pre, seen, c, 4) && Distinct(pre)
    ensures Between(s, pre, seen + {c})
  {
  }

  lemma VisitKeepsBetween(s: Sweep, pre: seq<ConvId>, seen: set<ConvId>, c: ConvId)
    requires Between(s, pre + [c], seen)
    ensures Between(Visit(s, c), pre, seen + {c})
  {
    VisitBegins(s, pre, seen, c);
    VisitGoesThrough(s, pre, seen, c);
    VisitEnds(Visit(s, c), pre, seen, c);
  }

  /** The identifiers that the sweep compares. */
  function SweptIds(a: Conv): Attrs { a.ids.(groupId := V2Id(a)) }

  ghost predicate AllApart(s: Sweep) {
    forall c, d :: c in s.list && d in s.list && c != d ==> Apart(SweptIds(Of(s, c)), SweptIds(Of(s, d)))
  }

  /** Whatever the list, no two conversations left by the sweep share a service
      id, a PNI, a number or a group id, not even across slots. */
  lemma {:induction false} SweepSeparates(s: Sweep, pre: seq<ConvId>, seen: set<ConvId>)
    requires Between(s, pre, seen)
    ensures AllApart(SweepDown(s, |pre| - 1))
    decreases |pre|
  {
    if pre == [] {
      forall c, d | c in s.list && d in s.list && c != d ensures Apart(SweptIds(Of(s, c)), SweptIds(Of(s, d))) {
        assert Owns(s, c, 4) && Owns(s, d, 4);
      }
    } else {
      var n := |pre| - 1;
      assert s.list[n] == pre[n];
      assert pre == pre[..n] + [pre[n]];
      VisitKeepsBetween(s, pre[..n], seen, pre[n]);
      SweepSeparates(Visit(s, pre[n]), pre[..n], seen + {pre[n]});
    }
  }

  // --------------------------------------------------------------- the loop itself

  function VisitedFrom(original: seq<ConvId>, i: nat): set<ConvId>
    decreases |original| - i
  {
    if i >= |original| then {} else {original[i]} + VisitedFrom(original, i + 1)
  }

  ghost predicate LoopInv(s: Sweep, original: seq<ConvId>, i: int)
    requires -1 <= i < |original|
  {
    Between(s, original[..i + 1], VisitedFrom(original, i + 1))
  }

  lemma LoopStarts(original: seq<ConvId>, convs: map<ConvId, Conv>, look: Lookups)
    requires Sweepable(original, convs)
    ensures Between(Start(original, convs, look), original, {})
    ensures AllApart(SweepDown(Start(original, convs, look), |original| - 1))
  {
    SweepSeparates(Start(original, convs, look), original, {});
  }

  lemma LoopTurns(s: Sweep, original: seq<ConvId>, i: int)
    requires 0 <= i < |original| && LoopInv(s, original, i)
    ensures i < |s.list| && s.list[i] == original[i]
    ensures LoopInv(Visit(s, original[i]), original, i - 1)
  {
    var pre := original[..i + 1];
    assert pre == pre[..i] + [pre[i]];
    VisitKeepsBetween(s, pre[..i], VisitedFrom(original, i + 1), pre[i]);
    assert pre[..i] == original[..i] && pre[i] == original[i] && s.list[i] == pre[i];
    assert VisitedFrom(original, i) == VisitedFrom(original, i + 1) + {pre[i]};
  }

  /** The state in which the loop reaches index `i`. */
  ghost function SweepTo(original: seq<ConvId>, convs: map<ConvId, Conv>, look: Lookups, i: int): Sweep
    requires -1 <= i < |original|
    decreases |original| - i
  {
    if i == |original| - 1 then Start(original, convs, look)
    else Visit(SweepTo(original, convs, look, i + 1), original[i + 1])
  }

  ghost predicate Sweepable(original: seq<ConvId>, convs: map<ConvId, Conv>) {
    Distinct(original) && Typed(convs) && forall c :: c in original ==> c in convs
  }

  lemma LoopBegins(original: seq<ConvId>, convs: map<ConvId, Conv>, look: Lookups)
    requires Sweepable(original, convs)
    ensures LoopInv(Start(original, convs, look), original, |original| - 1)
  {
    LoopStarts(original, convs, look);
    assert original[..|original|] == original;
  }

  lemma {:induction false} LoopReaches(original: seq<ConvId>, convs: map<ConvId, Conv>, look: Lookups, i: int)
    requires Sweepable(original, convs) && -1 <= i < |original|
    ensures LoopInv(SweepTo(original, convs, look, i), original, i)
    decreases |original| - i
  {
    if i == |original| - 1 {
      LoopBegins(original, convs, look);
    } else {
      LoopReaches(original, convs, look, i + 1);
      LoopTurns(SweepTo(original, convs, look, i + 1), original, i + 1);
    }
  }

  /** When the loop is at index `i`, what stands there is the original. */
  lemma OriginalStands(original: seq<ConvId>, convs: map<ConvId, Conv>, look: Lookups, i: int)
    requires Sweepable(original, convs) && 0 <= i < |original|
    ensures var s := SweepTo(original, convs, look, i); i < |s.list| && s.list[i] == original[i]
  {
    LoopReaches(original, convs, look, i);
    LoopTurns(SweepTo(original, convs, look, i), original, i);
  }

  lemma OneDown(s: Sweep, i: nat, c: ConvId)
    requires i < |s.list| && s.list[i] == c
    ensures SweepDown(s, i) == SweepDown(Visit(s, c), i - 1)
  {
  }

  lemma {:induction false} LoopGoesDown(original: seq<ConvId>, convs: map<ConvId, Conv>, look: Lookups, i: int)
    requires Sweepable(original, convs) && -1 <= i < |original|
    ensures SweepDown(SweepTo(original, convs, look, i), i) == SweepDown(Start(original, convs, look), |original| - 1)
    decreases |original| - i
  {
    if i < |original| - 1 {
      LoopGoesDown(original, convs, look, i + 1);
      OriginalStands(original, convs, look, i + 1);
      OneDown(SweepTo(original, convs, look, i + 1), i + 1, original[i + 1]);
    }
  }

  lemma LoopEnds(original: seq<ConvId>, convs: map<ConvId, Conv>, look: Lookups)
    requires Sweepable(original, convs)
    ensures SweepTo(original, convs, look, -1) == SweepDown(Start(original, convs, look), |original| - 1)
  {
    LoopGoesDown(original, convs, look, -1);
  }
}
