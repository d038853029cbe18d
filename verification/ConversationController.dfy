/** The controller as an object: the list, the attributes and the five lookup
    objects are fields that its methods update in place, and its loops are
    loops. Each method is proved to do what the functions of
    ConversationIndex and MergeContacts say. */
module ConversationControllerClass {
  import opened Options
  import opened ConversationIndex
  import opened MergeContacts
  import Sweeping = ConflictSweep
  import SweepLosses
  import SweepLookups

  lemma {:induction false} UseAllFrame(l: Local, us: seq<Item>, m: ConvId, pni: Option<string>, newId: ConvId)
    requires Usable(us)
    ensures UseAll(l, us, m, pni, newId)
            == UseAll(Local(l.book, l.target, [], []), us, m, pni, newId).(unused := l.unused, merges := l.merges)
    decreases |us|
  {
    if us != [] {
      var bare := Local(l.book, l.target, [], []);
      var l1 := UseOne(l, us[0], m, pni, newId);
      UseAllFrame(l1, us[1..], m, pni, newId);
      UseAllFrame(UseOne(bare, us[0], m, pni, newId), us[1..], m, pni, newId);
    }
  }

  /** The state of the loop over the three matches before turn `i`. */
  ghost function Progress(b: Book, aci: Option<string>, e164: Option<string>, pni: Option<string>, newId: ConvId,
                          i: nat): (l: Local)
    ensures Usable(l.unused)
  {
    if i == 0 then Local(b, None, [], [])
    else if i == 1 then AfterAci(b, aci, pni, newId)
    else if i == 2 then AfterE164(b, aci, e164, pni, newId)
    else Process(AfterE164(b, aci, e164, pni, newId), Item(Pni, pni, LookupOpt(b, pni)), pni, newId)
  }

  /** One test of `#addToLookup`: an existing entry stays if it has the field
      that makes it the better one. */
  method AddToLookup(i: Index, convs: map<ConvId, Attrs>, v: Option<string>, c: ConvId, better: Option<Field>)
    returns (r: Index)
    ensures r == Added(i, convs, v, c, better)
  {
    if v.None? { return i; }
    if v.value in i && better.Some? {
      var existing := i[v.value];
      if existing in convs && Get(convs[existing], better.value).Some? { return i; }
    }
    return i[v.value := c];
  }

  /** One test of `#removeFromLookup`: an entry of someone else stays. */
  method RemoveFromLookup(i: Index, v: Option<string>, c: ConvId) returns (r: Index)
    ensures r == Removed(i, v, c)
  {
    if v.None? { return i; }
    if v.value in i && i[v.value] != c { return i; }
    return i - {v.value};
  }

  /** `s` is the state in which the sweep comes to index `i`. */
  ghost predicate AtTurn(s: Sweeping.Sweep, original: seq<ConvId>, objects: map<ConvId, Sweeping.Conv>,
                         look: Sweeping.Lookups, i: int)
  {
    -1 <= i < |original| && s == Sweeping.SweepTo(original, objects, look, i)
  }

  lemma FirstTurn(original: seq<ConvId>, objects: map<ConvId, Sweeping.Conv>, look: Sweeping.Lookups)
    ensures AtTurn(Sweeping.Start(original, objects, look), original, objects, look, |original| - 1)
  {
  }

  lemma NextTurn(s: Sweeping.Sweep, original: seq<ConvId>, objects: map<ConvId, Sweeping.Conv>,
                 look: Sweeping.Lookups, i: nat)
    requires Sweeping.Sweepable(original, objects) && AtTurn(s, original, objects, look, i)
    ensures i < |original| && i < |s.list| && s.list[i] == original[i]
    ensures Sweeping.Visiting(s, original[..i], Sweeping.VisitedFrom(original, i + 1), original[i], 0)
    ensures AtTurn(Sweeping.Visit(s, original[i]), original, objects, look, i - 1)
  {
    Sweeping.OriginalStands(original, objects, look, i);
    SweepLosses.TurnBegins(original, objects, look, i);
  }

  lemma LastTurn(s: Sweeping.Sweep, original: seq<ConvId>, objects: map<ConvId, Sweeping.Conv>, look: Sweeping.Lookups)
    requires Sweeping.Sweepable(original, objects) && AtTurn(s, original, objects, look, -1)
    ensures s == Sweeping.SweepDown(Sweeping.Start(original, objects, look), |original| - 1) && Sweeping.AllApart(s)
  {
    Sweeping.LoopStarts(original, objects, look);
    Sweeping.LoopEnds(original, objects, look);
  }

  /** The conversations visited so far are the originals, from the last down. */
  ghost predicate Downward(visited: seq<ConvId>, original: seq<ConvId>) {
    |visited| <= |original| && forall k :: 0 <= k < |visited| ==> visited[k] == original[|original| - 1 - k]
  }

  lemma OneFurtherDown(visited: seq<ConvId>, original: seq<ConvId>, c: ConvId)
    requires Downward(visited, original) && |visited| < |original| && c == original[|original| - 1 - |visited|]
    ensures Downward(visited + [c], original)
  {
  }

  /** What the sweep keeps besides the controller: every conversation object,
      listed or not, and its three records. */
  datatype Records = Records(objects: map<ConvId, Sweeping.Conv>, byServiceId: Index, byE164: Index, byGroupV2Id: Index)

  class ConversationController {
    var conversations: seq<ConvId>
    var attributes: map<ConvId, Attrs>
    var byServiceId: Index
    var byE164: Index
    var byPni: Index
    var byGroupId: Index
    var byId: Index

    ghost function State(): Book
      reads this
    {
      Book(conversations, attributes, byServiceId, byE164, byPni, byGroupId, byId)
    }

    constructor ()
      ensures State() == EMPTY_BOOK && Indexed(State())
    {
      conversations, attributes := [], map[];
      byServiceId, byE164, byPni, byGroupId, byId := map[], map[], map[], map[], map[];
    }

    method Get(k: string) returns (r: Option<ConvId>)
      ensures r == Lookup(State(), k)
    {
      if k in byE164 { return Some(byE164[k]); }
      if "+" + k in byE164 { return Some(byE164["+" + k]); }
      if k in byServiceId { return Some(byServiceId[k]); }
      if k in byPni { return Some(byPni[k]); }
      if k in byGroupId { return Some(byGroupId[k]); }
      if k in byId { return Some(byId[k]); }
      return None;
    }

    method IdUpdated(c: ConvId, f: Field, oldValue: Option<string>)
      requires c in attributes
      modifies this`byServiceId, this`byE164, this`byPni, this`byGroupId
      ensures State() == ConversationIndex.IdUpdated(old(State()), c, f, oldValue)
    {
      var v := ConversationIndex.Get(attributes[c], f);
      match f {
        case ServiceId =>
          if oldValue.Some? { byServiceId := byServiceId - {oldValue.value}; }
          if v.Some? { byServiceId := byServiceId[v.value := c]; }
        case E164 =>
          if oldValue.Some? { byE164 := byE164 - {oldValue.value}; }
          if v.Some? { byE164 := byE164[v.value := c]; }
        case Pni =>
          if oldValue.Some? { byPni := byPni - {oldValue.value}; }
          if v.Some? { byPni := byPni[v.value := c]; }
        case GroupId =>
          if oldValue.Some? { byGroupId := byGroupId - {oldValue.value}; }
          if v.Some? { byGroupId := byGroupId[v.value := c]; }
      }
    }

    /** `updateServiceId`, `updateE164`, `updatePni`. */
    method UpdateField(c: ConvId, f: Field, v: Option<string>)
      requires c in attributes
      modifies this`attributes, this`byServiceId, this`byE164, this`byPni, this`byGroupId
      ensures State() == Update(old(State()), c, f, v)
    {
      var oldValue := ConversationIndex.Get(attributes[c], f);
      if v == oldValue { return; }
      attributes := attributes[c := Set(attributes[c], f, v)];
      IdUpdated(c, f, oldValue);
    }

    /** `#addConversation`, with the five tests of `#addToLookup`. */
    method AddConversation(c: ConvId, a: Attrs)
      modifies this
      ensures State() == Add(old(State()), c, a)
    {
      var convs := attributes[c := a];
      var newById := AddToLookup(byId, convs, Some(c), c, Some(ServiceId));
      var newByE164 := AddToLookup(byE164, convs, a.e164, c, Some(ServiceId));
      var newByServiceId := AddToLookup(byServiceId, convs, a.serviceId, c, Some(E164));
      var newByPni := AddToLookup(byPni, convs, a.pni, c, Some(ServiceId));
      var newByGroupId := AddToLookup(byGroupId, convs, a.groupId, c, None);
      conversations, attributes := conversations + [c], convs;
      byId, byE164, byServiceId, byPni, byGroupId := newById, newByE164, newByServiceId, newByPni, newByGroupId;
    }

    /** `#removeConversation`, with the filtering of `without` as a loop and the
        five tests of `#removeFromLookup`. */
    method RemoveConversation(c: ConvId)
      requires c in attributes
      modifies this
      ensures State() == Remove(old(State()), c)
    {
      var a := attributes[c];
      var kept: seq<ConvId> := [];
      var i := |conversations|;
      while i > 0
        invariant 0 <= i <= |conversations| && conversations == old(conversations)
        invariant kept == Without(conversations[i..], c)
        invariant State() == old(State())
      {
        i := i - 1;
        assert conversations[i..][0] == conversations[i] && conversations[i..][1..] == conversations[i + 1..];
        if conversations[i] != c { kept := [conversations[i]] + kept; }
      }
      assert conversations[0..] == conversations;
      var newById := RemoveFromLookup(byId, Some(c), c);
      var newByE164 := RemoveFromLookup(byE164, a.e164, c);
      var newByServiceId := RemoveFromLookup(byServiceId, a.serviceId, c);
      var newByPni := RemoveFromLookup(byPni, a.pni, c);
      var newByGroupId := RemoveFromLookup(byGroupId, a.groupId, c);
      conversations, attributes := kept, attributes - {c};
      byId, byE164, byServiceId, byPni, byGroupId := newById, newByE164, newByServiceId, newByPni, newByGroupId;
    }

    method ApplyChange(c: ConvId, suggested: Change)
      modifies this`attributes, this`byServiceId, this`byE164, this`byPni, this`byGroupId
      ensures State() == MergeContacts.ApplyChange(old(State()), c, suggested)
    {
      if c !in attributes { return; }
      var change := Completed(attributes[c], suggested);
      if change.serviceId.To? { UpdateField(c, ServiceId, change.serviceId.v); }
      if change.e164.To? { UpdateField(c, E164, change.e164.v); }
      if change.pni.To? { UpdateField(c, Pni, change.pni.v); }
    }

    method GetOrCreate(identifier: string, kind: Kind, extra: Attrs, newId: ConvId) returns (c: ConvId)
      modifies this
      ensures (State(), c) == GetOrCreateAs(old(State()), kind, identifier, extra, newId)
    {
      var found := Get(identifier);
      if found.Some? { return found.value; }
      AddConversation(newId, CreatedAs(kind, identifier, extra));
      return newId;
    }

    method AttributesOf(c: ConvId) returns (a: Attrs)
      ensures a == AttrsOf(State(), c)
    {
      a := if c in attributes then attributes[c] else BLANK;
    }

    /** One turn of the inner loop: choose the target, and give it the value. */
    method UseItem(target: Option<ConvId>, u: Item, m: ConvId, pni: Option<string>, newId: ConvId)
      returns (t: ConvId)
      requires u.value.Some? && u.key != GroupId
      modifies this
      ensures Local(State(), Some(t), [], []) == UseOne(Local(old(State()), target, [], []), u, m, pni, newId)
    {
      if target.Some? {
        t := target.value;
      } else {
        var a := AttributesOf(m);
        var samePni := a.serviceId == pni || a.serviceId == a.pni;
        if ConversationIndex.Get(a, u.key).None? || (u.key == ServiceId && samePni) { t := m; }
        else { t := GetOrCreate(u.value.value, PrivateKind, BLANK, newId); }
      }
      ApplyChange(t, One(u.key, u.value));
    }

    /** The inner loop over the unused items, given a match. */
    method UseUnused(target: Option<ConvId>, unused: seq<Item>, m: ConvId, pni: Option<string>, newId: ConvId)
      returns (target': Option<ConvId>)
      requires Usable(unused)
      modifies this
      ensures UseAll(Local(old(State()), target, [], []), unused, m, pni, newId) == Local(State(), target', [], [])
    {
      target' := target;
      var j := 0;
      while j < |unused|
        invariant j <= |unused|
        invariant UseAll(Local(old(State()), target, [], []), unused, m, pni, newId)
                  == UseAll(Local(State(), target', [], []), unused[j..], m, pni, newId)
      {
        assert unused[j..][0] == unused[j] && unused[j..][1..] == unused[j + 1..];
        var t := UseItem(target', unused[j], m, pni, newId);
        target' := Some(t);
        j := j + 1;
      }
      assert unused[j..] == [];
    }

    /** Clear the value on the match, then put it on the target. */
    method MoveToTarget(t: ConvId, m: ConvId, key: Field, value: string, pni: Option<string>) returns (willMerge: bool)
      requires key != GroupId
      modifies this
      ensures MoveValue(Local(old(State()), Some(t), [], []), t, m, key, value, pni)
              == Local(State(), Some(t), [], if willMerge then [m] else [])
    {
      var a := AttributesOf(m);
      var change := One(key, None);
      if key != ServiceId && a.serviceId == pni { change := change.(serviceId := To(None)); }
      ApplyChange(m, change);
      a := AttributesOf(m);
      willMerge := a.serviceId.None? && a.e164.None? && a.pni.None?;
      ApplyChange(t, One(key, Some(value)));
    }

    /** One turn of the loop over the matches. */
    method ProcessItem(target: Option<ConvId>, unused: seq<Item>, merges: seq<ConvId>, item: Item, pni: Option<string>,
                       newId: ConvId)
      returns (target': Option<ConvId>, unused': seq<Item>, merges': seq<ConvId>)
      requires item.key != GroupId && Usable(unused)
      modifies this
      ensures Process(Local(old(State()), target, unused, merges), item, pni, newId)
              == Local(State(), target', unused', merges')
    {
      target', unused', merges' := target, unused, merges;
      if item.value.None? { return; }
      if item.found.None? {
        if target.Some? { ApplyChange(target.value, One(item.key, item.value)); } else { unused' := unused + [item]; }
        return;
      }
      var m := item.found.value;
      UseAllFrame(Local(State(), target, unused, merges), unused, m, pni, newId);
      target' := UseUnused(target, unused, m, pni, newId);
      unused' := [];
      if target'.None? {
        target' := Some(m);
      } else if target'.value != m {
        var willMerge := MoveToTarget(target'.value, m, item.key, item.value.value, pni);
        if willMerge { merges' := merges' + [m]; }
      } else {
        var a := AttributesOf(m);
        if ConversationIndex.Get(a, item.key).None? { ApplyChange(m, One(item.key, item.value)); }
      }
    }

    /** `maybeMergeContacts`; no conversation is its throw. */
    method MaybeMergeContacts(aci: Option<string>, e164: Option<string>, pni: Option<string>, newId: ConvId)
      returns (conversation: Option<ConvId>, merges: seq<ConvId>)
      modifies this
      ensures match MergeContacts.MaybeMergeContacts(old(State()), aci, e164, pni, newId)
              case None => conversation.None? && State() == old(State()) && merges == []
              case Some(r) => State() == r.book && conversation == Some(r.target) && merges == r.merges
    {
      merges := [];
      if aci.None? && e164.None? && pni.None? { return None, []; }
      ghost var b := State();
      var byAci, byNumber, byPni := None, None, None;
      if aci.Some? { byAci := Get(aci.value); }
      if e164.Some? { byNumber := Get(e164.value); }
      if pni.Some? { byPni := Get(pni.value); }
      var matches := [Item(ServiceId, aci, byAci), Item(E164, e164, byNumber), Item(Pni, pni, byPni)];
      var unused: seq<Item> := [];
      var target: Option<ConvId> := None;
      var i := 0;
      while i < 3
        invariant 0 <= i <= 3
        invariant Local(State(), target, unused, merges) == Progress(b, aci, e164, pni, newId, i)
      {
        target, unused, merges := ProcessItem(target, unused, merges, matches[i], pni, newId);
        i := i + 1;
      }
      if target.Some? { return target, merges; }
      var identifier := if aci.Some? then aci.value else if pni.Some? then pni.value else e164.value;
      var c := GetOrCreate(identifier, PrivateKind, Attrs(None, e164, pni, None), newId);
      return Some(c), merges;
    }

    // -------------------------------------------------------- checkForConflicts

    ghost function SweepState(r: Records): Sweeping.Sweep
      reads this
    {
      Sweeping.Sweep(conversations, r.objects, r.byServiceId, r.byE164, r.byGroupV2Id,
                     Sweeping.Lookups(byServiceId, byE164, byPni, byGroupId, byId))
    }

    /** The attributes are those of the listed objects. */
    ghost predicate InStep(r: Records)
      reads this
    {
      State() == SweepLookups.BookOf(SweepState(r)) && forall c :: c in conversations ==> c in r.objects
    }

    /** `#doCombineConversations`, as far as list and lookups go. */
    method CombineConversations(r: Records, current: ConvId, obsolete: ConvId)
      requires InStep(r) && current in r.objects && obsolete in r.objects
      modifies this
      ensures InStep(r) && SweepState(r) == Sweeping.Combine(old(SweepState(r)), current, obsolete)
    {
      if obsolete !in attributes { return; }
      if r.objects[obsolete].kind.Private? != r.objects[current].kind.Private? { return; }
      SweepLookups.CombineIsRemove(SweepState(r), current, obsolete);
      ghost var was := conversations;
      RemoveConversation(obsolete);
      forall d | d in conversations ensures d in r.objects { Sweeping.InWithout(was, obsolete, d); }
    }

    method CheckServiceId(r: Records, c: ConvId) returns (r': Records)
      requires InStep(r) && c in r.objects && forall k :: k in r.byServiceId ==> r.byServiceId[k] in r.objects
      modifies this
      ensures InStep(r') && SweepState(r') == Sweeping.ServiceIdBranch(old(SweepState(r)), c)
    {
      var a := r.objects[c];
      r' := r;
      if a.ids.serviceId.None? { return; }
      var k := a.ids.serviceId.value;
      if k !in r.byServiceId {
        r' := r.(byServiceId := r.byServiceId[k := c]);
      } else if a.ids.e164.Some? {
        CombineConversations(r, c, r.byServiceId[k]);
        r' := r.(byServiceId := r.byServiceId[k := c]);
      } else {
        CombineConversations(r, r.byServiceId[k], c);
      }
    }

    method CheckPni(r: Records, c: ConvId) returns (r': Records)
      requires InStep(r) && c in r.objects && forall k :: k in r.byServiceId ==> r.byServiceId[k] in r.objects
      modifies this
      ensures InStep(r') && SweepState(r') == Sweeping.PniBranch(old(SweepState(r)), c)
    {
      var a := r.objects[c];
      r' := r;
      if a.ids.pni.None? { return; }
      var k := a.ids.pni.value;
      if k !in r.byServiceId {
        r' := r.(byServiceId := r.byServiceId[k := c]);
      } else if r.byServiceId[k] != c {
        CombineConversations(r, c, r.byServiceId[k]);
        r' := r.(byServiceId := r.byServiceId[k := c]);
      }
    }

    /** The number is taken from the object, and nothing is told to `idUpdated`. */
    method DropNumber(r: Records, existing: ConvId) returns (r': Records)
      requires InStep(r) && existing in r.objects
      modifies this`attributes
      ensures r' == r.(objects := r.objects[existing := SweepLookups.WithoutNumber(r.objects[existing])])
      ensures InStep(r')
    {
      ghost var s := SweepState(r);
      r' := r.(objects := r.objects[existing := SweepLookups.WithoutNumber(r.objects[existing])]);
      SweepLookups.StripInBook(s, s.(convs := r'.objects), existing);
      if existing in attributes { attributes := attributes[existing := attributes[existing].(e164 := None)]; }
    }

    method CheckE164(r: Records, c: ConvId) returns (r': Records)
      requires InStep(r) && c in r.objects && forall k :: k in r.byE164 ==> r.byE164[k] in r.objects
      modifies this
      ensures InStep(r') && SweepState(r') == Sweeping.E164Branch(old(SweepState(r)), c)
    {
      var a := r.objects[c];
      r' := r;
      if a.ids.e164.None? { return; }
      var k := a.ids.e164.value;
      if k !in r.byE164 {
        r' := r.(byE164 := r.byE164[k := c]);
        return;
      }
      var existing := r.byE164[k];
      var b := r.objects[existing];
      if a.ids.serviceId.Some? && b.ids.serviceId.Some? && a.ids.serviceId != b.ids.serviceId {
        r' := DropNumber(r, existing);
        r' := r'.(byE164 := r.byE164[k := c]);
      } else if a.ids.serviceId.Some? {
        CombineConversations(r, c, existing);
        r' := r.(byE164 := r.byE164[k := c]);
      } else {
        CombineConversations(r, existing, c);
      }
    }

    method CheckGroup(r: Records, c: ConvId) returns (r': Records)
      requires InStep(r) && c in r.objects && forall k :: k in r.byGroupV2Id ==> r.byGroupV2Id[k] in r.objects
      modifies this
      ensures InStep(r') && SweepState(r') == Sweeping.GroupBranch(old(SweepState(r)), c)
    {
      var a := r.objects[c];
      r' := r;
      if Sweeping.V2Id(a).None? { return; }
      var k := Sweeping.V2Id(a).value;
      if k !in r.byGroupV2Id {
        r' := r.(byGroupV2Id := r.byGroupV2Id[k := c]);
        return;
      }
      var existing := r.byGroupV2Id[k];
      if a.kind.GroupV2? && !r.objects[existing].kind.GroupV2? {
        CombineConversations(r, c, existing);
        r' := r.(byGroupV2Id := r.byGroupV2Id[k := c]);
      } else {
        CombineConversations(r, existing, c);
      }
    }

    /** The body of the loop. */
    method CheckOne(r: Records, c: ConvId, ghost pre: seq<ConvId>, ghost seen: set<ConvId>) returns (r': Records)
      requires InStep(r) && Sweeping.Visiting(SweepState(r), pre, seen, c, 0)
      modifies this
      ensures InStep(r') && SweepState(r') == Sweeping.Visit(old(SweepState(r)), c)
    {
      Sweeping.VisitGoesThrough(SweepState(r), pre, seen, c);
      r' := CheckServiceId(r, c);
      r' := CheckPni(r', c);
      r' := CheckE164(r', c);
      r' := CheckGroup(r', c);
    }

    /** One turn of the loop: what stands at the index is the original. */
    method CheckAt(r: Records, i: nat, ghost original: seq<ConvId>, ghost objects: map<ConvId, Sweeping.Conv>,
                   ghost look: Sweeping.Lookups)
      returns (r': Records, c: ConvId)
      requires Sweeping.Sweepable(original, objects) && InStep(r)
               && AtTurn(SweepState(r), original, objects, look, i)
      modifies this
      ensures InStep(r') && AtTurn(SweepState(r'), original, objects, look, i - 1)
      ensures i < |original| && c == original[i]
    {
      NextTurn(SweepState(r), original, objects, look, i);
      c := conversations[i];
      r' := CheckOne(r, c, original[..i], Sweeping.VisitedFrom(original, i + 1));
    }

    /** The loop of `#doCheckForConflicts`: `i` runs down while the array it
        indexes is replaced by shorter ones. Every original is visited once. */
    method CheckDown(objects: map<ConvId, Sweeping.Conv>, ghost look: Sweeping.Lookups)
      returns (r: Records, visited: seq<ConvId>)
      requires Sweeping.Sweepable(conversations, objects) && InStep(Records(objects, map[], map[], map[]))
      requires look == SweepState(Records(objects, map[], map[], map[])).look
      modifies this
      ensures InStep(r) && AtTurn(SweepState(r), old(conversations), objects, look, -1)
      ensures Downward(visited, old(conversations)) && |visited| == |old(conversations)|
    {
      r, visited := Records(objects, map[], map[], map[]), [];
      ghost var original := conversations;
      FirstTurn(original, objects, look);
      var i := |conversations| - 1;
      while i >= 0
        invariant -1 <= i && InStep(r) && AtTurn(SweepState(r), original, objects, look, i)
        invariant Downward(visited, original) && |visited| == |original| - 1 - i
      {
        var conversation;
        r, conversation := CheckAt(r, i, original, objects, look);
        OneFurtherDown(visited, original, conversation);
        visited := visited + [conversation];
        i := i - 1;
      }
    }

    /** `checkForConflicts`: the controller ends in the swept state, in which no
        two conversations share an identifier. */
    method CheckForConflicts(objects: map<ConvId, Sweeping.Conv>) returns (r: Records, visited: seq<ConvId>)
      requires Sweeping.Sweepable(conversations, objects) && InStep(Records(objects, map[], map[], map[]))
      modifies this
      ensures InStep(r) && Sweeping.AllApart(SweepState(r))
      ensures var start := old(SweepState(Records(objects, map[], map[], map[])));
              SweepState(r) == Sweeping.SweepDown(start, |start.list| - 1)
      ensures Downward(visited, old(conversations)) && |visited| == |old(conversations)|
    {
      ghost var original, look := conversations, SweepState(Records(objects, map[], map[], map[])).look;
      r, visited := CheckDown(objects, look);
      LastTurn(SweepState(r), original, objects, look);
    }
  }
}
