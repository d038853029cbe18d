/** The code of `maybeMergeContacts` against its closed form, item by item. */
module MergeProof {
  import opened Options
  import opened ConversationIndex
  import opened MergeContacts
  import opened MergeSpec

  /** What a lookup result means. */
  ghost predicate Holder(convs: map<ConvId, Attrs>, key: Field, v: Option<string>, m: Option<ConvId>) {
    && (m.Some? ==> v.Some? && m.value in convs && Get(convs[m.value], key) == v)
    && (m.None? && v.Some? ==> forall c :: c in convs ==> Get(convs[c], key) != v)
  }

  lemma Holders(b: Book, aci: Option<string>, e164: Option<string>, pni: Option<string>)
    requires Indexed(b) && WellFormed(b.convs) && GoodInput(b.convs, aci, e164, pni)
    ensures Holder(b.convs, ServiceId, aci, LookupOpt(b, aci))
    ensures Holder(b.convs, E164, e164, LookupOpt(b, e164))
    ensures Holder(b.convs, Pni, pni, LookupOpt(b, pni))
  {
    if aci.Some? { LookupFindsHolder(b, ServiceId, aci.value); }
    if e164.Some? { LookupFindsHolder(b, E164, e164.value); }
    if pni.Some? { LookupFindsHolder(b, Pni, pni.value); }
  }

  // ---------------------------------------------------------- after the first two

  ghost predicate Merging(b: Book, l: Local, t: ConvId, aci: Option<string>, e164: Option<string>,
                          pni: Option<string>) {
    && l.target == Some(t) && l.unused == []
    && Indexed(l.book) && WellFormed(l.book.convs)
    && IsMerged(b.convs, l.book.convs, t, aci, e164, pni)
    && MergesAre(b.convs, t, e164, pni, l.merges)
  }

  /** `Process` once the target is known and nothing is unused. */
  lemma ProcessKnown(l: Local, t: ConvId, key: Field, v: string, m: Option<ConvId>, pni: Option<string>, newId: ConvId)
    requires l.target == Some(t) && l.unused == [] && key != GroupId
    ensures Process(l, Item(key, Some(v), m), pni, newId) ==
            if m.None? then l.(book := ApplyChange(l.book, t, One(key, Some(v))))
            else if m.value != t then MoveValue(l, t, m.value, key, v, pni)
            else if Get(AttrsOf(l.book, t), key).None? then l.(book := ApplyChange(l.book, t, One(key, Some(v))))
            else l
  {
    if m.Some? { assert UseAll(l, l.unused, m.value, pni, newId).(unused := []) == l; }
  }

  /** The target has the ACI asked for, or none was asked for and the number is its own. */
  predicate NumberTarget(a: Attrs, aci: Option<string>, e164: Option<string>) {
    if aci.Some? then a.serviceId == aci && a.pni != aci else e164.Some? ==> a.e164 == e164
  }

  lemma NumberGiven(convs: map<ConvId, Attrs>, t: ConvId, aci: Option<string>, e164: string)
    requires t in convs && aci.Some? && NumberTarget(convs[t], aci, Some(e164))
    requires forall c :: c in convs ==> convs[c].e164 != Some(e164)
    ensures IsMerged(convs, convs[t := Given(convs[t], E164, e164)], t, aci, Some(e164), None)
    ensures MergesAre(convs, t, Some(e164), None, [])
  {
  }

  lemma NumberMoved(convs: map<ConvId, Attrs>, convs': map<ConvId, Attrs>, t: ConvId, m: ConvId, aci: Option<string>,
                    e164: string, merges: seq<ConvId>)
    requires t in convs && m in convs && m != t && aci.Some? && NumberTarget(convs[t], aci, Some(e164))
    requires WellFormed(convs) && convs[m].e164 == Some(e164)
    requires merges == if NoIds(Taken(convs[m], E164)) then [m] else []
    requires convs' == convs[m := Taken(convs[m], E164)][t := Given(convs[t], E164, e164)]
    ensures IsMerged(convs, convs', t, aci, Some(e164), None)
    ensures MergesAre(convs, t, Some(e164), None, merges)
  {
    OthersLack(convs, m, Some(e164));
  }

  lemma NumberKept(convs: map<ConvId, Attrs>, t: ConvId, aci: Option<string>, e164: Option<string>)
    requires t in convs && NumberTarget(convs[t], aci, e164)
    requires e164.Some? ==> convs[t].e164 == e164 && forall c :: c in convs && c != t ==> convs[c].e164 != e164
    ensures IsMerged(convs, convs, t, aci, e164, None)
    ensures MergesAre(convs, t, e164, None, [])
  {
  }

  lemma OthersLack(convs: map<ConvId, Attrs>, m: ConvId, e164: Option<string>)
    requires WellFormed(convs) && m in convs && e164.Some? && convs[m].e164 == e164
    ensures forall c :: c in convs && c != m ==> convs[c].e164 != e164
  {
    forall c | c in convs && c != m ensures convs[c].e164 != e164 { assert Apart(convs[m], convs[c]); }
  }

  /** The ACI is known: its holder is the target, and the number moves to it. */
  lemma AciKnown(b: Book, aci: Option<string>, e164: Option<string>, pni: Option<string>, newId: ConvId, t: ConvId)
    requires Ready(b, aci, e164, pni, newId) && LookupOpt(b, aci) == Some(t)
    ensures Merging(b, AfterE164(b, aci, e164, pni, newId), t, aci, e164, None)
  {
    Holders(b, aci, e164, pni);
    var l := Local(b, Some(t), [], []);
    assert AfterAci(b, aci, pni, newId) == l;
    assert GoodAttrs(b.convs[t]);
    NumberToTarget(b, l, t, aci, e164, pni, newId);
  }

  lemma StrippedNumberIsFree(convs: map<ConvId, Attrs>, m: ConvId, t: ConvId, e164: string)
    requires WellFormed(convs) && m in convs && convs[m].e164 == Some(e164)
    ensures Free(convs[m := Taken(convs[m], E164)], t, E164, e164)
  {
    OthersLack(convs, m, Some(e164));
  }

  lemma NumberMoves(b: Book, t: ConvId, m: ConvId, aci: Option<string>, e164: string, pni: Option<string>)
    requires Indexed(b) && WellFormed(b.convs) && GoodInput(b.convs, aci, Some(e164), pni)
    requires t in b.convs && m in b.convs && m != t && b.convs[m].e164 == Some(e164)
    requires aci.Some? && NumberTarget(b.convs[t], aci, Some(e164))
    ensures Merging(b, MoveValue(Local(b, Some(t), [], []), t, m, E164, e164, pni), t, aci, Some(e164), None)
  {
    var l := Local(b, Some(t), [], []);
    StrippedNumberIsFree(b.convs, m, t, e164);
    MoveEffect(l, t, m, E164, e164, pni);
    var l' := MoveValue(l, t, m, E164, e164, pni);
    NumberMoved(b.convs, l'.book.convs, t, m, aci, e164, l'.merges);
  }

  lemma NumberGives(b: Book, t: ConvId, aci: Option<string>, e164: string, pni: Option<string>)
    requires Indexed(b) && WellFormed(b.convs) && GoodInput(b.convs, aci, Some(e164), pni) && t in b.convs
    requires Holder(b.convs, E164, Some(e164), None) && aci.Some? && NumberTarget(b.convs[t], aci, Some(e164))
    ensures Merging(b, Local(ApplyChange(b, t, One(E164, Some(e164))), Some(t), [], []), t, aci, Some(e164), None)
  {
    assert Free(b.convs, t, E164, e164);
    GiveValue(b, t, E164, e164);
    NumberGiven(b.convs, t, aci, e164);
  }

  lemma NumberToTarget(b: Book, l: Local, t: ConvId, aci: Option<string>, e164: Option<string>, pni: Option<string>,
                       newId: ConvId)
    requires Indexed(b) && WellFormed(b.convs) && GoodInput(b.convs, aci, e164, pni) && t in b.convs
    requires l == Local(b, Some(t), [], []) && aci.Some? && NumberTarget(b.convs[t], aci, e164)
    ensures Merging(b, Process(l, Item(E164, e164, LookupOpt(b, e164)), pni, newId), t, aci, e164, None)
  {
    var m := LookupOpt(b, e164);
    Holders(b, aci, e164, pni);
    if e164.None? {
      NumberKept(b.convs, t, aci, e164);
    } else {
      ProcessKnown(l, t, E164, e164.value, m, pni, newId);
      if m.None? {
        NumberGives(b, t, aci, e164.value, pni);
      } else if m.value != t {
        NumberMoves(b, t, m.value, aci, e164.value, pni);
      } else {
        OthersLack(b.convs, t, e164);
        NumberKept(b.convs, t, aci, e164);
      }
    }
  }

  lemma NewKeepsWellFormed(convs: map<ConvId, Attrs>, newId: ConvId, a: Attrs)
    requires WellFormed(convs) && newId !in convs && GoodAttrs(a)
    requires forall c :: c in convs ==> Apart(a, convs[c]) && Apart(convs[c], a)
    ensures WellFormed(convs[newId := a])
  {
  }

  /** A new conversation whose identifiers nobody holds. */
  lemma NewConversation(b: Book, newId: ConvId, a: Attrs)
    requires Indexed(b) && WellFormed(b.convs) && newId !in b.convs && GoodAttrs(a) && a.groupId.None?
    requires forall c :: c in b.convs ==> Apart(a, b.convs[c]) && Apart(b.convs[c], a)
    ensures Indexed(Add(b, newId, a)) && Add(b, newId, a).convs == b.convs[newId := a]
    ensures WellFormed(b.convs[newId := a])
  {
    NewKeepsWellFormed(b.convs, newId, a);
    forall f ensures Unheld(b.convs, newId, f, Get(a, f)) {
      match f { case ServiceId => case E164 => case Pni => case GroupId => }
    }
    AddKeepsIndexed(b, newId, a);
  }

  /** A conversation made from one identifier already has it. */
  lemma ReapplyIsNothing(b: Book, t: ConvId, key: Field, v: string)
    requires t in b.convs && (key == ServiceId || key == E164) && b.convs[t] == Set(BLANK, key, Some(v))
    ensures ApplyChange(b, t, One(key, Some(v))) == b
  {
  }

  /** The ACI is new and the number is known to `m`, which has no ACI: `m` gets it. */
  lemma NewAciJoins(b: Book, aci: string, e164: string, pni: Option<string>, newId: ConvId, m: ConvId)
    requires Ready(b, Some(aci), Some(e164), pni, newId)
    requires Holder(b.convs, ServiceId, Some(aci), None) && m in b.convs && b.convs[m].e164 == Some(e164)
    requires !HasAci(b.convs[m])
    ensures Merging(b, Local(ApplyChange(b, m, One(ServiceId, Some(aci))), Some(m), [], []), m, Some(aci), Some(e164),
                    None)
  {
    assert Free(b.convs, m, ServiceId, aci);
    GiveValue(b, m, ServiceId, aci);
    OthersLack(b.convs, m, Some(e164));
  }

  /** ... or it has one, and a new conversation takes the number. */
  lemma NewAciTakes(b: Book, aci: string, e164: string, pni: Option<string>, newId: ConvId, m: ConvId)
    requires Ready(b, Some(aci), Some(e164), pni, newId)
    requires Holder(b.convs, ServiceId, Some(aci), None) && m in b.convs && b.convs[m].e164 == Some(e164)
    ensures Merging(b,
                    MoveValue(Local(Add(b, newId, Created(aci, BLANK)), Some(newId), [], []), newId, m, E164, e164,
                              pni),
                    newId, Some(aci), Some(e164), None)
  {
    var a := Created(aci, BLANK);
    NewWithAci(b, aci, newId);
    var b1 := Add(b, newId, a);
    OthersLack(b.convs, m, Some(e164));
    var l := Local(b1, Some(newId), [], []);
    assert Free(b1.convs[m := Taken(b1.convs[m], E164)], newId, E164, e164);
    MoveEffect(l, newId, m, E164, e164, pni);
    FreshNumberMoved(b.convs, newId, m, Some(aci), e164, MoveValue(l, newId, m, E164, e164, pni).merges);
  }

  lemma NewWithAci(b: Book, aci: string, newId: ConvId)
    requires Indexed(b) && WellFormed(b.convs) && newId !in b.convs && IsAci(aci)
    requires Holder(b.convs, ServiceId, Some(aci), None)
    ensures var b1 := Add(b, newId, Created(aci, BLANK));
            Indexed(b1) && WellFormed(b1.convs) && b1.convs == b.convs[newId := BLANK.(serviceId := Some(aci))]
  {
    var a := Created(aci, BLANK);
    forall c | c in b.convs ensures Apart(a, b.convs[c]) && Apart(b.convs[c], a) {
      assert GoodAttrs(b.convs[c]) && Get(b.convs[c], ServiceId) != Some(aci);
    }
    NewConversation(b, newId, a);
  }

  lemma FreshNumberMoved(convs: map<ConvId, Attrs>, t: ConvId, m: ConvId, aci: Option<string>, e164: string,
                         merges: seq<ConvId>)
    requires t !in convs && m in convs && aci.Some?
    requires convs[m].e164 == Some(e164) && forall c :: c in convs && c != m ==> convs[c].e164 != Some(e164)
    requires merges == if NoIds(Taken(convs[m], E164)) then [m] else []
    ensures var a := BLANK.(serviceId := aci);
            IsMerged(convs, convs[t := a][m := Taken(convs[m], E164)][t := Given(a, E164, e164)], t, aci, Some(e164),
                     None)
    ensures MergesAre(convs, t, Some(e164), None, merges)
  {
  }

  function Unmatched(aci: Option<string>, e164: Option<string>): seq<Item> {
    (if aci.Some? then [Item(ServiceId, aci, None)] else [])
    + (if e164.Some? then [Item(E164, e164, None)] else [])
  }

  /** An unused ACI makes the match the target, or a new conversation. */
  lemma UseAci(b: Book, aci: string, m: ConvId, pni: Option<string>, newId: ConvId, us: seq<Item>)
    requires Indexed(b) && WellFormed(b.convs) && newId !in b.convs && m in b.convs && IsAci(aci)
    requires Holder(b.convs, ServiceId, Some(aci), None) && Lookup(b, aci).None? && (pni.Some? ==> IsPni(pni.value))
    ensures UseOne(Local(b, None, us, []), Item(ServiceId, Some(aci), None), m, pni, newId) ==
            if HasAci(b.convs[m]) then Local(Add(b, newId, Created(aci, BLANK)), Some(newId), us, [])
            else Local(ApplyChange(b, m, One(ServiceId, Some(aci))), Some(m), us, [])
  {
    assert GoodAttrs(b.convs[m]);
    if HasAci(b.convs[m]) {
      NewWithAci(b, aci, newId);
      ReapplyIsNothing(Add(b, newId, Created(aci, BLANK)), newId, ServiceId, aci);
    }
  }

  /** `Process` at the first match, once the unused items have been used. */
  lemma ProcessFirst(l: Local, key: Field, v: string, m: ConvId, pni: Option<string>, newId: ConvId, used: Local,
                     t: ConvId)
    requires Usable(l.unused) && key != GroupId
    requires used == UseAll(l, l.unused, m, pni, newId).(unused := []) && used.target == Some(t)
    ensures Process(l, Item(key, Some(v), Some(m)), pni, newId) ==
            if t != m then MoveValue(used, t, m, key, v, pni)
            else if Get(AttrsOf(used.book, m), key).None?
              then used.(book := ApplyChange(used.book, m, One(key, Some(v))))
            else used
  {
  }

  /** The ACI is unknown, the number is known. */
  lemma NumberKnown(b: Book, aci: Option<string>, e164: Option<string>, pni: Option<string>, newId: ConvId, m: ConvId)
    requires Ready(b, aci, e164, pni, newId) && LookupOpt(b, aci).None? && LookupOpt(b, e164) == Some(m)
    ensures Merging(b, AfterE164(b, aci, e164, pni, newId), Chosen(b, aci, e164, pni, newId), aci, e164, None)
  {
    Holders(b, aci, e164, pni);
    if aci.None? { NumberAlone(b, e164, pni, newId, m); }
    else { NumberKnownNewAci(b, aci.value, e164.value, pni, newId, m); }
  }

  lemma NumberAlone(b: Book, e164: Option<string>, pni: Option<string>, newId: ConvId, m: ConvId)
    requires Ready(b, None, e164, pni, newId) && LookupOpt(b, e164) == Some(m) && Holder(b.convs, E164, e164, Some(m))
    ensures Merging(b, AfterE164(b, None, e164, pni, newId), m, None, e164, None)
  {
    assert AfterE164(b, None, e164, pni, newId) == Local(b, Some(m), [], []);
    OthersLack(b.convs, m, e164);
    NumberKept(b.convs, m, None, e164);
  }

  lemma NumberKnownNewAci(b: Book, aci: string, e164: string, pni: Option<string>, newId: ConvId, m: ConvId)
    requires Ready(b, Some(aci), Some(e164), pni, newId) && Lookup(b, aci).None? && Lookup(b, e164) == Some(m)
    requires Holder(b.convs, ServiceId, Some(aci), None) && m in b.convs && b.convs[m].e164 == Some(e164)
    ensures Merging(b, AfterE164(b, Some(aci), Some(e164), pni, newId), if HasAci(b.convs[m]) then newId else m,
                    Some(aci), Some(e164), None)
  {
    var u := Item(ServiceId, Some(aci), None);
    var l := Local(b, None, [u], []);
    assert AfterAci(b, Some(aci), pni, newId) == l;
    UseAci(b, aci, m, pni, newId, [u]);
    assert UseAll(l, [u], m, pni, newId) == UseOne(l, u, m, pni, newId) by { assert [u][1..] == []; }
    if HasAci(b.convs[m]) {
      var used := Local(Add(b, newId, Created(aci, BLANK)), Some(newId), [], []);
      ProcessFirst(l, E164, e164, m, pni, newId, used, newId);
      NewAciTakes(b, aci, e164, pni, newId, m);
    } else {
      var used := Local(ApplyChange(b, m, One(ServiceId, Some(aci))), Some(m), [], []);
      ProcessFirst(l, E164, e164, m, pni, newId, used, m);
      NewAciJoins(b, aci, e164, pni, newId, m);
      assert used.book.convs[m].e164 == Some(e164);
    }
  }

  lemma NothingKnown(b: Book, aci: Option<string>, e164: Option<string>, pni: Option<string>, newId: ConvId)
    requires LookupOpt(b, aci).None? && LookupOpt(b, e164).None?
    ensures AfterE164(b, aci, e164, pni, newId) == Local(b, None, Unmatched(aci, e164), [])
  {
  }

  // -------------------------------------------------- the PNI, target known

  /** The target before the call, when it was found by ACI or by number. */
  ghost predicate EarlyTarget(convs: map<ConvId, Attrs>, t: ConvId, aci: Option<string>, e164: Option<string>) {
    && (aci.Some? ==> IsAci(aci.value))
    && GoodAttrs(Before(convs, t))
    && (aci.None? ==> e164.Some? ==> Before(convs, t).e164 == e164)
  }

  lemma JoinedThenPni(a: Attrs, aci: Option<string>, e164: Option<string>, pni: string)
    requires GoodAttrs(a) && (aci.Some? ==> IsAci(aci.value)) && (aci.None? ==> e164.Some? ==> a.e164 == e164)
    requires a.pni == Some(pni) ==> e164.Some? && a.e164 != e164
    ensures Given(Joined(a, aci, e164, None), Pni, pni) == Joined(a, aci, e164, Some(pni))
  {
  }

  lemma StrippedThenPni(a: Attrs, e164: Option<string>, pni: string)
    requires GoodAttrs(a)
    ensures a.pni == Some(pni) ==> Taken(Stripped(a, e164, None), Pni) == Stripped(a, e164, Some(pni))
    ensures a.pni != Some(pni) ==> Stripped(a, e164, None) == Stripped(a, e164, Some(pni))
    ensures a.pni != Some(pni) && IsPni(pni) ==>
              Stripped(a, e164, None).pni != Some(pni) && Stripped(a, e164, None).serviceId != Some(pni)
    ensures NoIds(Stripped(a, e164, None)) ==> NoIds(Taken(Stripped(a, e164, None), Pni))
  {
  }

  /** Nobody else holds the PNI once its match, if any, has been stripped. */
  lemma PniIsFree(convs: map<ConvId, Attrs>, convs': map<ConvId, Attrs>, t: ConvId, m: Option<ConvId>,
                  aci: Option<string>, e164: Option<string>, pni: string)
    requires WellFormed(convs) && IsMerged(convs, convs', t, aci, e164, None) && IsPni(pni)
    requires Holder(convs, Pni, Some(pni), m)
    ensures m.None? || m.value == t ==> Free(convs', t, Pni, pni)
    ensures m.Some? && m.value != t ==> Free(convs'[m.value := Taken(convs'[m.value], Pni)], t, Pni, pni)
    ensures forall c :: c in convs && m != Some(c) ==> convs[c].pni != Some(pni)
  {
    forall c | c in convs && m != Some(c) ensures convs[c].pni != Some(pni) {
      if m.Some? { assert Apart(convs[m.value], convs[c]); } else { assert Get(convs[c], Pni) != Some(pni); }
    }
    forall c | c in convs && c != t
      ensures m != Some(c) ==> convs'[c].pni != Some(pni) && convs'[c].serviceId != Some(pni)
    {
      assert GoodAttrs(convs[c]);
      StrippedThenPni(convs[c], e164, pni);
    }
  }

  lemma PniGivenMap(convs: map<ConvId, Attrs>, convs': map<ConvId, Attrs>, t: ConvId, aci: Option<string>,
                    e164: Option<string>, pni: string, merges: seq<ConvId>)
    requires WellFormed(convs) && IsMerged(convs, convs', t, aci, e164, None)
    requires Given(convs'[t], Pni, pni) == Joined(Before(convs, t), aci, e164, Some(pni))
    requires MergesAre(convs, t, e164, None, merges)
    requires forall c :: c in convs && c != t ==> convs[c].pni != Some(pni)
    ensures IsMerged(convs, convs'[t := Given(convs'[t], Pni, pni)], t, aci, e164, Some(pni))
    ensures MergesAre(convs, t, e164, Some(pni), merges)
  {
    forall c | c in convs && c != t ensures Stripped(convs[c], e164, None) == Stripped(convs[c], e164, Some(pni)) {
      assert GoodAttrs(convs[c]);
      StrippedThenPni(convs[c], e164, pni);
    }
  }

  lemma PniGiven(b: Book, l: Local, t: ConvId, aci: Option<string>, e164: Option<string>, pni: string,
                 m: Option<ConvId>)
    requires Indexed(b) && WellFormed(b.convs) && IsPni(pni) && Holder(b.convs, Pni, Some(pni), m)
    requires Merging(b, l, t, aci, e164, None) && (m.None? || m.value == t)
    requires Given(l.book.convs[t], Pni, pni) == Joined(Before(b.convs, t), aci, e164, Some(pni))
    ensures Merging(b, l.(book := ApplyChange(l.book, t, One(Pni, Some(pni)))), t, aci, e164, Some(pni))
  {
    PniIsFree(b.convs, l.book.convs, t, m, aci, e164, pni);
    GiveValue(l.book, t, Pni, pni);
    PniGivenMap(b.convs, l.book.convs, t, aci, e164, pni, l.merges);
  }

  /** Moving the PNI hands its match over once more, or not at all. */
  lemma HandedForPni(convs: map<ConvId, Attrs>, t: ConvId, m: ConvId, e164: Option<string>, pni: string, c: ConvId)
    requires WellFormed(convs) && m in convs && m != t && convs[m].pni == Some(pni)
    requires forall d :: d in convs && d != m ==> convs[d].pni != Some(pni)
    ensures Handed(convs, t, e164, Some(pni), c) == Handed(convs, t, e164, None, c)
            + if c == m && NoIds(Taken(Stripped(convs[m], e164, None), Pni)) then 1 else 0
  {
    if c in convs {
      assert GoodAttrs(convs[c]);
      StrippedThenPni(convs[c], e164, pni);
    }
  }

  lemma PniMovedMerges(convs: map<ConvId, Attrs>, t: ConvId, m: ConvId, e164: Option<string>, pni: string,
                       merges: seq<ConvId>, merges': seq<ConvId>)
    requires WellFormed(convs) && m in convs && m != t && convs[m].pni == Some(pni)
    requires forall c :: c in convs && c != m ==> convs[c].pni != Some(pni)
    requires MergesAre(convs, t, e164, None, merges)
    requires merges' == if NoIds(Taken(Stripped(convs[m], e164, None), Pni)) then merges + [m] else merges
    ensures MergesAre(convs, t, e164, Some(pni), merges')
  {
    forall c ensures Times(merges', c) == Handed(convs, t, e164, Some(pni), c) {
      assert Times(merges, c) == Handed(convs, t, e164, None, c);
      HandedForPni(convs, t, m, e164, pni, c);
      TimesAppend(merges, m, c);
    }
  }

  lemma PniMovedMap(convs: map<ConvId, Attrs>, convs': map<ConvId, Attrs>, t: ConvId, m: ConvId, aci: Option<string>,
                    e164: Option<string>, pni: string)
    requires WellFormed(convs) && IsMerged(convs, convs', t, aci, e164, None)
    requires Given(convs'[t], Pni, pni) == Joined(Before(convs, t), aci, e164, Some(pni))
    requires m in convs && m != t && convs[m].pni == Some(pni)
    requires forall c :: c in convs && c != m ==> convs[c].pni != Some(pni)
    ensures IsMerged(convs, convs'[m := Taken(convs'[m], Pni)][t := Given(convs'[t], Pni, pni)], t, aci, e164,
                     Some(pni))
  {
    forall c | c in convs
      ensures c != m ==> Stripped(convs[c], e164, None) == Stripped(convs[c], e164, Some(pni))
      ensures c == m ==> Taken(Stripped(convs[c], e164, None), Pni) == Stripped(convs[c], e164, Some(pni))
    {
      assert GoodAttrs(convs[c]);
      StrippedThenPni(convs[c], e164, pni);
    }
  }

  lemma PniMoved(b: Book, l: Local, t: ConvId, aci: Option<string>, e164: Option<string>, pni: string, m: ConvId)
    requires Indexed(b) && WellFormed(b.convs) && IsPni(pni) && Holder(b.convs, Pni, Some(pni), Some(m)) && m != t
    requires Merging(b, l, t, aci, e164, None)
    requires Given(l.book.convs[t], Pni, pni) == Joined(Before(b.convs, t), aci, e164, Some(pni))
    ensures Merging(b, MoveValue(l, t, m, Pni, pni, Some(pni)), t, aci, e164, Some(pni))
  {
    PniIsFree(b.convs, l.book.convs, t, Some(m), aci, e164, pni);
    MoveEffect(l, t, m, Pni, pni, Some(pni));
    PniMovedMap(b.convs, l.book.convs, t, m, aci, e164, pni);
    PniMovedMerges(b.convs, t, m, e164, pni, l.merges, MoveValue(l, t, m, Pni, pni, Some(pni)).merges);
  }

  lemma PniKeptMap(convs: map<ConvId, Attrs>, convs': map<ConvId, Attrs>, t: ConvId, aci: Option<string>,
                   e164: Option<string>, pni: string, merges: seq<ConvId>)
    requires WellFormed(convs) && IsMerged(convs, convs', t, aci, e164, None) && EarlyTarget(convs, t, aci, e164)
    requires MergesAre(convs, t, e164, None, merges)
    requires Before(convs, t).pni == Some(pni) && convs'[t].pni.Some?
    requires forall c :: c in convs && c != t ==> convs[c].pni != Some(pni)
    ensures IsMerged(convs, convs', t, aci, e164, Some(pni)) && MergesAre(convs, t, e164, Some(pni), merges)
  {
    forall c | c in convs && c != t ensures Stripped(convs[c], e164, None) == Stripped(convs[c], e164, Some(pni)) {
      assert GoodAttrs(convs[c]);
      StrippedThenPni(convs[c], e164, pni);
    }
  }

  lemma PniKept(b: Book, l: Local, t: ConvId, aci: Option<string>, e164: Option<string>, pni: string)
    requires Indexed(b) && WellFormed(b.convs) && IsPni(pni) && Holder(b.convs, Pni, Some(pni), Some(t))
    requires Merging(b, l, t, aci, e164, None) && EarlyTarget(b.convs, t, aci, e164)
    requires l.book.convs[t].pni.Some?
    ensures Merging(b, l, t, aci, e164, Some(pni))
  {
    PniIsFree(b.convs, l.book.convs, t, Some(t), aci, e164, pni);
    PniKeptMap(b.convs, l.book.convs, t, aci, e164, pni, l.merges);
  }

  /** The three ways in which the PNI reaches a target found earlier. */
  function WithPni(l: Local, t: ConvId, m: Option<ConvId>, pni: string): Local {
    if m.Some? && m.value != t then MoveValue(l, t, m.value, Pni, pni, Some(pni))
    else if m.None? || AttrsOf(l.book, t).pni.None? then l.(book := ApplyChange(l.book, t, One(Pni, Some(pni))))
    else l
  }

  lemma PniReaches(b: Book, l: Local, t: ConvId, aci: Option<string>, e164: Option<string>, pni: string,
                   m: Option<ConvId>)
    requires Indexed(b) && WellFormed(b.convs) && IsPni(pni) && Holder(b.convs, Pni, Some(pni), m)
    requires Merging(b, l, t, aci, e164, None) && EarlyTarget(b.convs, t, aci, e164)
    ensures Merging(b, WithPni(l, t, m, pni), t, aci, e164, Some(pni))
  {
    PniIsFree(b.convs, l.book.convs, t, m, aci, e164, pni);
    assert AttrsOf(l.book, t) == l.book.convs[t] == Joined(Before(b.convs, t), aci, e164, None);
    if m == Some(t) && l.book.convs[t].pni.Some? {
      PniKept(b, l, t, aci, e164, pni);
    } else {
      JoinedThenPni(Before(b.convs, t), aci, e164, pni);
      if m.Some? && m.value != t { PniMoved(b, l, t, aci, e164, pni, m.value); }
      else { PniGiven(b, l, t, aci, e164, pni, m); }
    }
  }

  lemma PniToTarget(b: Book, l: Local, t: ConvId, aci: Option<string>, e164: Option<string>, pni: Option<string>,
                    newId: ConvId)
    requires Ready(b, aci, e164, pni, newId)
    requires Merging(b, l, t, aci, e164, None) && EarlyTarget(b.convs, t, aci, e164)
    ensures Merging(b, Process(l, Item(Pni, pni, LookupOpt(b, pni)), pni, newId), t, aci, e164, pni)
  {
    if pni.Some? {
      var m := LookupOpt(b, pni);
      LookupFindsHolder(b, Pni, pni.value);
      PniItem(l, t, m, pni.value, newId);
      PniReaches(b, l, t, aci, e164, pni.value, m);
    }
  }

  lemma PniItem(l: Local, t: ConvId, m: Option<ConvId>, pni: string, newId: ConvId)
    requires l.target == Some(t) && l.unused == []
    ensures Process(l, Item(Pni, Some(pni), m), Some(pni), newId) == WithPni(l, t, m, pni)
  {
    ProcessKnown(l, t, Pni, pni, m, Some(pni), newId);
  }

  // ------------------------------------------------ only the PNI is known

  lemma AciGivenMap(convs: map<ConvId, Attrs>, t: ConvId, aci: string)
    ensures t in convs ==> IsMerged(convs, convs[t := Given(convs[t], ServiceId, aci)], t, Some(aci), None, None)
    ensures t !in convs ==> IsMerged(convs, convs[t := BLANK.(serviceId := Some(aci))], t, Some(aci), None, None)
    ensures MergesAre(convs, t, None, None, [])
  {
  }

  /** A new ACI put on the match of the PNI, or on a new conversation. */
  lemma AciUsed(b: Book, aci: string, m: ConvId, newId: ConvId, t: ConvId, used: Book)
    requires Indexed(b) && WellFormed(b.convs) && newId !in b.convs && m in b.convs && IsAci(aci)
    requires Holder(b.convs, ServiceId, Some(aci), None)
    requires t == if HasAci(b.convs[m]) then newId else m
    requires used == if t == m then ApplyChange(b, m, One(ServiceId, Some(aci))) else Add(b, newId, Created(aci, BLANK))
    ensures Merging(b, Local(used, Some(t), [], []), t, Some(aci), None, None)
  {
    AciGivenMap(b.convs, t, aci);
    if t == m {
      assert Free(b.convs, m, ServiceId, aci);
      GiveValue(b, m, ServiceId, aci);
    } else {
      NewWithAci(b, aci, newId);
    }
  }

  /** Then the new number, which nobody holds. */
  lemma NumberUsedMap(convs: map<ConvId, Attrs>, convs': map<ConvId, Attrs>, t: ConvId, aci: string, e164: string,
                      merges: seq<ConvId>)
    requires IsMerged(convs, convs', t, Some(aci), None, None) && MergesAre(convs, t, None, None, merges)
    requires IsAci(aci) && GoodAttrs(Before(convs, t))
    requires forall c :: c in convs ==> convs[c].e164 != Some(e164)
    ensures IsMerged(convs, convs'[t := Given(convs'[t], E164, e164)], t, Some(aci), Some(e164), None)
    ensures MergesAre(convs, t, Some(e164), None, merges)
  {
  }

  lemma NumberUsed(b: Book, used: Book, t: ConvId, aci: string, e164: string)
    requires Indexed(b) && WellFormed(b.convs) && IsAci(aci) && IsE164(e164) && GoodAttrs(Before(b.convs, t))
    requires Merging(b, Local(used, Some(t), [], []), t, Some(aci), None, None)
    requires Holder(b.convs, E164, Some(e164), None)
    ensures Merging(b, Local(ApplyChange(used, t, One(E164, Some(e164))), Some(t), [], []), t, Some(aci), Some(e164),
                    None)
  {
    forall c | c in b.convs ensures b.convs[c].e164 != Some(e164) { assert Get(b.convs[c], E164) != Some(e164); }
    assert Free(used.convs, t, E164, e164);
    GiveValue(used, t, E164, e164);
    NumberUsedMap(b.convs, used.convs, t, aci, e164, []);
  }

  lemma PniKnownNewAci(b: Book, aci: string, e164: Option<string>, pni: string, newId: ConvId, m: ConvId)
    requires Ready(b, Some(aci), e164, Some(pni), newId)
    requires Lookup(b, aci).None? && LookupOpt(b, e164).None? && Lookup(b, pni) == Some(m)
    ensures Merging(b,
                    Process(Local(b, None, Unmatched(Some(aci), e164), []), Item(Pni, Some(pni), Some(m)), Some(pni),
                            newId),
                    if HasAci(AttrsOf(b, m)) then newId else m, Some(aci), e164, Some(pni))
  {
    Holders(b, Some(aci), e164, Some(pni));
    var t := if HasAci(AttrsOf(b, m)) then newId else m;
    var l := Local(b, None, Unmatched(Some(aci), e164), []);
    var used := UseAll(l, l.unused, m, Some(pni), newId).(unused := []);
    ItemsUsed(b, aci, e164, pni, newId, m, t);
    FirstPniItem(l, m, pni, newId, used, t);
    assert GoodAttrs(Before(b.convs, t));
    PniReaches(b, used, t, Some(aci), e164, pni, Some(m));
  }

  lemma FirstPniItem(l: Local, m: ConvId, pni: string, newId: ConvId, used: Local, t: ConvId)
    requires Usable(l.unused)
    requires used == UseAll(l, l.unused, m, Some(pni), newId).(unused := []) && used.target == Some(t)
    ensures Process(l, Item(Pni, Some(pni), Some(m)), Some(pni), newId) == WithPni(used, t, Some(m), pni)
  {
    ProcessFirst(l, Pni, pni, m, Some(pni), newId, used, t);
  }

  lemma ItemsUsed(b: Book, aci: string, e164: Option<string>, pni: string, newId: ConvId, m: ConvId, t: ConvId)
    requires Indexed(b) && WellFormed(b.convs) && newId !in b.convs && m in b.convs && IsAci(aci) && IsPni(pni)
    requires Holder(b.convs, ServiceId, Some(aci), None) && Lookup(b, aci).None?
    requires Holder(b.convs, E164, e164, None) && (e164.Some? ==> IsE164(e164.value))
    requires t == if HasAci(b.convs[m]) then newId else m
    ensures var us := Unmatched(Some(aci), e164);
            Merging(b, UseAll(Local(b, None, us, []), us, m, Some(pni), newId).(unused := []), t, Some(aci), e164, None)
  {
    var us := Unmatched(Some(aci), e164);
    var l := Local(b, None, us, []);
    var used := AciItemUsed(b, aci, pni, newId, m, t, us);
    var l1 := Local(used, Some(t), us, []);
    if e164.None? {
      UseJustOne(l, us, l1, m, Some(pni), newId);
    } else {
      NumberItemUsed(b, l, us, used, t, m, aci, e164.value, pni, newId);
    }
  }

  lemma NumberItemUsed(b: Book, l: Local, us: seq<Item>, used: Book, t: ConvId, m: ConvId, aci: string, e164: string,
                       pni: string, newId: ConvId)
    requires Indexed(b) && WellFormed(b.convs) && IsAci(aci) && IsE164(e164) && GoodAttrs(Before(b.convs, t))
    requires Holder(b.convs, E164, Some(e164), None) && us == Unmatched(Some(aci), Some(e164))
    requires UseOne(l, us[0], m, Some(pni), newId) == Local(used, Some(t), us, [])
    requires Merging(b, Local(used, Some(t), [], []), t, Some(aci), None, None)
    ensures Merging(b, UseAll(l, us, m, Some(pni), newId).(unused := []), t, Some(aci), Some(e164), None)
  {
    UseBoth(l, us, Local(used, Some(t), us, []), t, m, e164, Some(pni), newId);
    var b2 := ApplyChange(used, t, One(E164, Some(e164)));
    assert UseAll(l, us, m, Some(pni), newId).(unused := []) == Local(b2, Some(t), [], []);
    NumberUsed(b, used, t, aci, e164);
  }

  lemma AciItemUsed(b: Book, aci: string, pni: string, newId: ConvId, m: ConvId, t: ConvId, us: seq<Item>)
    returns (used: Book)
    requires Indexed(b) && WellFormed(b.convs) && newId !in b.convs && m in b.convs && IsAci(aci) && IsPni(pni)
    requires Holder(b.convs, ServiceId, Some(aci), None) && Lookup(b, aci).None?
    requires t == if HasAci(b.convs[m]) then newId else m
    ensures UseOne(Local(b, None, us, []), Item(ServiceId, Some(aci), None), m, Some(pni), newId)
            == Local(used, Some(t), us, [])
    ensures Merging(b, Local(used, Some(t), [], []), t, Some(aci), None, None)
    ensures GoodAttrs(Before(b.convs, t))
  {
    UseAci(b, aci, m, Some(pni), newId, us);
    used := if t == m then ApplyChange(b, m, One(ServiceId, Some(aci))) else Add(b, newId, Created(aci, BLANK));
    AciUsed(b, aci, m, newId, t, used);
    assert GoodAttrs(b.convs[m]);
  }

  lemma UseJustOne(l: Local, us: seq<Item>, l1: Local, m: ConvId, pni: Option<string>, newId: ConvId)
    requires |us| == 1 && Usable(us) && l1 == UseOne(l, us[0], m, pni, newId)
    ensures UseAll(l, us, m, pni, newId) == l1
  {
    assert us[1..] == [];
  }

  lemma UseBoth(l: Local, us: seq<Item>, l1: Local, t: ConvId, m: ConvId, e164: string, pni: Option<string>,
                newId: ConvId)
    requires |us| == 2 && Usable(us) && us[1] == Item(E164, Some(e164), None)
    requires l1 == UseOne(l, us[0], m, pni, newId) && l1.target == Some(t)
    ensures UseAll(l, us, m, pni, newId) == l1.(book := ApplyChange(l1.book, t, One(E164, Some(e164))))
  {
    var rest := us[1..];
    assert rest == [us[1]] && rest[1..] == [];
    assert UseAll(l1, rest, m, pni, newId) == UseAll(UseOne(l1, us[1], m, pni, newId), [], m, pni, newId);
  }

  /** No ACI asked for, a new number, and the PNI known to `m`. */
  lemma PniKnownNewNumber(b: Book, e164: string, pni: string, newId: ConvId, m: ConvId)
    requires Ready(b, None, Some(e164), Some(pni), newId) && Lookup(b, e164).None? && Lookup(b, pni) == Some(m)
    ensures Merging(b,
                    Process(Local(b, None, Unmatched(None, Some(e164)), []), Item(Pni, Some(pni), Some(m)), Some(pni),
                            newId),
                    if AttrsOf(b, m).e164.None? then m else newId, None, Some(e164), Some(pni))
  {
    Holders(b, None, Some(e164), Some(pni));
    var u := Item(E164, Some(e164), None);
    var us := Unmatched(None, Some(e164));
    assert us == [u];
    var l := Local(b, None, us, []);
    var used := UseOne(l, u, m, Some(pni), newId);
    UseJustOne(l, us, used, m, Some(pni), newId);
    if b.convs[m].e164.None? {
      assert used == Local(ApplyChange(b, m, One(E164, Some(e164))), Some(m), us, []);
      ProcessFirst(l, Pni, pni, m, Some(pni), newId, used.(unused := []), m);
      NumberJoinsPni(b, m, e164, pni);
    } else {
      NumberUsedNew(b, e164, newId);
      var b1 := Add(b, newId, Created(e164, BLANK));
      assert used == Local(b1, Some(newId), us, []);
      ProcessFirst(l, Pni, pni, m, Some(pni), newId, used.(unused := []), newId);
      PniMovesToNew(b, b1, newId, e164, pni, m);
    }
  }

  lemma PniMovesToNew(b: Book, b1: Book, t: ConvId, e164: string, pni: string, m: ConvId)
    requires Indexed(b) && WellFormed(b.convs) && IsPni(pni) && Holder(b.convs, Pni, Some(pni), Some(m))
             && t !in b.convs
    requires Merging(b, Local(b1, Some(t), [], []), t, None, Some(e164), None)
             && b1.convs[t] == BLANK.(e164 := Some(e164))
    ensures Merging(b, MoveValue(Local(b1, Some(t), [], []), t, m, Pni, pni, Some(pni)), t, None, Some(e164), Some(pni))
  {
    PniMoved(b, Local(b1, Some(t), [], []), t, None, Some(e164), pni, m);
  }

  lemma NumberUsedNew(b: Book, e164: string, newId: ConvId)
    requires Indexed(b) && WellFormed(b.convs) && newId !in b.convs && IsE164(e164)
    requires Holder(b.convs, E164, Some(e164), None)
    ensures var b1 := Add(b, newId, Created(e164, BLANK));
            && ApplyChange(b1, newId, One(E164, Some(e164))) == b1
            && Merging(b, Local(b1, Some(newId), [], []), newId, None, Some(e164), None)
            && b1.convs[newId] == BLANK.(e164 := Some(e164))
  {
    NewWithNumber(b, e164, newId);
    ReapplyIsNothing(Add(b, newId, Created(e164, BLANK)), newId, E164, e164);
    assert Joined(BLANK, None, Some(e164), None) == BLANK.(e164 := Some(e164));
    UntouchedMap(b.convs, newId, None, Some(e164), None);
  }

  lemma NewWithNumber(b: Book, e164: string, newId: ConvId)
    requires Indexed(b) && WellFormed(b.convs) && newId !in b.convs && IsE164(e164)
    requires Holder(b.convs, E164, Some(e164), None)
    ensures var b1 := Add(b, newId, Created(e164, BLANK));
            Indexed(b1) && WellFormed(b1.convs) && b1.convs == b.convs[newId := BLANK.(e164 := Some(e164))]
    ensures forall c :: c in b.convs ==> b.convs[c].e164 != Some(e164)
  {
    var a := Created(e164, BLANK);
    assert !IsAci(e164) && !IsPni(e164);
    forall c | c in b.convs ensures Apart(a, b.convs[c]) && Apart(b.convs[c], a) && b.convs[c].e164 != Some(e164) {
      assert Get(b.convs[c], E164) != Some(e164);
    }
    NewConversation(b, newId, a);
  }

  lemma NumberJoinsPniMap(convs: map<ConvId, Attrs>, convs1: map<ConvId, Attrs>, m: ConvId, e164: string, pni: string)
    requires m in convs && convs[m].pni == Some(pni) && convs[m].e164.None?
    requires convs1 == convs[m := Given(convs[m], E164, e164)]
    requires forall c :: c in convs ==> convs[c].e164 != Some(e164)
    requires forall c :: c in convs && c != m ==> convs[c].pni != Some(pni)
    ensures IsMerged(convs, convs1[m := Given(convs1[m], Pni, pni)], m, None, Some(e164), Some(pni))
    ensures MergesAre(convs, m, Some(e164), Some(pni), [])
  {
  }

  lemma PniComesBack(b: Book, b1: Book, m: ConvId, e164: string, pni: string)
    requires WellFormed(b.convs) && m in b.convs && b.convs[m].pni == Some(pni) && b.convs[m].e164.None? && IsPni(pni)
    requires Indexed(b1) && WellFormed(b1.convs) && b1.convs == b.convs[m := Given(b.convs[m], E164, e164)]
    requires forall c :: c in b.convs ==> b.convs[c].e164 != Some(e164)
    ensures Merging(b, Local(ApplyChange(b1, m, One(Pni, Some(pni))), Some(m), [], []), m, None, Some(e164), Some(pni))
  {
    forall c | c in b.convs && c != m ensures b.convs[c].pni != Some(pni) && b.convs[c].serviceId != Some(pni) {
      assert Apart(b.convs[m], b.convs[c]) && Apart(b.convs[c], b.convs[m]);
    }
    assert Free(b1.convs, m, Pni, pni);
    NumberJoinsPniMap(b.convs, b1.convs, m, e164, pni);
    GiveValue(b1, m, Pni, pni);
  }

  lemma NumberJoinsPni(b: Book, m: ConvId, e164: string, pni: string)
    requires Indexed(b) && WellFormed(b.convs) && IsE164(e164) && IsPni(pni) && m in b.convs
    requires b.convs[m].pni == Some(pni) && b.convs[m].e164.None? && Holder(b.convs, E164, Some(e164), None)
    ensures var b1 := ApplyChange(b, m, One(E164, Some(e164)));
            && m in b1.convs && b1.convs[m].pni.None?
            && Merging(b, Local(ApplyChange(b1, m, One(Pni, Some(pni))), Some(m), [], []), m, None, Some(e164),
                       Some(pni))
  {
    forall c | c in b.convs ensures b.convs[c].e164 != Some(e164) { assert Get(b.convs[c], E164) != Some(e164); }
    assert Free(b.convs, m, E164, e164);
    GiveValue(b, m, E164, e164);
    PniComesBack(b, ApplyChange(b, m, One(E164, Some(e164))), m, e164, pni);
  }

  lemma PniAlone(b: Book, pni: string, newId: ConvId, m: ConvId)
    requires Ready(b, None, None, Some(pni), newId) && Lookup(b, pni) == Some(m)
    ensures Merging(b, Local(b, Some(m), [], []), m, None, None, Some(pni))
  {
    Holders(b, None, None, Some(pni));
    forall c | c in b.convs && c != m ensures b.convs[c].pni != Some(pni) { assert Apart(b.convs[m], b.convs[c]); }
  }

  // --------------------------------------------------------------- nothing known

  lemma NobodyHas(convs: map<ConvId, Attrs>, aci: Option<string>, e164: Option<string>, pni: Option<string>, c: ConvId)
    requires WellFormed(convs) && GoodInput(convs, aci, e164, pni) && c in convs
    requires Holder(convs, ServiceId, aci, None) && Holder(convs, E164, e164, None) && Holder(convs, Pni, pni, None)
    ensures var a := Joined(BLANK, aci, e164, pni); Apart(a, convs[c]) && Apart(convs[c], a)
    ensures !Touched(convs[c], e164, pni)
  {
    var d := convs[c];
    assert GoodAttrs(d);
    assert Get(d, ServiceId) == d.serviceId && Get(d, E164) == d.e164 && Get(d, Pni) == d.pni;
  }

  lemma UntouchedMap(convs: map<ConvId, Attrs>, newId: ConvId, aci: Option<string>, e164: Option<string>,
                     pni: Option<string>)
    requires newId !in convs && forall c :: c in convs ==> !Touched(convs[c], e164, pni)
    ensures IsMerged(convs, convs[newId := Joined(BLANK, aci, e164, pni)], newId, aci, e164, pni)
    ensures MergesAre(convs, newId, e164, pni, [])
  {
  }

  lemma AllNew(b: Book, aci: Option<string>, e164: Option<string>, pni: Option<string>, newId: ConvId)
    requires Ready(b, aci, e164, pni, newId)
    requires LookupOpt(b, aci).None? && LookupOpt(b, e164).None? && LookupOpt(b, pni).None?
    ensures Merging(b, Local(Add(b, newId, Joined(BLANK, aci, e164, pni)), Some(newId), [], []), newId, aci, e164, pni)
  {
    Holders(b, aci, e164, pni);
    var a := Joined(BLANK, aci, e164, pni);
    forall c | c in b.convs ensures Apart(a, b.convs[c]) && Apart(b.convs[c], a) && !Touched(b.convs[c], e164, pni) {
      NobodyHas(b.convs, aci, e164, pni, c);
    }
    NewConversation(b, newId, a);
    UntouchedMap(b.convs, newId, aci, e164, pni);
  }

  // ---------------------------------------------------------------- the theorem

  lemma FirstTwo(b: Book, aci: Option<string>, e164: Option<string>, pni: Option<string>, newId: ConvId)
    requires Ready(b, aci, e164, pni, newId)
    requires LookupOpt(b, aci).Some? || LookupOpt(b, e164).Some?
    ensures var t := Chosen(b, aci, e164, pni, newId);
            && Merging(b, AfterE164(b, aci, e164, pni, newId), t, aci, e164, None)
            && EarlyTarget(b.convs, t, aci, e164)
  {
    Holders(b, aci, e164, pni);
    var t := Chosen(b, aci, e164, pni, newId);
    assert t in b.convs ==> GoodAttrs(b.convs[t]);
    if LookupOpt(b, aci).Some? {
      AciKnown(b, aci, e164, pni, newId, t);
    } else {
      NumberKnown(b, aci, e164, pni, newId, LookupOpt(b, e164).value);
    }
  }

  lemma JustPni(b: Book, aci: Option<string>, e164: Option<string>, pni: Option<string>, newId: ConvId)
    requires Ready(b, aci, e164, pni, newId)
    requires LookupOpt(b, aci).None? && LookupOpt(b, e164).None? && LookupOpt(b, pni).Some?
    ensures Merging(b, Process(Local(b, None, Unmatched(aci, e164), []), Item(Pni, pni, LookupOpt(b, pni)), pni, newId),
                    Chosen(b, aci, e164, pni, newId), aci, e164, pni)
  {
    var m := LookupOpt(b, pni).value;
    if aci.Some? {
      PniKnownNewAci(b, aci.value, e164, pni.value, newId, m);
    } else if e164.Some? {
      PniKnownNewNumber(b, e164.value, pni.value, newId, m);
    } else {
      PniAlone(b, pni.value, newId, m);
    }
  }

  /** `maybeMergeContacts` is its closed form, from every well-formed book and
      for every combination of identifiers, known or not. */
  lemma MergeIsClosedForm(b: Book, aci: Option<string>, e164: Option<string>, pni: Option<string>, newId: ConvId)
    requires Ready(b, aci, e164, pni, newId)
    ensures MaybeMergeContacts(b, aci, e164, pni, newId).None? <==> aci.None? && e164.None? && pni.None?
    ensures match MaybeMergeContacts(b, aci, e164, pni, newId)
            case None => true
            case Some(r) =>
              && r.target == Chosen(b, aci, e164, pni, newId)
              && Indexed(r.book) && WellFormed(r.book.convs)
              && IsMerged(b.convs, r.book.convs, r.target, aci, e164, pni)
              && MergesAre(b.convs, r.target, e164, pni, r.merges)
  {
    if aci.Some? || e164.Some? || pni.Some? {
      var t := Chosen(b, aci, e164, pni, newId);
      var l := AfterE164(b, aci, e164, pni, newId);
      if LookupOpt(b, aci).Some? || LookupOpt(b, e164).Some? {
        FirstTwo(b, aci, e164, pni, newId);
        PniToTarget(b, l, t, aci, e164, pni, newId);
      } else {
        NothingKnown(b, aci, e164, pni, newId);
        if LookupOpt(b, pni).Some? {
          JustPni(b, aci, e164, pni, newId);
        } else {
          CreatedFromAll(b, aci, e164, pni, newId);
          AllNew(b, aci, e164, pni, newId);
        }
      }
    }
  }

  lemma CreatedFromAll(b: Book, aci: Option<string>, e164: Option<string>, pni: Option<string>, newId: ConvId)
    requires GoodInput(b.convs, aci, e164, pni) && (aci.Some? || e164.Some? || pni.Some?)
    requires LookupOpt(b, aci).None? && LookupOpt(b, e164).None? && LookupOpt(b, pni).None?
    ensures MaybeMergeContacts(b, aci, e164, pni, newId)
            == Some(Merged(Add(b, newId, Joined(BLANK, aci, e164, pni)), newId, []))
    ensures newId == Chosen(b, aci, e164, pni, newId)
  {
    NothingKnown(b, aci, e164, pni, newId);
    var identifier := if aci.Some? then aci.value else if pni.Some? then pni.value else e164.value;
    assert e164.Some? ==> !IsAci(e164.value) && !IsPni(e164.value);
    assert Created(identifier, Attrs(None, e164, pni, None)) == Joined(BLANK, aci, e164, pni);
  }
}
