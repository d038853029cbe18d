/** A closed form of `maybeMergeContacts`: which conversation it returns, what
    that one holds afterwards, and what every other one is left with. The
    branching code is proved equal to it on every well-formed book. */
module MergeSpec {
  import opened Options
  import opened ConversationIndex
  import opened MergeContacts

  // ------------------------------------------------------------- the closed form

  /** The service id is an ACI of its own rather than a copy of the PNI. */
  predicate HasAci(a: Attrs) { a.serviceId.Some? && a.serviceId != a.pni }

  /** Taking away a PNI takes it out of the service id slot as well. */
  function WithoutPni(a: Attrs): Attrs { a.(pni := None, serviceId := if HasAci(a) then a.serviceId else None) }

  predicate Touched(a: Attrs, e164: Option<string>, pni: Option<string>) {
    (e164.Some? && a.e164 == e164) || (pni.Some? && a.pni == pni)
  }

  /** What a conversation that is not the target is left with. */
  function Stripped(a: Attrs, e164: Option<string>, pni: Option<string>): Attrs {
    if e164.Some? && a.e164 == e164 then WithoutPni(a).(e164 := None)
    else if pni.Some? && a.pni == pni then WithoutPni(a)
    else a
  }

  /** What the target ends up with. Its old PNI goes with its old number. */
  function Joined(a: Attrs, aci: Option<string>, e164: Option<string>, pni: Option<string>): Attrs {
    var newNumber := e164.Some? && a.e164 != e164;
    Attrs(if aci.Some? then aci
          else if pni.Some? && !HasAci(a) && (a.pni != pni || newNumber) then pni
          else a.serviceId,
          if e164.Some? then e164 else a.e164,
          if pni.Some? then pni else if newNumber then None else a.pni,
          a.groupId)
  }

  /** Which conversation is the target. */
  function Chosen(b: Book, aci: Option<string>, e164: Option<string>, pni: Option<string>, newId: ConvId): ConvId {
    var byAci, byE164, byPni := LookupOpt(b, aci), LookupOpt(b, e164), LookupOpt(b, pni);
    if byAci.Some? then byAci.value
    else if aci.Some? then
      var m := Or(byE164, byPni);
      if m.Some? && !HasAci(AttrsOf(b, m.value)) then m.value else newId
    else if byE164.Some? then byE164.value
    else if byPni.Some? && (e164.None? || AttrsOf(b, byPni.value).e164.None?) then byPni.value
    else newId
  }

  function Before(convs: map<ConvId, Attrs>, t: ConvId): Attrs { if t in convs then convs[t] else BLANK }

  ghost predicate IsMerged(convs: map<ConvId, Attrs>, convs': map<ConvId, Attrs>, t: ConvId,
                           aci: Option<string>, e164: Option<string>, pni: Option<string>)
  {
    && convs'.Keys == convs.Keys + {t}
    && convs'[t] == Joined(Before(convs, t), aci, e164, pni)
    && forall c :: c in convs && c != t ==> convs'[c] == Stripped(convs[c], e164, pni)
  }

  predicate NoIds(a: Attrs) { a.serviceId.None? && a.e164.None? && a.pni.None? }

  function Times(merges: seq<ConvId>, c: ConvId): nat { multiset(merges)[c] }

  lemma TimesAppend(merges: seq<ConvId>, m: ConvId, c: ConvId)
    ensures Times(merges + [m], c) == Times(merges, c) + if c == m then 1 else 0
  {
  }

  /** How often a conversation is handed to merge: once for each identifier by
      which it was found, if it is left with nothing and is not the target. */
  function Handed(convs: map<ConvId, Attrs>, t: ConvId, e164: Option<string>, pni: Option<string>, c: ConvId): nat {
    if c in convs && c != t && NoIds(Stripped(convs[c], e164, pni)) then
      (if e164.Some? && convs[c].e164 == e164 then 1 else 0) + (if pni.Some? && convs[c].pni == pni then 1 else 0)
    else 0
  }

  ghost predicate MergesAre(convs: map<ConvId, Attrs>, t: ConvId, e164: Option<string>, pni: Option<string>,
                            merges: seq<ConvId>)
  {
    forall c :: Times(merges, c) == Handed(convs, t, e164, pni, c)
  }

  ghost predicate Ready(b: Book, aci: Option<string>, e164: Option<string>, pni: Option<string>, newId: ConvId) {
    && Indexed(b) && WellFormed(b.convs) && GoodInput(b.convs, aci, e164, pni)
    && newId !in b.convs && aci != Some(newId) && e164 != Some(newId) && pni != Some(newId)
  }

  // ------------------------------------------------------------ one change at a time

  ghost predicate KindOf(key: Field, v: string) {
    (key == ServiceId && IsAci(v)) || (key == E164 && IsE164(v)) || (key == Pni && IsPni(v))
  }

  /** Nobody else holds the value, in either slot. */
  ghost predicate Free(convs: map<ConvId, Attrs>, t: ConvId, key: Field, v: string) {
    forall d :: d in convs && d != t ==>
      Get(convs[d], key) != Some(v) && (key == Pni ==> convs[d].serviceId != Some(v))
  }

  function Given(a: Attrs, key: Field, v: string): Attrs
    requires key != GroupId
  {
    match key
    case ServiceId => a.(serviceId := Some(v))
    case E164 => WithoutPni(a).(e164 := Some(v))
    case Pni => a.(pni := Some(v), serviceId := if HasAci(a) then a.serviceId else Some(v))
  }

  lemma AppliedIsGiven(a: Attrs, key: Field, v: string)
    requires key != GroupId
    ensures Applied(a, One(key, Some(v))) == Given(a, key, v)
  {
  }

  lemma GivenKeepsWellFormed(convs: map<ConvId, Attrs>, t: ConvId, key: Field, v: string)
    requires WellFormed(convs) && t in convs && KindOf(key, v) && Free(convs, t, key, v)
    ensures WellFormed(convs[t := Given(convs[t], key, v)])
  {
    var a := Given(convs[t], key, v);
    forall d | d in convs && d != t ensures Apart(a, convs[d]) && Apart(convs[d], a) {
      assert Apart(convs[t], convs[d]) && Apart(convs[d], convs[t]) && GoodAttrs(convs[d]);
    }
  }

  lemma GiveValue(b: Book, t: ConvId, key: Field, v: string)
    requires Indexed(b) && WellFormed(b.convs) && t in b.convs && KindOf(key, v) && Free(b.convs, t, key, v)
    ensures var b' := ApplyChange(b, t, One(key, Some(v)));
            Indexed(b') && b'.convs == b.convs[t := Given(b.convs[t], key, v)] && WellFormed(b'.convs)
  {
    GivenKeepsWellFormed(b.convs, t, key, v);
    AppliedIsGiven(b.convs[t], key, v);
    var a := Given(b.convs[t], key, v);
    forall d | d in b.convs && d != t
      ensures Apart(a, b.convs[d])
    {
      var convs' := b.convs[t := a];
      assert convs'[t] == a && convs'[d] == b.convs[d];
    }
    ApplyChangeEffect(b, t, One(key, Some(v)));
  }

  function TakeChange(a: Attrs, key: Field, pni: Option<string>): Change
    requires key == E164 || key == Pni
  {
    if a.serviceId == pni then One(key, None).(serviceId := To(None)) else One(key, None)
  }

  function Taken(a: Attrs, key: Field): Attrs
  {
    if key == E164 then WithoutPni(a).(e164 := None) else WithoutPni(a)
  }

  lemma AppliedIsTaken(a: Attrs, key: Field, pni: Option<string>)
    requires GoodAttrs(a) && (key == E164 || key == Pni) && (pni.Some? ==> IsPni(pni.value))
    ensures Applied(a, TakeChange(a, key, pni)) == Taken(a, key)
  {
  }

  lemma TakenKeepsWellFormed(convs: map<ConvId, Attrs>, m: ConvId, key: Field)
    requires WellFormed(convs) && m in convs
    ensures WellFormed(convs[m := Taken(convs[m], key)])
    ensures forall d :: d in convs && d != m ==> Apart(Taken(convs[m], key), convs[d])
  {
    var a := convs[m];
    forall d | d in convs && d != m ensures Apart(Taken(a, key), convs[d]) && Apart(convs[d], Taken(a, key)) {
      assert Apart(a, convs[d]) && Apart(convs[d], a);
    }
  }

  lemma TakeValue(b: Book, m: ConvId, key: Field, pni: Option<string>)
    requires Indexed(b) && WellFormed(b.convs) && m in b.convs && (key == E164 || key == Pni)
    requires pni.Some? ==> IsPni(pni.value)
    ensures var b' := ApplyChange(b, m, TakeChange(b.convs[m], key, pni));
            Indexed(b') && b'.convs == b.convs[m := Taken(b.convs[m], key)] && WellFormed(b'.convs)
  {
    assert GoodAttrs(b.convs[m]);
    AppliedIsTaken(b.convs[m], key, pni);
    TakenKeepsWellFormed(b.convs, m, key);
    ApplyChangeEffect(b, m, TakeChange(b.convs[m], key, pni));
  }

  /** Moving a value from a match to the target. */
  lemma MoveEffect(l: Local, t: ConvId, m: ConvId, key: Field, v: string, pni: Option<string>)
    requires Indexed(l.book) && WellFormed(l.book.convs) && t in l.book.convs && m in l.book.convs && t != m
    requires (key == E164 || key == Pni) && KindOf(key, v) && (pni.Some? ==> IsPni(pni.value))
    requires Free(l.book.convs[m := Taken(l.book.convs[m], key)], t, key, v)
    ensures var l' := MoveValue(l, t, m, key, v, pni);
            var convs := l.book.convs;
            && Indexed(l'.book) && WellFormed(l'.book.convs)
            && l'.book.convs == convs[m := Taken(convs[m], key)][t := Given(convs[t], key, v)]
            && l'.merges == (if NoIds(Taken(convs[m], key)) then l.merges + [m] else l.merges)
            && l'.target == l.target && l'.unused == l.unused
  {
    TakeValue(l.book, m, key, pni);
    var cleared := ApplyChange(l.book, m, TakeChange(l.book.convs[m], key, pni));
    GiveValue(cleared, t, key, v);
  }
}
