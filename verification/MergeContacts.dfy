/** `applyChangeToConversation` and `maybeMergeContacts`, step for step, and a
    closed form of what they do to the conversations. */
module MergeContacts {
  import opened Options
  import opened ConversationIndex

  // -------------------------------------------------- applyChangeToConversation

  /** A property of a change object: missing, or present and maybe undefined. */
  datatype Slot = Absent | To(v: Option<string>)

  datatype Change = Change(serviceId: Slot, e164: Slot, pni: Slot)

  predicate Truthy(s: Slot) { s.To? && s.v.Some? }

  function One(key: Field, v: Option<string>): Change
    requires key != GroupId
  {
    Change(if key == ServiceId then To(v) else Absent, if key == E164 then To(v) else Absent,
           if key == Pni then To(v) else Absent)
  }

  /** The three rules that complete a suggested change. */
  function Completed(a: Attrs, ch: Change): Change {
    var c1 := if ch.e164.To? && !Truthy(ch.pni) then ch.(pni := To(None)) else ch;
    var c2 := if Truthy(c1.pni) && !Truthy(c1.serviceId) && (a.serviceId.None? || a.serviceId == a.pni)
              then c1.(serviceId := c1.pni) else c1;
    if !Truthy(c2.serviceId) && c2.pni.To? && c2.pni.v.None? && a.serviceId == a.pni
    then c2.(serviceId := To(None)) else c2
  }

  function UpdateSlot(b: Book, c: ConvId, f: Field, s: Slot): Book {
    if s.To? && c in b.convs then Update(b, c, f, s.v) else b
  }

  function ApplyChange(b: Book, c: ConvId, suggested: Change): Book {
    var ch := Completed(AttrsOf(b, c), suggested);
    UpdateSlot(UpdateSlot(UpdateSlot(b, c, ServiceId, ch.serviceId), c, E164, ch.e164), c, Pni, ch.pni)
  }

  function Slotted(s: Slot, v: Option<string>): Option<string> { if s.To? then s.v else v }

  /** The attributes that `ApplyChange` leaves. */
  function Applied(a: Attrs, suggested: Change): Attrs {
    var ch := Completed(a, suggested);
    Attrs(Slotted(ch.serviceId, a.serviceId), Slotted(ch.e164, a.e164), Slotted(ch.pni, a.pni), a.groupId)
  }

  lemma UpdateSlotEffect(b: Book, c: ConvId, f: Field, s: Slot)
    requires Indexed(b) && c in b.convs && (s.To? ==> Unheld(b.convs, c, f, s.v))
    ensures Indexed(UpdateSlot(b, c, f, s)) && UpdateSlot(b, c, f, s).order == b.order
    ensures UpdateSlot(b, c, f, s).convs == b.convs[c := Set(b.convs[c], f, Slotted(s, Get(b.convs[c], f)))]
  {
    if s.To? { UpdateKeepsIndexed(b, c, f, s.v); }
    else {
      assert Set(b.convs[c], f, Get(b.convs[c], f)) == b.convs[c];
      assert b.convs[c := b.convs[c]] == b.convs;
    }
  }

  lemma UnheldOfOthers(convs: map<ConvId, Attrs>, c: ConvId, a: Attrs, f: Field, v: Option<string>)
    requires Unheld(convs, c, f, v)
    ensures Unheld(convs[c := a], c, f, v)
  {
  }

  /** A second update of the same record, seen from the original book. */
  lemma NextUpdate(b: Book, b1: Book, c: ConvId, f: Field, s: Slot)
    requires Indexed(b1) && c in b.convs && c in b1.convs && b1.convs == b.convs[c := b1.convs[c]]
    requires s.To? ==> Unheld(b.convs, c, f, s.v)
    ensures var b2 := UpdateSlot(b1, c, f, s);
            && Indexed(b2) && b2.order == b1.order && c in b2.convs && b2.convs == b.convs[c := b2.convs[c]]
            && b2.convs[c] == Set(b1.convs[c], f, Slotted(s, Get(b1.convs[c], f)))
  {
    if s.To? { UnheldOfOthers(b.convs, c, b1.convs[c], f, s.v); }
    UpdateSlotEffect(b1, c, f, s);
  }

  lemma ApplyChangeEffect(b: Book, c: ConvId, suggested: Change)
    requires Indexed(b) && c in b.convs
    requires var a := Applied(b.convs[c], suggested);
             Unheld(b.convs, c, ServiceId, a.serviceId) && Unheld(b.convs, c, E164, a.e164)
             && Unheld(b.convs, c, Pni, a.pni)
    ensures Indexed(ApplyChange(b, c, suggested)) && ApplyChange(b, c, suggested).order == b.order
    ensures ApplyChange(b, c, suggested).convs == b.convs[c := Applied(b.convs[c], suggested)]
  {
    ThreeUpdates(b, c, Completed(b.convs[c], suggested));
  }

  lemma ThreeUpdates(b: Book, c: ConvId, ch: Change)
    requires Indexed(b) && c in b.convs
    requires (ch.serviceId.To? ==> Unheld(b.convs, c, ServiceId, ch.serviceId.v))
             && (ch.e164.To? ==> Unheld(b.convs, c, E164, ch.e164.v))
             && (ch.pni.To? ==> Unheld(b.convs, c, Pni, ch.pni.v))
    ensures var b' := UpdateSlot(UpdateSlot(UpdateSlot(b, c, ServiceId, ch.serviceId), c, E164, ch.e164), c, Pni,
                                 ch.pni);
            var a := b.convs[c];
            && Indexed(b') && b'.order == b.order
            && b'.convs == b.convs[c := Attrs(Slotted(ch.serviceId, a.serviceId), Slotted(ch.e164, a.e164),
                                              Slotted(ch.pni, a.pni), a.groupId)]
  {
    assert b.convs == b.convs[c := b.convs[c]];
    NextUpdate(b, b, c, ServiceId, ch.serviceId);
    var b1 := UpdateSlot(b, c, ServiceId, ch.serviceId);
    NextUpdate(b, b1, c, E164, ch.e164);
    NextUpdate(b, UpdateSlot(b1, c, E164, ch.e164), c, Pni, ch.pni);
  }

  // ----------------------------------------------------------- maybeMergeContacts

  datatype Item = Item(key: Field, value: Option<string>, found: Option<ConvId>)

  /** What the loop threads through: the book, the target, the unused items
      and the conversations handed to merge. */
  datatype Local = Local(book: Book, target: Option<ConvId>, unused: seq<Item>, merges: seq<ConvId>)

  predicate IsPni(s: string) { "PNI:" <= s }
  predicate IsAci(s: string) { '-' in s && s[0] != '+' && !IsPni(s) }
  predicate IsE164(s: string) { 2 <= |s| && s[0] == '+' && forall i :: 1 <= i < |s| ==> '0' <= s[i] <= '9' }

  datatype Kind = PrivateKind | GroupKind

  /** The conversation that `getOrCreate` makes; `extra` are its initial props,
      which take precedence over what the identifier says. */
  function CreatedAs(kind: Kind, identifier: string, extra: Attrs): Attrs {
    var isServiceId := IsAci(identifier) || IsPni(identifier);
    var own := if kind.GroupKind? then BLANK.(groupId := Some(identifier))
               else if isServiceId then BLANK.(serviceId := Some(identifier))
               else BLANK.(e164 := Some(identifier));
    Attrs(if extra.serviceId.Some? then extra.serviceId else own.serviceId,
          if extra.e164.Some? then extra.e164 else own.e164,
          if extra.pni.Some? then extra.pni else own.pni,
          if extra.groupId.Some? then extra.groupId else own.groupId)
  }

  function Created(identifier: string, extra: Attrs): Attrs { CreatedAs(PrivateKind, identifier, extra) }

  /** `getOrCreate`; `newId` is the generated id. */
  function GetOrCreateAs(b: Book, kind: Kind, identifier: string, extra: Attrs, newId: ConvId): (Book, ConvId) {
    match Lookup(b, identifier)
    case Some(c) => (b, c)
    case None => (Add(b, newId, CreatedAs(kind, identifier, extra)), newId)
  }

  function GetOrCreate(b: Book, identifier: string, extra: Attrs, newId: ConvId): (Book, ConvId) {
    GetOrCreateAs(b, PrivateKind, identifier, extra, newId)
  }

  /** What `getOrCreate` makes without further props has the identifier as its
      group id, its service id or its number, as its type and form ask, and
      nothing else; and it is found by it: a second call returns the same. */
  lemma CreatedIsFoundAgain(b: Book, kind: Kind, identifier: string, newId: ConvId, newId': ConvId)
    requires newId !in b.byId && newId !in b.convs
    ensures var (b1, c) := GetOrCreateAs(b, kind, identifier, BLANK, newId);
            && Lookup(b1, identifier) == Some(c) && GetOrCreateAs(b1, kind, identifier, BLANK, newId') == (b1, c)
            && (Lookup(b, identifier).None? ==>
                  c == newId && c in b1.convs
                  && b1.convs[c] == (if kind.GroupKind? then Attrs(None, None, None, Some(identifier))
                                     else if IsAci(identifier) || IsPni(identifier)
                                     then Attrs(Some(identifier), None, None, None)
                                     else Attrs(None, Some(identifier), None, None)))
  {
  }

  /** Initial props that are given take precedence over the identifier, and those
      that are not leave it alone. */
  lemma InitialPropsWin(kind: Kind, identifier: string, extra: Attrs, f: Field)
    ensures Get(CreatedAs(kind, identifier, extra), f)
            == if Get(extra, f).Some? then Get(extra, f) else Get(CreatedAs(kind, identifier, BLANK), f)
  {
    match f { case ServiceId => case E164 => case Pni => case GroupId => }
  }

  /** One turn of the inner loop over the unused items, given a match `m`. */
  function UseOne(l: Local, u: Item, m: ConvId, pni: Option<string>, newId: ConvId): Local
    requires u.value.Some? && u.key != GroupId
  {
    var a := AttrsOf(l.book, m);
    var (book, target) :=
      if l.target.Some? then (l.book, l.target.value)
      else if Get(a, u.key).None? then (l.book, m)
      else if u.key == ServiceId && a.serviceId == pni then (l.book, m)
      else if u.key == ServiceId && a.serviceId == a.pni then (l.book, m)
      else GetOrCreate(l.book, u.value.value, BLANK, newId);
    l.(book := ApplyChange(book, target, One(u.key, u.value)), target := Some(target))
  }

  predicate Usable(us: seq<Item>) { forall k :: 0 <= k < |us| ==> us[k].value.Some? && us[k].key != GroupId }

  function UseAll(l: Local, us: seq<Item>, m: ConvId, pni: Option<string>, newId: ConvId): (l': Local)
    requires Usable(us)
    ensures l'.unused == l.unused
    decreases |us|
  {
    if us == [] then l else UseAll(UseOne(l, us[0], m, pni, newId), us[1..], m, pni, newId)
  }

  /** Take the value away from the match `m` and give it to the target `t`. */
  function MoveValue(l: Local, t: ConvId, m: ConvId, key: Field, value: string, pni: Option<string>): Local
    requires key != GroupId
  {
    var change := if key != ServiceId && AttrsOf(l.book, m).serviceId == pni
                  then One(key, None).(serviceId := To(None)) else One(key, None);
    var cleared := ApplyChange(l.book, m, change);
    var a := AttrsOf(cleared, m);
    var willMerge := a.serviceId.None? && a.e164.None? && a.pni.None?;
    l.(book := ApplyChange(cleared, t, One(key, Some(value))),
       merges := if willMerge then l.merges + [m] else l.merges)
  }

  /** One turn of the loop over the three matches. */
  function Process(l: Local, item: Item, pni: Option<string>, newId: ConvId): (l': Local)
    requires item.key != GroupId && Usable(l.unused)
    ensures Usable(l'.unused)
  {
    if item.value.None? then l
    else if item.found.None? then
      if l.target.Some? then l.(book := ApplyChange(l.book, l.target.value, One(item.key, item.value)))
      else l.(unused := l.unused + [item])
    else
      var m := item.found.value;
      var l1 := UseAll(l, l.unused, m, pni, newId).(unused := []);
      if l1.target.None? then l1.(target := Some(m))
      else if l1.target.value != m then MoveValue(l1, l1.target.value, m, item.key, item.value.value, pni)
      else if Get(AttrsOf(l1.book, m), item.key).None?
      then l1.(book := ApplyChange(l1.book, m, One(item.key, item.value)))
      else l1
  }

  datatype Merged = Merged(book: Book, target: ConvId, merges: seq<ConvId>)

  function LookupOpt(b: Book, v: Option<string>): Option<ConvId> { if v.Some? then Lookup(b, v.value) else None }

  function AfterAci(b: Book, aci: Option<string>, pni: Option<string>, newId: ConvId): (l: Local)
    ensures Usable(l.unused)
  {
    Process(Local(b, None, [], []), Item(ServiceId, aci, LookupOpt(b, aci)), pni, newId)
  }

  function AfterE164(b: Book, aci: Option<string>, e164: Option<string>, pni: Option<string>, newId: ConvId): (l: Local)
    ensures Usable(l.unused)
  {
    Process(AfterAci(b, aci, pni, newId), Item(E164, e164, LookupOpt(b, e164)), pni, newId)
  }

  /** None is the throw when no identifier is given. */
  function MaybeMergeContacts(b: Book, aci: Option<string>, e164: Option<string>, pni: Option<string>,
                              newId: ConvId): Option<Merged>
  {
    if aci.None? && e164.None? && pni.None? then None
    else
      var l := Process(AfterE164(b, aci, e164, pni, newId), Item(Pni, pni, LookupOpt(b, pni)), pni, newId);
      if l.target.Some? then Some(Merged(l.book, l.target.value, l.merges))
      else
        var identifier := if aci.Some? then aci.value else if pni.Some? then pni.value else e164.value;
        var (book, c) := GetOrCreate(l.book, identifier, Attrs(None, e164, pni, None), newId);
        Some(Merged(book, c, l.merges))
  }

  // ------------------------------------------------------------ well-formedness

  ghost predicate GoodAttrs(a: Attrs) {
    && (a.serviceId.Some? ==> IsAci(a.serviceId.value) || (IsPni(a.serviceId.value) && a.pni == a.serviceId))
    && (a.e164.Some? ==> IsE164(a.e164.value))
    && (a.pni.Some? ==> IsPni(a.pni.value))
  }

  ghost predicate WellFormed(convs: map<ConvId, Attrs>) {
    && (forall c :: c in convs ==> GoodAttrs(convs[c]))
    && (forall c, d :: c in convs && d in convs && c != d ==> Apart(convs[c], convs[d]))
  }

  /** The identifier is not also a local id or a group id. */
  ghost predicate NoClash(convs: map<ConvId, Attrs>, v: Option<string>) {
    v.Some? ==> v.value !in convs && forall c :: c in convs ==> convs[c].groupId != v
  }

  ghost predicate GoodInput(convs: map<ConvId, Attrs>, aci: Option<string>, e164: Option<string>, pni: Option<string>) {
    && (aci.Some? ==> IsAci(aci.value)) && (e164.Some? ==> IsE164(e164.value)) && (pni.Some? ==> IsPni(pni.value))
    && NoClash(convs, aci) && NoClash(convs, e164) && NoClash(convs, pni)
  }

  /** Numbers are a plus and digits, PNIs carry their tag, and whatever else has
      a dash, and does not begin with a plus, counts as an ACI. */
  lemma FormsAreTold(digits: string, rest: string, uuid: string)
    requires digits != "" && forall i :: 0 <= i < |digits| ==> '0' <= digits[i] <= '9'
    requires uuid != "" && uuid[0] != '+' && '-' in uuid && !("PNI:" <= uuid)
    ensures IsE164("+" + digits) && !IsAci("+" + digits) && !IsPni("+" + digits)
    ensures IsPni("PNI:" + rest) && !IsAci("PNI:" + rest) && !IsE164("PNI:" + rest)
    ensures IsAci(uuid) && !IsPni(uuid) && !IsE164(uuid)
  {
    var number := "+" + digits;
    forall i | 1 <= i < |number| ensures '0' <= number[i] <= '9' { assert number[i] == digits[i - 1]; }
    assert ("PNI:" + rest)[0] == 'P';
    assert number[0] == '+';
  }

  lemma PlusIsNotE164(v: string)
    requires IsAci(v) || IsPni(v) || IsE164(v)
    ensures !IsE164("+" + v)
  {
    var s := "+" + v;
    if IsAci(v) {
      var i :| 0 <= i < |v| && v[i] == '-';
      assert s[i + 1] == '-';
    } else {
      assert s[1] == v[0];
    }
  }

  lemma AtIndex(b: Book, f: Field, k: string)
    requires Indexed(b)
    ensures match At(IndexOf(b, f), k)
            case Some(c) => c in b.convs && Get(b.convs[c], f) == Some(k)
            case None => forall c :: c in b.convs ==> Get(b.convs[c], f) != Some(k)
  {
    assert Inverse(IndexOf(b, f), b.convs, f);
  }

  /** On a well-formed book `get` finds exactly the holder of the identifier. */
  lemma LookupFindsHolder(b: Book, key: Field, v: string)
    requires Indexed(b) && WellFormed(b.convs) && NoClash(b.convs, Some(v))
    requires (key == ServiceId && IsAci(v)) || (key == E164 && IsE164(v)) || (key == Pni && IsPni(v))
    ensures match Lookup(b, v)
            case Some(c) => c in b.convs && Get(b.convs[c], key) == Some(v)
            case None => forall c :: c in b.convs ==> Get(b.convs[c], key) != Some(v)
  {
    PlusIsNotE164(v);
    AtIndex(b, E164, v);
    AtIndex(b, E164, "+" + v);
    AtIndex(b, ServiceId, v);
    AtIndex(b, Pni, v);
    AtIndex(b, GroupId, v);
  }

  // --------------------------------------------------- a PNI as service id alone

  lemma UpdateSets(b: Book, c: ConvId, f: Field, v: Option<string>, d: ConvId)
    requires c in b.convs
    ensures var b' := Update(b, c, f, v);
            b'.convs.Keys == b.convs.Keys && AttrsOf(b', d) == if d == c then Set(b.convs[c], f, v) else AttrsOf(b, d)
  {
    if v == Get(b.convs[c], f) { assert Set(b.convs[c], f, v) == b.convs[c]; }
  }

  lemma SlotSets(b: Book, c: ConvId, f: Field, s: Slot, d: ConvId)
    requires c in b.convs
    ensures var b' := UpdateSlot(b, c, f, s);
            && b'.convs.Keys == b.convs.Keys
            && AttrsOf(b', d) == if d == c && s.To? then Set(b.convs[c], f, s.v) else AttrsOf(b, d)
  {
    if s.To? { UpdateSets(b, c, f, s.v, d); }
  }

  /** On any book, well-formed or not, a change sets what it says, on its own
      conversation. */
  lemma ChangeSets(b: Book, c: ConvId, suggested: Change, d: ConvId)
    requires c in b.convs
    ensures var b' := ApplyChange(b, c, suggested);
            && b'.convs.Keys == b.convs.Keys
            && AttrsOf(b', d) == if d == c then Applied(b.convs[c], suggested) else AttrsOf(b, d)
  {
    var ch := Completed(b.convs[c], suggested);
    var b1 := UpdateSlot(b, c, ServiceId, ch.serviceId);
    var b2 := UpdateSlot(b1, c, E164, ch.e164);
    SlotSets(b, c, ServiceId, ch.serviceId, d);
    SlotSets(b, c, ServiceId, ch.serviceId, c);
    SlotSets(b1, c, E164, ch.e164, d);
    SlotSets(b1, c, E164, ch.e164, c);
    SlotSets(b2, c, Pni, ch.pni, d);
  }

  /** A match that has the PNI asked for as its service id, and not as its PNI,
      loses it with the number or the PNI that moves to the target; left with
      nothing, it is handed to merge. */
  lemma PniAloneGoesAlong(l: Local, t: ConvId, m: ConvId, key: Field, value: string, pni: string)
    requires t != m && t in l.book.convs && m in l.book.convs && (key == E164 || key == Pni)
    requires var a := l.book.convs[m];
             a.serviceId == Some(pni) && a.pni.None? && (key == Pni ==> a.e164.None?)
    ensures var l' := MoveValue(l, t, m, key, value, Some(pni));
            && AttrsOf(l'.book, m) == Attrs(None, None, None, l.book.convs[m].groupId)
            && l'.merges == l.merges + [m]
  {
    var change := One(key, None).(serviceId := To(None));
    ChangeSets(l.book, m, change, m);
    var cleared := ApplyChange(l.book, m, change);
    ChangeSets(cleared, t, One(key, Some(value)), m);
  }
}
