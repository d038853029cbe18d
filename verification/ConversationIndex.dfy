/** The list of conversations and the five lookup objects over it. A
    conversation is named by its local `id`; its identifier fields are the
    attributes that the lookups index. */
module ConversationIndex {
  import opened Options

  type ConvId = string

  datatype Attrs = Attrs(serviceId: Option<string>, e164: Option<string>,
                         pni: Option<string>, groupId: Option<string>)

  const BLANK := Attrs(None, None, None, None)

  datatype Field = ServiceId | E164 | Pni | GroupId

  function Get(a: Attrs, f: Field): Option<string> {
    match f
    case ServiceId => a.serviceId
    case E164 => a.e164
    case Pni => a.pni
    case GroupId => a.groupId
  }

  function Set(a: Attrs, f: Field, v: Option<string>): Attrs {
    match f
    case ServiceId => a.(serviceId := v)
    case E164 => a.(e164 := v)
    case Pni => a.(pni := v)
    case GroupId => a.(groupId := v)
  }

  type Index = map<string, ConvId>

  datatype Book = Book(order: seq<ConvId>, convs: map<ConvId, Attrs>,
                       byServiceId: Index, byE164: Index, byPni: Index, byGroupId: Index, byId: Index)

  const EMPTY_BOOK := Book([], map[], map[], map[], map[], map[], map[])

  function IndexOf(b: Book, f: Field): Index {
    match f
    case ServiceId => b.byServiceId
    case E164 => b.byE164
    case Pni => b.byPni
    case GroupId => b.byGroupId
  }

  function WithIndex(b: Book, f: Field, i: Index): Book {
    match f
    case ServiceId => b.(byServiceId := i)
    case E164 => b.(byE164 := i)
    case Pni => b.(byPni := i)
    case GroupId => b.(byGroupId := i)
  }

  /** The attributes of a conversation object (one that exists). */
  function AttrsOf(b: Book, c: ConvId): Attrs { if c in b.convs then b.convs[c] else BLANK }

  /** Two conversations have no identifier in common, whatever its slot. */
  predicate Apart(a: Attrs, b: Attrs) {
    && (a.serviceId.Some? ==> a.serviceId != b.serviceId && a.serviceId != b.pni)
    && (a.pni.Some? ==> a.pni != b.pni && a.pni != b.serviceId)
    && (a.e164.Some? ==> a.e164 != b.e164)
    && (a.groupId.Some? ==> a.groupId != b.groupId)
  }

  // -------------------------------------------------------------- operations

  /** `idUpdated`: forget the old value, whoever it led to; record the new one. */
  function IdUpdated(b: Book, c: ConvId, f: Field, oldValue: Option<string>): Book
    requires c in b.convs
  {
    var i := if oldValue.Some? then IndexOf(b, f) - {oldValue.value} else IndexOf(b, f);
    var v := Get(b.convs[c], f);
    WithIndex(b, f, if v.Some? then i[v.value := c] else i)
  }

  /** `updateServiceId`, `updateE164` and `updatePni`: nothing if unchanged. */
  function Update(b: Book, c: ConvId, f: Field, v: Option<string>): Book
    requires c in b.convs
  {
    var oldValue := Get(b.convs[c], f);
    if v == oldValue then b
    else IdUpdated(b.(convs := b.convs[c := Set(b.convs[c], f, v)]), c, f, oldValue)
  }

  /** One lookup of `#addToLookup`: a conflicting entry is kept if it already
      has the field that makes it the better one. */
  function Added(i: Index, convs: map<ConvId, Attrs>, v: Option<string>, c: ConvId, better: Option<Field>): Index {
    if v.None? then i
    else if v.value in i && i[v.value] in convs && better.Some? && Get(convs[i[v.value]], better.value).Some? then i
    else i[v.value := c]
  }

  /** `#addConversation`. */
  function Add(b: Book, c: ConvId, a: Attrs): Book {
    var convs := b.convs[c := a];
    Book(b.order + [c], convs,
         Added(b.byServiceId, convs, a.serviceId, c, Some(E164)),
         Added(b.byE164, convs, a.e164, c, Some(ServiceId)),
         Added(b.byPni, convs, a.pni, c, Some(ServiceId)),
         Added(b.byGroupId, convs, a.groupId, c, None),
         Added(b.byId, convs, Some(c), c, Some(ServiceId)))
  }

  /** One lookup of `#removeFromLookup`: an entry of someone else stays. */
  function Removed(i: Index, v: Option<string>, c: ConvId): Index {
    if v.None? || (v.value in i && i[v.value] != c) then i else i - {v.value}
  }

  function Without(order: seq<ConvId>, c: ConvId): seq<ConvId> {
    if order == [] then []
    else (if order[0] == c then [] else [order[0]]) + Without(order[1..], c)
  }

  /** `#removeConversation`. */
  function Remove(b: Book, c: ConvId): Book
    requires c in b.convs
  {
    var a := b.convs[c];
    Book(Without(b.order, c), b.convs - {c},
         Removed(b.byServiceId, a.serviceId, c), Removed(b.byE164, a.e164, c),
         Removed(b.byPni, a.pni, c), Removed(b.byGroupId, a.groupId, c), Removed(b.byId, Some(c), c))
  }

  function At(i: Index, k: string): Option<ConvId> { if k in i then Some(i[k]) else None }

  function Or(a: Option<ConvId>, b: Option<ConvId>): Option<ConvId> { if a.Some? then a else b }

  /** `get`: the first lookup that answers. */
  function Lookup(b: Book, k: string): Option<ConvId> {
    Or(At(b.byE164, k), Or(At(b.byE164, "+" + k), Or(At(b.byServiceId, k),
       Or(At(b.byPni, k), Or(At(b.byGroupId, k), At(b.byId, k))))))
  }

  // ------------------------------------------------------------- the invariant

  /** The index is exactly the inverse of the field. */
  ghost predicate Inverse(i: Index, convs: map<ConvId, Attrs>, f: Field) {
    && (forall k :: k in i ==> i[k] in convs && Get(convs[i[k]], f) == Some(k))
    && (forall c :: c in convs && Get(convs[c], f).Some? ==>
          Get(convs[c], f).value in i && i[Get(convs[c], f).value] == c)
  }

  ghost predicate Indexed(b: Book) {
    && (forall f :: Inverse(IndexOf(b, f), b.convs, f))
    && (forall k :: k in b.byId <==> k in b.convs)
    && (forall k :: k in b.byId ==> b.byId[k] == k)
    && (forall c :: c in b.order <==> c in b.convs)
    && Distinct(b.order)
  }

  ghost predicate Distinct(order: seq<ConvId>) {
    forall i, j :: 0 <= i < j < |order| ==> order[i] != order[j]
  }

  /** Nobody but `c` has this value in this field. */
  ghost predicate Unheld(convs: map<ConvId, Attrs>, c: ConvId, f: Field, v: Option<string>) {
    v.Some? ==> forall d :: d in convs && d != c ==> Get(convs[d], f) != v
  }

  lemma OtherIndex(i: Index, convs: map<ConvId, Attrs>, c: ConvId, f: Field, v: Option<string>, g: Field)
    requires Inverse(i, convs, g) && c in convs && g != f
    ensures Inverse(i, convs[c := Set(convs[c], f, v)], g)
  {
    assert Get(Set(convs[c], f, v), g) == Get(convs[c], g);
  }

  lemma UpdateKeepsIndexed(b: Book, c: ConvId, f: Field, v: Option<string>)
    requires Indexed(b) && c in b.convs && Unheld(b.convs, c, f, v)
    ensures Indexed(Update(b, c, f, v))
    ensures Update(b, c, f, v).convs == b.convs[c := Set(b.convs[c], f, v)]
    ensures Update(b, c, f, v).order == b.order
  {
    var b' := Update(b, c, f, v);
    if v == Get(b.convs[c], f) {
      assert Set(b.convs[c], f, v) == b.convs[c];
      assert b.convs[c := b.convs[c]] == b.convs;
    } else {
      UpdateFrame(b, c, f, v);
      forall g ensures Inverse(IndexOf(b', g), b'.convs, g) {
        assert Inverse(IndexOf(b, g), b.convs, g);
        if g == f { UpdatedIndex(IndexOf(b, f), b.convs, c, f, v); }
        else { OtherIndex(IndexOf(b, g), b.convs, c, f, v, g); }
      }
    }
  }

  /** An update touches one record and one lookup. */
  lemma UpdateFrame(b: Book, c: ConvId, f: Field, v: Option<string>)
    requires c in b.convs && v != Get(b.convs[c], f)
    ensures var b' := Update(b, c, f, v);
            var was := Get(b.convs[c], f);
            var j := if was.Some? then IndexOf(b, f) - {was.value} else IndexOf(b, f);
            && b'.convs == b.convs[c := Set(b.convs[c], f, v)] && b'.order == b.order && b'.byId == b.byId
            && IndexOf(b', f) == (if v.Some? then j[v.value := c] else j)
            && forall g :: g != f ==> IndexOf(b', g) == IndexOf(b, g)
  {
    assert Get(Set(b.convs[c], f, v), f) == v;
  }

  lemma UpdatedIndex(i: Index, convs: map<ConvId, Attrs>, c: ConvId, f: Field, v: Option<string>)
    requires Inverse(i, convs, f) && c in convs && Unheld(convs, c, f, v) && v != Get(convs[c], f)
    ensures var was := Get(convs[c], f);
            var j := if was.Some? then i - {was.value} else i;
            Inverse(if v.Some? then j[v.value := c] else j, convs[c := Set(convs[c], f, v)], f)
  {
  }

  ghost predicate AllUnheld(convs: map<ConvId, Attrs>, c: ConvId, a: Attrs) {
    forall f :: Unheld(convs, c, f, Get(a, f))
  }

  lemma AddedIndex(i: Index, convs: map<ConvId, Attrs>, c: ConvId, a: Attrs, f: Field, better: Option<Field>)
    requires Inverse(i, convs, f) && c !in convs && Unheld(convs, c, f, Get(a, f))
    ensures Inverse(Added(i, convs[c := a], Get(a, f), c, better), convs[c := a], f)
  {
  }

  lemma AddKeepsIndexed(b: Book, c: ConvId, a: Attrs)
    requires Indexed(b) && c !in b.convs && AllUnheld(b.convs, c, a)
    ensures Indexed(Add(b, c, a))
  {
    var b' := Add(b, c, a);
    assert forall f :: Inverse(IndexOf(b, f), b.convs, f) && Unheld(b.convs, c, f, Get(a, f));
    AddedIndex(IndexOf(b, ServiceId), b.convs, c, a, ServiceId, Some(E164));
    AddedIndex(IndexOf(b, E164), b.convs, c, a, E164, Some(ServiceId));
    AddedIndex(IndexOf(b, Pni), b.convs, c, a, Pni, Some(ServiceId));
    AddedIndex(IndexOf(b, GroupId), b.convs, c, a, GroupId, None);
    forall f ensures Inverse(IndexOf(b', f), b'.convs, f) {
      match f { case ServiceId => case E164 => case Pni => case GroupId => }
    }
    assert c !in b.byId;
  }

  lemma {:induction false} WithoutDrops(order: seq<ConvId>, c: ConvId)
    requires Distinct(order)
    ensures forall d :: d in Without(order, c) <==> d in order && d != c
    ensures Distinct(Without(order, c))
  {
    if order != [] {
      var rest := order[1..];
      WithoutDrops(rest, c);
      assert forall i :: 0 <= i < |rest| ==> rest[i] == order[i + 1];
      assert order[0] !in rest;
      assert forall d :: d in order <==> d == order[0] || d in rest;
      var o := Without(rest, c);
      assert order[0] !in o;
      assert Without(order, c) == if order[0] == c then o else [order[0]] + o;
    }
  }

  lemma RemovedIndex(i: Index, convs: map<ConvId, Attrs>, c: ConvId, f: Field)
    requires Inverse(i, convs, f) && c in convs
    ensures Inverse(Removed(i, Get(convs[c], f), c), convs - {c}, f)
  {
  }

  lemma RemoveKeepsIndexed(b: Book, c: ConvId)
    requires Indexed(b) && c in b.convs
    ensures Indexed(Remove(b, c))
  {
    var b' := Remove(b, c);
    WithoutDrops(b.order, c);
    forall f ensures Inverse(IndexOf(b', f), b'.convs, f) {
      assert Inverse(IndexOf(b, f), b.convs, f);
      RemovedIndex(IndexOf(b, f), b.convs, c, f);
      match f { case ServiceId => case E164 => case Pni => case GroupId => }
    }
    assert c in b.byId;
  }

  // ---------------------------------------------------------------------- runs

  datatype Event =
    | Adding(c: ConvId, a: Attrs)
    | Removing(c: ConvId)
    | Updating(c: ConvId, f: Field, v: Option<string>)

  ghost predicate CanStep(b: Book, e: Event) {
    match e
    case Adding(c, a) => c !in b.convs && AllUnheld(b.convs, c, a)
    case Removing(c) => c in b.convs
    case Updating(c, f, v) => c in b.convs && Unheld(b.convs, c, f, v)
  }

  ghost function Step(b: Book, e: Event): Book
    requires CanStep(b, e)
  {
    match e
    case Adding(c, a) => Add(b, c, a)
    case Removing(c) => Remove(b, c)
    case Updating(c, f, v) => Update(b, c, f, v)
  }

  ghost predicate IsRun(b: Book, es: seq<Event>)
    decreases |es|
  {
    es == [] || (CanStep(b, es[0]) && IsRun(Step(b, es[0]), es[1..]))
  }

  ghost function Run(b: Book, es: seq<Event>): Book
    requires IsRun(b, es)
    decreases |es|
  {
    if es == [] then b else Run(Step(b, es[0]), es[1..])
  }

  // --------------------------------------------------- lookup as linear search

  /** The first conversation of the list with this value in this field. */
  function Search(order: seq<ConvId>, convs: map<ConvId, Attrs>, f: Field, k: string): Option<ConvId> {
    if order == [] then None
    else if order[0] in convs && Get(convs[order[0]], f) == Some(k) then Some(order[0])
    else Search(order[1..], convs, f, k)
  }

  function SearchAll(b: Book, k: string): Option<ConvId> {
    Or(Search(b.order, b.convs, E164, k), Or(Search(b.order, b.convs, E164, "+" + k),
       Or(Search(b.order, b.convs, ServiceId, k), Or(Search(b.order, b.convs, Pni, k),
       Or(Search(b.order, b.convs, GroupId, k), if k in b.order then Some(k) else None)))))
  }

  lemma {:induction false} SearchFinds(order: seq<ConvId>, convs: map<ConvId, Attrs>, f: Field, k: string)
    ensures match Search(order, convs, f, k)
            case Some(c) => c in order && c in convs && Get(convs[c], f) == Some(k)
            case None => forall c :: c in order && c in convs ==> Get(convs[c], f) != Some(k)
  {
    if order != [] {
      SearchFinds(order[1..], convs, f, k);
      assert forall c :: c in order <==> c == order[0] || c in order[1..];
    }
  }

  lemma IndexIsSearch(b: Book, f: Field, k: string)
    requires Indexed(b)
    ensures At(IndexOf(b, f), k) == Search(b.order, b.convs, f, k)
  {
    SearchFinds(b.order, b.convs, f, k);
    assert Inverse(IndexOf(b, f), b.convs, f);
  }

  /** After any sequence of additions, removals and identifier updates that
      never gives one value to two conversations, the five lookups are the
      inverse of the fields, and `get` is a linear search of the list. */
  lemma {:induction false} LookupIsLinearSearch(b: Book, es: seq<Event>, k: string)
    requires Indexed(b) && IsRun(b, es)
    ensures Indexed(Run(b, es))
    ensures Lookup(Run(b, es), k) == SearchAll(Run(b, es), k)
    decreases |es|
  {
    if es == [] {
      IndexIsSearch(b, E164, k); IndexIsSearch(b, E164, "+" + k); IndexIsSearch(b, ServiceId, k);
      IndexIsSearch(b, Pni, k); IndexIsSearch(b, GroupId, k);
    } else {
      match es[0] {
        case Adding(c, a) => AddKeepsIndexed(b, c, a);
        case Removing(c) => RemoveKeepsIndexed(b, c);
        case Updating(c, f, v) => UpdateKeepsIndexed(b, c, f, v);
      }
      LookupIsLinearSearch(Step(b, es[0]), es[1..], k);
    }
  }
}
