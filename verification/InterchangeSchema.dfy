/**
  Which arrays of a plan are collections: their order carries no meaning, and the
  canonical document has them sorted.
 */
module InterchangeSchema {
  import K = KeyedSort
  import N = CanonicalNumber
  import opened JsonText

  /** What a collection is sorted by. */
  datatype KeyKind = ById | ByText | ByChannel

  datatype Shape = Plain | Collection(kind: KeyKind, item: Shape) | Record(special: seq<Special>)

  datatype Special = Special(key: string, shape: Shape)

  // ----- Looking up -----

  function Get(fields: seq<Field>, key: string): Option<Json> {
    if fields == [] then None
    else if fields[0].key == key then Some(fields[0].value)
    else Get(fields[1..], key)
  }

  lemma {:induction false} GetMember(fields: seq<Field>, key: string)
    ensures Get(fields, key).Some? ==> Field(key, Get(fields, key).value) in fields
    ensures Get(fields, key).None? ==> forall f | f in fields :: f.key != key
  {
    if fields != [] {
      GetMember(fields[1..], key);
      assert fields == [fields[0]] + fields[1..];
    }
  }

  lemma {:induction false} GetOfMember(fields: seq<Field>, f: Field)
    requires DistinctKeys(fields) && f in fields
    ensures Get(fields, f.key) == Some(f.value)
  {
    GetMember(fields, f.key);
    var i :| 0 <= i < |fields| && fields[i] == f;
    var g := Field(f.key, Get(fields, f.key).value);
    var j :| 0 <= j < |fields| && fields[j] == g;
    assert i == j;
  }

  function StringAt(fields: seq<Field>, key: string): Option<string> {
    var v := Get(fields, key);
    if v.Some? && v.value.Str? then Some(v.value.text) else None
  }

  function IntAt(fields: seq<Field>, key: string): Option<int> {
    var v := Get(fields, key);
    if v.Some? && v.value.Num? && v.value.number.Int? then Some(v.value.number.n) else None
  }

  function Raised(s: string): K.Key { seq(|s|, i requires 0 <= i < |s| => s[i] as int + 1) }

  /** Known channels come first, by number; unknown ones by reason and raw text. */
  function ChannelKey(fields: seq<Field>): Option<K.Key> {
    var status := StringAt(fields, "status");
    if status == Some("known") then
      var n := IntAt(fields, "value");
      if n.Some? then Some([0, n.value]) else None
    else
      var reason, raw := StringAt(fields, "reason"), StringAt(fields, "raw");
      if reason.Some? && raw.Some? then Some([1] + Raised(reason.value) + [0] + Raised(raw.value)) else None
  }

  function KeyOf(kind: KeyKind, v: Json): Option<K.Key> {
    match kind
    case ByText => if v.Str? then Some(Codes(v.text)) else None
    case ById =>
      if v.Obj? && StringAt(v.fields, "id").Some? then Some(Codes(StringAt(v.fields, "id").value)) else None
    case ByChannel => if v.Obj? then ChannelKey(v.fields) else None
  }

  function KeyOr(kind: KeyKind, v: Json): K.Key { if KeyOf(kind, v).Some? then KeyOf(kind, v).value else [] }

  function ShapeOf(special: seq<Special>, key: string): Shape {
    if special == [] then Plain
    else if special[0].key == key then special[0].shape
    else ShapeOf(special[1..], key)
  }

  // ----- Normalizing -----

  function Normalize(shape: Shape, v: Json): Json
    decreases v
  {
    match shape
    case Plain => v
    case Collection(kind, item) =>
      if v.Arr? then
        Arr(Values(K.Sort(seq(|v.items|, i requires 0 <= i < |v.items| =>
          K.Entry(KeyOr(kind, v.items[i]), Normalize(item, v.items[i]))))))
      else v
    case Record(special) =>
      if v.Obj? then
        Obj(seq(|v.fields|, i requires 0 <= i < |v.fields| =>
          Field(v.fields[i].key, Normalize(ShapeOf(special, v.fields[i].key), v.fields[i].value))))
      else v
  }

  ghost predicate KeysDistinct(kind: KeyKind, items: seq<Json>) {
    forall i, j | 0 <= i < j < |items| :: KeyOr(kind, items[i]) != KeyOr(kind, items[j])
  }

  /** Collections hold items with keys, each key once. */
  ghost predicate Fits(shape: Shape, v: Json)
    decreases v
  {
    match shape
    case Plain => true
    case Collection(kind, item) =>
      && v.Arr? && KeysDistinct(kind, v.items)
      && forall i | 0 <= i < |v.items| :: KeyOf(kind, v.items[i]).Some? && Fits(item, v.items[i])
    case Record(special) =>
      && v.Obj?
      && forall i | 0 <= i < |v.fields| :: Fits(ShapeOf(special, v.fields[i].key), v.fields[i].value)
  }

  /** A collection's items are not reshaped in the fields they are sorted by. */
  ghost predicate SchemaOk(shape: Shape) {
    match shape
    case Plain => true
    case Collection(kind, item) =>
      && SchemaOk(item)
      && (item.Plain? || (kind == ById && item.Record? && ShapeOf(item.special, "id") == Plain))
    case Record(special) => forall i | 0 <= i < |special| :: SchemaOk(special[i].shape)
  }

  lemma {:induction false} SchemaOkAt(special: seq<Special>, key: string)
    requires forall i | 0 <= i < |special| :: SchemaOk(special[i].shape)
    ensures SchemaOk(ShapeOf(special, key))
  {
    if special != [] {
      SchemaOkAt(special[1..], key);
    }
  }

  /** The canonical form of the normalized value. */
  function Image(shape: Shape, v: Json): Json { Canon(Normalize(shape, v)) }

  // ----- Equal up to the order of collections -----

  ghost predicate SameUnder(shape: Shape, v: Json, w: Json)
    decreases v, 0
  {
    match shape
    case Plain => Same(v, w)
    case Collection(kind, item) =>
      && v.Arr? && w.Arr?
      && (forall i | 0 <= i < |v.items| :: HasMate(kind, item, v.items[i], w.items))
      && (forall j | 0 <= j < |w.items| :: IsMateOf(kind, item, v.items, w.items[j]))
    case Record(special) =>
      && v.Obj? && w.Obj?
      && (forall i | 0 <= i < |v.fields| :: HasLike(special, v.fields[i], w.fields))
      && (forall j | 0 <= j < |w.fields| :: IsLikeOf(special, v.fields, w.fields[j]))
  }

  /** Items of one key that agree. */
  ghost predicate Mates(kind: KeyKind, item: Shape, x: Json, y: Json)
    decreases x, 1
  {
    KeyOr(kind, x) == KeyOr(kind, y) && SameUnder(item, x, y)
  }

  ghost predicate HasMate(kind: KeyKind, item: Shape, x: Json, b: seq<Json>)
    decreases x, 2
  {
    exists j :: 0 <= j < |b| && Mates(kind, item, x, b[j])
  }

  ghost predicate IsMateOf(kind: KeyKind, item: Shape, a: seq<Json>, y: Json)
    decreases a, 2
  {
    exists i :: 0 <= i < |a| && Mates(kind, item, a[i], y)
  }

  ghost predicate Alike(special: seq<Special>, f: Field, g: Field)
    decreases f, 1
  {
    f.key == g.key && SameUnder(ShapeOf(special, f.key), f.value, g.value)
  }

  ghost predicate HasLike(special: seq<Special>, f: Field, b: seq<Field>)
    decreases f, 2
  {
    exists j :: 0 <= j < |b| && Alike(special, f, b[j])
  }

  ghost predicate IsLikeOf(special: seq<Special>, a: seq<Field>, g: Field)
    decreases a, 2
  {
    exists i :: 0 <= i < |a| && Alike(special, a[i], g)
  }

  // ----- Normalized values -----

  function NormalFields(special: seq<Special>, fields: seq<Field>): (r: seq<Field>)
    ensures |r| == |fields|
  {
    seq(|fields|, i requires 0 <= i < |fields| =>
      Field(fields[i].key, Normalize(ShapeOf(special, fields[i].key), fields[i].value)))
  }

  function NormalEntries(kind: KeyKind, item: Shape, items: seq<Json>): (r: seq<K.Entry<Json>>)
    ensures |r| == |items|
  {
    seq(|items|, i requires 0 <= i < |items| => K.Entry(KeyOr(kind, items[i]), Normalize(item, items[i])))
  }

  /** Keys and canonical items of a collection. */
  function ImageEntries(kind: KeyKind, item: Shape, items: seq<Json>): (r: seq<K.Entry<Json>>)
    ensures |r| == |items|
  {
    seq(|items|, i requires 0 <= i < |items| => K.Entry(KeyOr(kind, items[i]), Image(item, items[i])))
  }

  lemma {:induction false} NormalizeKeepsKeys(shape: Shape, v: Json)
    requires WellKeyed(v)
    ensures WellKeyed(Normalize(shape, v))
    decreases v
  {
    match shape
    case Plain =>
    case Collection(kind, item) =>
      if v.Arr? {
        var es := NormalEntries(kind, item, v.items);
        forall i | 0 <= i < |es| ensures WellKeyed(es[i].value) {
          NormalizeKeepsKeys(item, v.items[i]);
        }
        assert Normalize(shape, v) == Arr(Values(K.Sort(es)));
        SortedWellKeyed(es);
      }
    case Record(special) =>
      if v.Obj? {
        var fields := NormalFields(special, v.fields);
        forall i | 0 <= i < |fields| ensures WellKeyed(fields[i].value) {
          NormalizeKeepsKeys(ShapeOf(special, v.fields[i].key), v.fields[i].value);
        }
        assert Normalize(shape, v) == Obj(fields);
      }
  }

  lemma {:induction false} SortedWellKeyed(es: seq<K.Entry<Json>>)
    requires forall i | 0 <= i < |es| :: WellKeyed(es[i].value)
    ensures WellKeyed(Arr(Values(K.Sort(es))))
  {
    var sorted := K.Sort(es);
    K.SortEntries(es);
    forall i | 0 <= i < |sorted| ensures WellKeyed(Values(sorted)[i]) {
      assert sorted[i] in es;
    }
  }

  const CANONICAL: Json -> Json := (v: Json) => Canon(v)

  lemma {:induction false} ImageCollection(kind: KeyKind, item: Shape, items: seq<Json>)
    ensures Image(Collection(kind, item), Arr(items)) == Arr(Values(K.Sort(ImageEntries(kind, item, items))))
  {
    var es := NormalEntries(kind, item, items);
    assert Normalize(Collection(kind, item), Arr(items)) == Arr(Values(K.Sort(es)));
    K.SortMap(CANONICAL, es);
    assert K.MapValues(CANONICAL, es) == ImageEntries(kind, item, items);
    assert Canons(Values(K.Sort(es))) == Values(K.MapValues(CANONICAL, K.Sort(es)));
  }

  lemma {:induction false} ImageRecord(special: seq<Special>, fields: seq<Field>)
    ensures Image(Record(special), Obj(fields)) == Canon(Obj(NormalFields(special, fields)))
  {
    assert Normalize(Record(special), Obj(fields)) == Obj(NormalFields(special, fields));
  }

  // ----- Keys survive -----

  lemma {:induction false} GetCanon(fields: seq<Field>, key: string)
    requires DistinctKeys(fields)
    ensures
      var canons := MapFields(CANON, SortFields(fields));
      Get(canons, key) == match Get(fields, key) { case None => None case Some(v) => Some(Canon(v)) }
  {
    var sorted := SortFields(fields);
    var canons := MapFields(CANON, sorted);
    SortFieldsMembers(fields);
    SortedStays(fields);
    GetMember(fields, key);
    GetMember(canons, key);
    if Get(fields, key).Some? {
      var f := Field(key, Get(fields, key).value);
      var i :| 0 <= i < |sorted| && sorted[i] == f;
      assert canons[i] == Field(key, Canon(f.value));
      GetOfMember(canons, canons[i]);
    }
  }

  lemma {:induction false} GetNormal(special: seq<Special>, fields: seq<Field>, key: string)
    ensures Get(NormalFields(special, fields), key) ==
            match Get(fields, key) { case None => None case Some(v) => Some(Normalize(ShapeOf(special, key), v)) }
  {
    if fields != [] {
      GetNormal(special, fields[1..], key);
      assert NormalFields(special, fields)[1..] == NormalFields(special, fields[1..]);
    }
  }

  lemma {:induction false} StringCanon(fields: seq<Field>, key: string)
    requires DistinctKeys(fields)
    ensures StringAt(MapFields(CANON, SortFields(fields)), key) == StringAt(fields, key)
    ensures IntAt(fields, key).Some? ==> IntAt(MapFields(CANON, SortFields(fields)), key) == IntAt(fields, key)
  {
    GetCanon(fields, key);
  }

  lemma {:induction false} KeyCanon(kind: KeyKind, v: Json)
    requires WellKeyed(v) && KeyOf(kind, v).Some?
    ensures KeyOf(kind, Canon(v)) == KeyOf(kind, v)
  {
    if v.Obj? {
      ObjCanon(v.fields);
      StringCanon(v.fields, "id");
      StringCanon(v.fields, "status");
      StringCanon(v.fields, "value");
      StringCanon(v.fields, "reason");
      StringCanon(v.fields, "raw");
    }
  }

  lemma {:induction false} KeyStable(kind: KeyKind, item: Shape, v: Json)
    requires WellKeyed(v) && KeyOf(kind, v).Some? && SchemaOk(Collection(kind, item))
    ensures KeyOf(kind, Image(item, v)) == KeyOf(kind, v)
  {
    NormalizeKeepsKeys(item, v);
    if item.Record? {
      GetNormal(item.special, v.fields, "id");
      assert Normalize(item, v) == Obj(NormalFields(item.special, v.fields));
    }
    KeyCanon(kind, Normalize(item, v));
  }

  // ----- Collections -----

  ghost predicate Twins(kind: KeyKind, item: Shape, x: Json, y: Json) {
    KeyOr(kind, x) == KeyOr(kind, y) && Image(item, x) == Image(item, y)
  }

  ghost predicate HasTwin(kind: KeyKind, item: Shape, x: Json, b: seq<Json>) {
    exists j :: 0 <= j < |b| && Twins(kind, item, x, b[j])
  }

  ghost predicate AllTwinned(kind: KeyKind, item: Shape, a: seq<Json>, b: seq<Json>) {
    forall i | 0 <= i < |a| :: HasTwin(kind, item, a[i], b)
  }

  lemma {:induction false} TwinnedEntries(kind: KeyKind, item: Shape, a: seq<Json>, b: seq<Json>)
    ensures AllTwinned(kind, item, a, b) <==>
            forall e | e in ImageEntries(kind, item, a) :: e in ImageEntries(kind, item, b)
  {
    var x, y := ImageEntries(kind, item, a), ImageEntries(kind, item, b);
    if AllTwinned(kind, item, a, b) {
      forall e | e in x ensures e in y {
        var i :| 0 <= i < |x| && x[i] == e;
        assert HasTwin(kind, item, a[i], b);
        var j :| 0 <= j < |b| && Twins(kind, item, a[i], b[j]);
        assert y[j] == e;
      }
    }
    if forall e | e in x :: e in y {
      forall i | 0 <= i < |a| ensures HasTwin(kind, item, a[i], b) {
        assert x[i] in y;
        var j :| 0 <= j < |y| && y[j] == x[i];
        assert Twins(kind, item, a[i], b[j]);
      }
    }
  }

  /** The key of an entry can be read off its item. */
  ghost predicate SelfKeyed(kind: KeyKind, es: seq<K.Entry<Json>>) {
    forall e | e in es :: KeyOf(kind, e.value) == Some(e.key)
  }

  lemma {:induction false} ItemsDecide(kind: KeyKind, x: seq<K.Entry<Json>>, y: seq<K.Entry<Json>>)
    requires SelfKeyed(kind, x) && SelfKeyed(kind, y)
    ensures Values(K.Sort(x)) == Values(K.Sort(y)) <==> K.Sort(x) == K.Sort(y)
  {
    var s, t := K.Sort(x), K.Sort(y);
    K.SortEntries(x);
    K.SortEntries(y);
    if Values(s) == Values(t) {
      forall i | 0 <= i < |s| ensures s[i] == t[i] {
        assert s[i] in x && t[i] in y;
        assert Values(s)[i] == Values(t)[i];
      }
    }
  }

  ghost predicate Keyed(kind: KeyKind, items: seq<Json>) {
    forall i | 0 <= i < |items| :: WellKeyed(items[i]) && KeyOf(kind, items[i]).Some?
  }

  lemma {:induction false} EntriesSelfKeyed(kind: KeyKind, item: Shape, items: seq<Json>)
    requires SchemaOk(Collection(kind, item)) && Keyed(kind, items) && KeysDistinct(kind, items)
    ensures SelfKeyed(kind, ImageEntries(kind, item, items)) && K.Distinct(ImageEntries(kind, item, items))
  {
    var es := ImageEntries(kind, item, items);
    forall e | e in es ensures KeyOf(kind, e.value) == Some(e.key) {
      var i :| 0 <= i < |es| && es[i] == e;
      KeyStable(kind, item, items[i]);
    }
  }

  /** Collections have one image exactly when their items pair off, in any order. */
  lemma {:induction false} CollectionImageEqual(kind: KeyKind, item: Shape, a: seq<Json>, b: seq<Json>)
    requires SchemaOk(Collection(kind, item))
    requires Keyed(kind, a) && KeysDistinct(kind, a) && Keyed(kind, b) && KeysDistinct(kind, b)
    ensures Image(Collection(kind, item), Arr(a)) == Image(Collection(kind, item), Arr(b)) <==>
            AllTwinned(kind, item, a, b) && AllTwinned(kind, item, b, a)
  {
    var x, y := ImageEntries(kind, item, a), ImageEntries(kind, item, b);
    ImageCollection(kind, item, a);
    ImageCollection(kind, item, b);
    EntriesSelfKeyed(kind, item, a);
    EntriesSelfKeyed(kind, item, b);
    ItemsDecide(kind, x, y);
    K.SortCanonical(x, y);
    TwinnedEntries(kind, item, a, b);
    TwinnedEntries(kind, item, b, a);
  }

  ghost predicate ItemsAgree(kind: KeyKind, item: Shape, a: seq<Json>, b: seq<Json>, i: int, j: int) {
    0 <= i < |a| && 0 <= j < |b| ==> (Mates(kind, item, a[i], b[j]) <==> Twins(kind, item, a[i], b[j]))
  }

  ghost predicate AllItemsAgree(kind: KeyKind, item: Shape, a: seq<Json>, b: seq<Json>) {
    forall i, j {:trigger ItemsAgree(kind, item, a, b, i, j)} :: ItemsAgree(kind, item, a, b, i, j)
  }

  lemma {:induction false} MateThere(kind: KeyKind, item: Shape, a: seq<Json>, b: seq<Json>, i: nat)
    requires AllItemsAgree(kind, item, a, b) && i < |a|
    ensures HasMate(kind, item, a[i], b) <==> HasTwin(kind, item, a[i], b)
  {
    if HasMate(kind, item, a[i], b) {
      var j :| 0 <= j < |b| && Mates(kind, item, a[i], b[j]);
      assert ItemsAgree(kind, item, a, b, i, j);
    }
    if HasTwin(kind, item, a[i], b) {
      var j :| 0 <= j < |b| && Twins(kind, item, a[i], b[j]);
      assert ItemsAgree(kind, item, a, b, i, j);
    }
  }

  lemma {:induction false} MateBack(kind: KeyKind, item: Shape, a: seq<Json>, b: seq<Json>, j: nat)
    requires AllItemsAgree(kind, item, a, b) && j < |b|
    ensures IsMateOf(kind, item, a, b[j]) <==> HasTwin(kind, item, b[j], a)
  {
    if IsMateOf(kind, item, a, b[j]) {
      var i :| 0 <= i < |a| && Mates(kind, item, a[i], b[j]);
      assert ItemsAgree(kind, item, a, b, i, j);
      assert Twins(kind, item, b[j], a[i]);
    }
    if HasTwin(kind, item, b[j], a) {
      var i :| 0 <= i < |a| && Twins(kind, item, b[j], a[i]);
      assert ItemsAgree(kind, item, a, b, i, j);
      assert Mates(kind, item, a[i], b[j]);
    }
  }

  lemma {:induction false} SameCollection(kind: KeyKind, item: Shape, v: Json, w: Json)
    requires v.Arr? && w.Arr? && AllItemsAgree(kind, item, v.items, w.items)
    ensures SameUnder(Collection(kind, item), v, w) <==>
            AllTwinned(kind, item, v.items, w.items) && AllTwinned(kind, item, w.items, v.items)
  {
    forall i: nat | i < |v.items|
      ensures HasMate(kind, item, v.items[i], w.items) <==> HasTwin(kind, item, v.items[i], w.items)
    {
      MateThere(kind, item, v.items, w.items, i);
    }
    forall j: nat | j < |w.items|
      ensures IsMateOf(kind, item, v.items, w.items[j]) <==> HasTwin(kind, item, w.items[j], v.items)
    {
      MateBack(kind, item, v.items, w.items, j);
    }
  }

  // ----- Records -----

  ghost predicate FieldsAgree(special: seq<Special>, a: seq<Field>, b: seq<Field>, i: int, j: int) {
    0 <= i < |a| && 0 <= j < |b| ==>
      (Alike(special, a[i], b[j]) <==> Partner(NormalFields(special, a)[i], NormalFields(special, b)[j]))
  }

  ghost predicate AllFieldsAgree(special: seq<Special>, a: seq<Field>, b: seq<Field>) {
    forall i, j {:trigger FieldsAgree(special, a, b, i, j)} :: FieldsAgree(special, a, b, i, j)
  }

  lemma {:induction false} LikeThere(special: seq<Special>, a: seq<Field>, b: seq<Field>, i: nat)
    requires AllFieldsAgree(special, a, b) && i < |a|
    ensures HasLike(special, a[i], b) <==> HasPartner(NormalFields(special, a)[i], NormalFields(special, b))
  {
    var p, q := NormalFields(special, a), NormalFields(special, b);
    if HasLike(special, a[i], b) {
      var j :| 0 <= j < |b| && Alike(special, a[i], b[j]);
      assert FieldsAgree(special, a, b, i, j);
    }
    if HasPartner(p[i], q) {
      var j :| 0 <= j < |q| && Partner(p[i], q[j]);
      assert FieldsAgree(special, a, b, i, j);
    }
  }

  lemma {:induction false} LikeBack(special: seq<Special>, a: seq<Field>, b: seq<Field>, j: nat)
    requires AllFieldsAgree(special, a, b) && j < |b|
    ensures IsLikeOf(special, a, b[j]) <==> HasPartner(NormalFields(special, b)[j], NormalFields(special, a))
  {
    var p, q := NormalFields(special, a), NormalFields(special, b);
    if IsLikeOf(special, a, b[j]) {
      var i :| 0 <= i < |a| && Alike(special, a[i], b[j]);
      assert FieldsAgree(special, a, b, i, j);
      assert Partner(q[j], p[i]);
    }
    if HasPartner(q[j], p) {
      var i :| 0 <= i < |p| && Partner(q[j], p[i]);
      assert FieldsAgree(special, a, b, i, j);
      assert Alike(special, a[i], b[j]);
    }
  }

  lemma {:induction false} SameRecord(special: seq<Special>, v: Json, w: Json)
    requires v.Obj? && w.Obj? && AllFieldsAgree(special, v.fields, w.fields)
    ensures
      var p, q := NormalFields(special, v.fields), NormalFields(special, w.fields);
      SameUnder(Record(special), v, w) <==> Matched(p, q) && Matched(q, p)
  {
    var p, q := NormalFields(special, v.fields), NormalFields(special, w.fields);
    forall i: nat | i < |v.fields| ensures HasLike(special, v.fields[i], w.fields) <==> HasPartner(p[i], q) {
      LikeThere(special, v.fields, w.fields, i);
    }
    forall j: nat | j < |w.fields| ensures IsLikeOf(special, v.fields, w.fields[j]) <==> HasPartner(q[j], p) {
      LikeBack(special, v.fields, w.fields, j);
    }
    if Matched(p, q) && Matched(q, p) {
      forall i: nat | i < |v.fields| ensures HasLike(special, v.fields[i], w.fields) {
        assert HasPartner(p[i], q);
      }
      forall j: nat | j < |w.fields| ensures IsLikeOf(special, v.fields, w.fields[j]) {
        assert HasPartner(q[j], p);
      }
    }
  }

  /** One image exactly for values that agree up to key order, collection order and numeric spelling. */
  lemma {:induction false} ImageDecides(shape: Shape, v: Json, w: Json)
    requires SchemaOk(shape) && WellKeyed(v) && WellKeyed(w) && Fits(shape, v) && Fits(shape, w)
    ensures SameUnder(shape, v, w) <==> Image(shape, v) == Image(shape, w)
    decreases v
  {
    match shape
    case Plain => SameIsCanon(v, w);
    case Collection(kind, item) =>
      forall i, j ensures ItemsAgree(kind, item, v.items, w.items, i, j) {
        if 0 <= i < |v.items| && 0 <= j < |w.items| {
          ImageDecides(item, v.items[i], w.items[j]);
        }
      }
      SameCollection(kind, item, v, w);
      CollectionImageEqual(kind, item, v.items, w.items);
    case Record(special) =>
      forall i, j ensures FieldsAgree(special, v.fields, w.fields, i, j) {
        if 0 <= i < |v.fields| && 0 <= j < |w.fields| && v.fields[i].key == w.fields[j].key {
          SchemaOkAt(special, v.fields[i].key);
          ImageDecides(ShapeOf(special, v.fields[i].key), v.fields[i].value, w.fields[j].value);
        }
      }
      SameRecord(special, v, w);
      ImageRecord(special, v.fields);
      ImageRecord(special, w.fields);
      ObjCanonEqual(NormalFields(special, v.fields), NormalFields(special, w.fields));
  }

  // ----- Images are fixed points -----

  lemma {:induction false} ImageWellKeyed(shape: Shape, v: Json)
    requires WellKeyed(v)
    ensures WellKeyed(Image(shape, v))
  {
    NormalizeKeepsKeys(shape, v);
    TextCanon(Normalize(shape, v));
  }

  ghost predicate Settled(shape: Shape, c: Json) { Fits(shape, c) && WellKeyed(c) && Image(shape, c) == c && Canon(c) == c }

  lemma {:induction false} CollectionSettles(kind: KeyKind, item: Shape, items: seq<Json>)
    requires SchemaOk(Collection(kind, item)) && Keyed(kind, items) && KeysDistinct(kind, items)
    requires forall i | 0 <= i < |items| :: Settled(item, Image(item, items[i]))
    ensures
      var c := Image(Collection(kind, item), Arr(items));
      Fits(Collection(kind, item), c) && Image(Collection(kind, item), c) == c
  {
    var es := ImageEntries(kind, item, items);
    var sorted := K.Sort(es);
    var values := Values(sorted);
    ImageCollection(kind, item, items);
    EntriesSelfKeyed(kind, item, items);
    K.SortEntries(es);
    K.SortSorts(es);
    K.SortedDistinct(sorted);
    forall i | 0 <= i < |values|
      ensures KeyOf(kind, values[i]) == Some(sorted[i].key) && Settled(item, values[i])
    {
      assert sorted[i] in es;
      var j :| 0 <= j < |es| && es[j] == sorted[i];
    }
    assert ImageEntries(kind, item, values) == sorted;
    K.SortAgain(sorted);
    ImageCollection(kind, item, values);
  }

  lemma {:induction false} RecordSettles(special: seq<Special>, fields: seq<Field>)
    requires DistinctKeys(fields) && WellKeyed(Obj(fields))
    requires forall i | 0 <= i < |fields| ::
      Settled(ShapeOf(special, fields[i].key), Image(ShapeOf(special, fields[i].key), fields[i].value))
    ensures
      var c := Image(Record(special), Obj(fields));
      Fits(Record(special), c) && Image(Record(special), c) == c
  {
    var normal := NormalFields(special, fields);
    var sorted := SortFields(normal);
    var canons := MapFields(CANON, sorted);
    ImageRecord(special, fields);
    ObjCanon(normal);
    SortFieldsMembers(normal);
    SortedStays(normal);
    forall i | 0 <= i < |canons| ensures Settled(ShapeOf(special, canons[i].key), canons[i].value) {
      assert sorted[i] in normal;
      var j :| 0 <= j < |normal| && normal[j] == sorted[i];
      assert canons[i] == Field(fields[j].key, Image(ShapeOf(special, fields[j].key), fields[j].value));
    }
    assert Canon(Obj(canons)) == Obj(canons) by {
      ObjCanon(canons);
      assert MapFields(CANON, canons) == canons;
    }
    SettledFields(special, canons);
    ImageRecord(special, canons);
  }

  lemma {:induction false} SettledFields(special: seq<Special>, canons: seq<Field>)
    requires DistinctKeys(canons)
    requires forall i | 0 <= i < |canons| :: Settled(ShapeOf(special, canons[i].key), canons[i].value)
    ensures Canon(Obj(NormalFields(special, canons))) == Canon(Obj(canons))
  {
    var again := NormalFields(special, canons);
    forall i | 0 <= i < |canons| ensures Partner(again[i], canons[i]) && Partner(canons[i], again[i]) {
      assert Canon(again[i].value) == Image(ShapeOf(special, canons[i].key), canons[i].value);
    }
    forall i | 0 <= i < |again| ensures HasPartner(again[i], canons) {
      assert Partner(again[i], canons[i]);
    }
    forall i | 0 <= i < |canons| ensures HasPartner(canons[i], again) {
      assert Partner(canons[i], again[i]);
    }
    ObjCanonEqual(again, canons);
  }

  /** The image is valid, canonical and its own image. */
  lemma {:induction false} ImageSettles(shape: Shape, v: Json)
    requires SchemaOk(shape) && WellKeyed(v) && Fits(shape, v)
    ensures Settled(shape, Image(shape, v))
    decreases v
  {
    ImageWellKeyed(shape, v);
    NormalizeKeepsKeys(shape, v);
    CanonAgain(Normalize(shape, v));
    match shape
    case Plain => CanonAgain(v);
    case Collection(kind, item) =>
      forall i | 0 <= i < |v.items| ensures Settled(item, Image(item, v.items[i])) {
        ImageSettles(item, v.items[i]);
      }
      CollectionSettles(kind, item, v.items);
    case Record(special) =>
      forall i | 0 <= i < |v.fields|
        ensures Settled(ShapeOf(special, v.fields[i].key), Image(ShapeOf(special, v.fields[i].key), v.fields[i].value))
      {
        SchemaOkAt(special, v.fields[i].key);
        ImageSettles(ShapeOf(special, v.fields[i].key), v.fields[i].value);
      }
      RecordSettles(special, v.fields);
  }
}
