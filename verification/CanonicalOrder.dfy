/** The order of canonical text: keys, ids, radios and channels ascend, said of their characters. */
module CanonicalOrder {
  import K = KeyedSort
  import S = JsonString
  import opened JsonText
  import opened InterchangeSchema
  import opened InterchangeRules
  import opened InterchangeDocument

  // ----- Before, by the first difference -----

  ghost predicate DiffersUp(a: K.Key, b: K.Key, p: nat) {
    && p <= |a| && p < |b| && a[..p] == b[..p]
    && (p == |a| || (p < |a| && a[p] < b[p]))
  }

  lemma {:induction false} LessMeans(a: K.Key, b: K.Key)
    ensures K.Less(a, b) <==> exists p: nat :: DiffersUp(a, b, p)
  {
    if K.Less(a, b) {
      var p := FirstDifference(a, b);
    }
    if p: nat :| DiffersUp(a, b, p) {
      DifferenceLess(a, b, p);
    }
  }

  lemma {:induction false} FirstDifference(a: K.Key, b: K.Key) returns (p: nat)
    requires K.Less(a, b)
    ensures DiffersUp(a, b, p)
  {
    if a == [] || a[0] != b[0] {
      p := 0;
    } else {
      var q := FirstDifference(a[1..], b[1..]);
      p := q + 1;
      assert a[..p] == [a[0]] + a[1..][..q] && b[..p] == [b[0]] + b[1..][..q];
    }
  }

  lemma {:induction false} DifferenceLess(a: K.Key, b: K.Key, p: nat)
    requires DiffersUp(a, b, p)
    ensures K.Less(a, b)
  {
    if p > 0 {
      assert a[0] == a[..p][0] && b[0] == b[..p][0];
      assert a[1..][..p - 1] == a[..p][1..] && b[1..][..p - 1] == b[..p][1..];
      DifferenceLess(a[1..], b[1..], p - 1);
    }
  }

  /** `a` is a proper start of `b`, or has the smaller character where they first differ. */
  ghost predicate Precedes(a: string, b: string) { exists p: nat :: PrecedesAt(a, b, p) }

  ghost predicate PrecedesAt(a: string, b: string, p: nat) {
    && p <= |a| && p < |b| && a[..p] == b[..p]
    && (p == |a| || (p < |a| && a[p] < b[p]))
  }

  lemma {:induction false} CodesMean(a: string, b: string)
    ensures K.Less(Codes(a), Codes(b)) <==> Precedes(a, b)
  {
    LessMeans(Codes(a), Codes(b));
    forall p: nat ensures DiffersUp(Codes(a), Codes(b), p) <==> PrecedesAt(a, b, p) {
      if p <= |a| && p < |b| {
        SameStart(a, b, p);
      }
    }
    if Precedes(a, b) {
      var p: nat :| PrecedesAt(a, b, p);
      assert DiffersUp(Codes(a), Codes(b), p);
    }
    if p: nat :| DiffersUp(Codes(a), Codes(b), p) {
      assert PrecedesAt(a, b, p);
    }
  }

  lemma {:induction false} SameStart(a: string, b: string, p: nat)
    requires p <= |a| && p <= |b|
    ensures Codes(a)[..p] == Codes(b)[..p] <==> a[..p] == b[..p]
  {
    if Codes(a)[..p] == Codes(b)[..p] {
      forall i | 0 <= i < p ensures a[i] == b[i] {
        assert Codes(a)[..p][i] == Codes(b)[..p][i];
      }
    }
    if a[..p] == b[..p] {
      forall i | 0 <= i < p ensures Codes(a)[i] == Codes(b)[i] {
        assert a[..p][i] == b[..p][i];
      }
    }
  }

  // ----- Objects -----

  ghost predicate KeysAscend(fields: seq<Field>) { forall i, j | 0 <= i < j < |fields| :: Precedes(fields[i].key, fields[j].key) }

  lemma {:induction false} EntriesDistinct(fields: seq<Field>)
    requires DistinctKeys(fields)
    ensures K.Distinct(Entries(fields))
  {
    var es := Entries(fields);
    forall i, j | 0 <= i < j < |es| ensures es[i].key != es[j].key {
      if es[i].key == es[j].key {
        CodesInjective(fields[i].key, fields[j].key);
      }
    }
  }

  lemma {:induction false} SortFieldsAscend(fields: seq<Field>)
    requires DistinctKeys(fields)
    ensures KeysAscend(SortFields(fields))
  {
    var es := Entries(fields);
    var sorted := K.Sort(es);
    EntriesDistinct(fields);
    K.SortSorts(es);
    K.SortEntries(es);
    forall i, j | 0 <= i < j < |sorted| ensures Precedes(sorted[i].value.key, sorted[j].value.key) {
      assert sorted[i] in es && sorted[j] in es;
      CodesMean(sorted[i].value.key, sorted[j].value.key);
    }
  }

  /** The text of one field: its quoted key, a colon and the text of its value. */
  ghost predicate PieceOf(piece: string, f: Field) { piece == S.Quote(f.key) + ":" + Text(f.value) }

  /** An object prints its fields, each once, with ascending keys. */
  ghost predicate PrintsAscending(fields: seq<Field>, sorted: seq<Field>, pieces: seq<string>) {
    && |sorted| == |fields| == |pieces| && (forall f :: f in sorted <==> f in fields)
    && KeysAscend(sorted) && (forall i | 0 <= i < |sorted| :: PieceOf(pieces[i], sorted[i]))
    && Text(Obj(fields)) == "{" + Join(pieces) + "}"
  }

  lemma {:induction false} ObjectTextAscends(fields: seq<Field>)
    requires DistinctKeys(fields)
    ensures exists sorted, pieces :: PrintsAscending(fields, sorted, pieces)
  {
    var sorted := SortFields(fields);
    SortFieldsMembers(fields);
    SortFieldsAscend(fields);
    ObjText(fields);
    assert PrintsAscending(fields, sorted, MapFields(TEXT, sorted));
  }

  /** Every object in the value has ascending keys. */
  ghost predicate Ascending(v: Json) {
    match v
    case Arr(items) => forall i | 0 <= i < |items| :: Ascending(items[i])
    case Obj(fields) => KeysAscend(fields) && forall i | 0 <= i < |fields| :: Ascending(fields[i].value)
    case _ => true
  }

  lemma {:induction false} CanonAscends(v: Json)
    requires WellKeyed(v)
    ensures Ascending(Canon(v))
    decreases v
  {
    match v
    case Arr(items) =>
      forall i | 0 <= i < |items| ensures Ascending(Canons(items)[i]) {
        CanonAscends(items[i]);
      }
      assert Canon(v) == Arr(Canons(items));
    case Obj(fields) =>
      forall i | 0 <= i < |fields| ensures Ascending(Canon(fields[i].value)) {
        CanonAscends(fields[i].value);
      }
      FieldsAscend(fields);
    case _ =>
  }

  lemma {:induction false} FieldsAscend(fields: seq<Field>)
    requires DistinctKeys(fields) && forall i | 0 <= i < |fields| :: Ascending(Canon(fields[i].value))
    ensures Ascending(Canon(Obj(fields)))
  {
    var sorted := SortFields(fields);
    var canons := MapFields(CANON, sorted);
    ObjCanon(fields);
    SortFieldsMembers(fields);
    SortFieldsAscend(fields);
    forall i | 0 <= i < |canons| ensures Ascending(canons[i].value) {
      assert sorted[i] in fields;
      var j :| 0 <= j < |fields| && fields[j] == sorted[i];
    }
  }

  // ----- Collections -----

  ghost predicate KeyLess(kind: KeyKind, x: Json, y: Json) { K.Less(KeyOr(kind, x), KeyOr(kind, y)) }

  lemma {:induction false} ImageItemsAscend(kind: KeyKind, item: Shape, items: seq<Json>)
    requires SchemaOk(Collection(kind, item)) && Keyed(kind, items) && KeysDistinct(kind, items)
    ensures
      var images := ImageItems(kind, item, items);
      forall i, j | 0 <= i < j < |images| :: KeyLess(kind, images[i], images[j])
  {
    var es := ImageEntries(kind, item, items);
    var sorted := K.Sort(es);
    EntriesSelfKeyed(kind, item, items);
    K.SortSorts(es);
    K.SortEntries(es);
    forall i, j | 0 <= i < j < |sorted| ensures KeyLess(kind, sorted[i].value, sorted[j].value) {
      assert sorted[i] in es && sorted[j] in es;
    }
  }

  ghost predicate IdsAscend(items: seq<Json>) { forall i, j | 0 <= i < j < |items| :: Precedes(IdOf(items[i]), IdOf(items[j])) }

  ghost predicate TextsAscend(items: seq<Json>) {
    forall i, j | 0 <= i < j < |items| :: items[i].Str? && items[j].Str? && Precedes(items[i].text, items[j].text)
  }

  /** Known channels by number, before unknown ones by reason and then raw text. */
  ghost predicate ChannelBefore(a: ChannelName, b: ChannelName) {
    match (a, b)
    case (Known(m), Known(n)) => m < n
    case (Known(_), Unknown(_, _)) => true
    case (Unknown(_, _), Known(_)) => false
    case (Unknown(reason, raw), Unknown(reason', raw')) => Precedes(reason, reason') || (reason == reason' && Precedes(raw, raw'))
  }

  ghost predicate ChannelsAscend(items: seq<Json>) {
    forall i, j | 0 <= i < j < |items| ::
      ChannelOf(items[i]).Some? && ChannelOf(items[j]).Some? && ChannelBefore(ChannelOf(items[i]).value, ChannelOf(items[j]).value)
  }

  lemma {:induction false} RaisedStart(a: string, b: string, x: K.Key, y: K.Key, p: nat)
    requires PrecedesAt(a, b, p)
    ensures DiffersUp(Raised(a) + [0] + x, Raised(b) + [0] + y, p)
  {
    var s, t := Raised(a) + [0] + x, Raised(b) + [0] + y;
    forall i | 0 <= i < p ensures s[i] == t[i] {
      assert a[..p][i] == b[..p][i];
    }
    assert s[..p] == t[..p];
  }

  lemma {:induction false} RaisedRest(a: string, b: string, p: nat)
    requires PrecedesAt(a, b, p)
    ensures DiffersUp(Raised(a), Raised(b), p)
  {
    forall i | 0 <= i < p ensures Raised(a)[i] == Raised(b)[i] {
      assert a[..p][i] == b[..p][i];
    }
    assert Raised(a)[..p] == Raised(b)[..p];
  }

  lemma {:induction false} LessBehind(front: K.Key, a: K.Key, b: K.Key)
    requires K.Less(a, b)
    ensures K.Less(front + a, front + b)
  {
    if front == [] {
      assert front + a == a && front + b == b;
    } else {
      LessBehind(front[1..], a, b);
      assert (front + a)[1..] == front[1..] + a && (front + b)[1..] == front[1..] + b;
    }
  }

  lemma {:induction false} UnknownBefore(a: ChannelName, b: ChannelName)
    requires a.Unknown? && b.Unknown? && ChannelBefore(a, b)
    ensures K.Less(NameKey(a), NameKey(b))
  {
    var s, t := Raised(a.reason) + [0] + Raised(a.raw), Raised(b.reason) + [0] + Raised(b.raw);
    if Precedes(a.reason, b.reason) {
      var p: nat :| PrecedesAt(a.reason, b.reason, p);
      RaisedStart(a.reason, b.reason, Raised(a.raw), Raised(b.raw), p);
      DifferenceLess(s, t, p);
    } else {
      var p: nat :| PrecedesAt(a.raw, b.raw, p);
      RaisedRest(a.raw, b.raw, p);
      DifferenceLess(Raised(a.raw), Raised(b.raw), p);
      LessBehind(Raised(a.reason) + [0], Raised(a.raw), Raised(b.raw));
    }
    LessBehind([1], s, t);
    assert [1] + s == NameKey(a) && [1] + t == NameKey(b);
  }

  lemma {:induction false} BeforeIsLess(a: ChannelName, b: ChannelName)
    requires ChannelBefore(a, b)
    ensures K.Less(NameKey(a), NameKey(b))
  {
    if a.Known? && b.Known? {
      assert DiffersUp(NameKey(a), NameKey(b), 1) by {
        assert NameKey(a)[..1] == [0] == NameKey(b)[..1];
      }
      DifferenceLess(NameKey(a), NameKey(b), 1);
    } else if a.Known? {
      assert NameKey(a)[0] == 0 && NameKey(b)[0] == 1;
    } else {
      UnknownBefore(a, b);
    }
  }

  lemma {:induction false} PrecedesTotal(a: string, b: string)
    ensures a == b || Precedes(a, b) || Precedes(b, a)
  {
    K.LessTotal(Codes(a), Codes(b));
    CodesMean(a, b);
    CodesMean(b, a);
    if Codes(a) == Codes(b) {
      CodesInjective(a, b);
    }
  }

  lemma {:induction false} ChannelTotal(a: ChannelName, b: ChannelName)
    ensures a == b || ChannelBefore(a, b) || ChannelBefore(b, a)
  {
    if a.Unknown? && b.Unknown? {
      PrecedesTotal(a.reason, b.reason);
      PrecedesTotal(a.raw, b.raw);
    }
  }

  /** The sort key of channels orders them by what they are. */
  lemma {:induction false} NameKeyMeans(a: ChannelName, b: ChannelName)
    ensures K.Less(NameKey(a), NameKey(b)) <==> ChannelBefore(a, b)
  {
    K.LessTotal(NameKey(a), NameKey(b));
    ChannelTotal(a, b);
    if ChannelBefore(a, b) {
      BeforeIsLess(a, b);
    } else if ChannelBefore(b, a) {
      BeforeIsLess(b, a);
    }
  }

  // ----- The encoded document -----

  ghost predicate RadiosAscend(ap: Json) { HasItems(ap, "radio_ids") && TextsAscend(Items(ap, "radio_ids")) }

  ghost predicate AllowedAscend(constraint: Json) {
    HasItems(constraint, "allowed_channels") && ChannelsAscend(Items(constraint, "allowed_channels"))
  }

  ghost predicate SourcesAscend(c: Json) {
    && c.Obj? && Get(c.fields, "provenance").Some?
    && HasItems(Get(c.fields, "provenance").value, "sources") && IdsAscend(Items(Get(c.fields, "provenance").value, "sources"))
  }

  /** Every key, every identified collection, every radio list, channel list and the sources ascend. */
  ghost predicate DocumentAscends(c: Json) {
    && Ascending(c)
    && (forall g | 0 <= g < COUNT :: HasItems(c, NAMES[g]) && IdsAscend(Items(c, NAMES[g])))
    && (forall ap | ap in Items(c, NAMES[ACCESS_POINTS]) :: RadiosAscend(ap))
    && (forall x | x in Items(c, NAMES[CONSTRAINTS]) :: AllowedAscend(x))
    && SourcesAscend(c)
  }

  lemma {:induction false} IdLess(x: Json, y: Json)
    requires KeyOf(ById, x).Some? && KeyOf(ById, y).Some? && KeyLess(ById, x, y)
    ensures Precedes(IdOf(x), IdOf(y))
  {
    CodesMean(IdOf(x), IdOf(y));
  }

  lemma {:induction false} KeyedItems(kind: KeyKind, items: seq<Json>)
    requires AllWellKeyed(items) && forall i | 0 <= i < |items| :: KeyOf(kind, items[i]).Some?
    ensures Keyed(kind, items)
  {
  }

  lemma {:induction false} CollectionAscends(d: Json, g: nat)
    requires WellKeyed(d) && UniquenessRules(d) && g < COUNT
    ensures
      var c := Image(DOCUMENT, d);
      HasItems(c, NAMES[g]) && IdsAscend(Items(c, NAMES[g]))
  {
    var items, images := Items(d, NAMES[g]), Items(Image(DOCUMENT, d), NAMES[g]);
    DocumentList(d, g);
    PartsOk(g);
    CollectionFits(d, g);
    ItemsWellKeyed(d, NAMES[g]);
    KeyedItems(ById, items);
    ImageItemsAscend(ById, ItemShape(g), items);
    forall i, j | 0 <= i < j < |images| ensures Precedes(IdOf(images[i]), IdOf(images[j])) {
      IdLess(images[i], images[j]);
    }
  }

  lemma {:induction false} ListAscends(special: seq<Special>, v: Json, key: string, kind: KeyKind)
    requires WellKeyed(v) && HasItems(v, key) && ShapeOf(special, key) == Collection(kind, Plain)
    requires Fits(Record(special), v)
    ensures
      var c := Image(Record(special), v);
      && HasItems(c, key) && |Items(c, key)| == |Items(v, key)|
      && forall i, j | 0 <= i < j < |Items(c, key)| :: KeyLess(kind, Items(c, key)[i], Items(c, key)[j])
  {
    var items := Items(v, key);
    ImageOfList(special, v, key, kind, Plain);
    ListFits(special, v, key, Collection(kind, Plain));
    ItemsWellKeyed(v, key);
    KeyedItems(kind, items);
    ImageItemsAscend(kind, Plain, items);
    ImageItemsMembers(kind, Plain, items);
  }

  lemma {:induction false} RadiosOf(d: Json, i: nat)
    requires WellKeyed(d) && UniquenessRules(d) && i < |Items(Image(DOCUMENT, d), NAMES[ACCESS_POINTS])|
    ensures RadiosAscend(Items(Image(DOCUMENT, d), NAMES[ACCESS_POINTS])[i])
  {
    var y := Items(Image(DOCUMENT, d), NAMES[ACCESS_POINTS])[i];
    var a := ItemOrigin(d, ACCESS_POINTS, i);
    var x := Items(d, NAMES[ACCESS_POINTS])[a];
    AccessPointFits(Items(d, NAMES[ACCESS_POINTS]), a);
    ShapeOfAt(ACCESS_POINT.special, 0);
    ListAscends(ACCESS_POINT.special, x, "radio_ids", ByText);
    ImageRadios(x);
    var radios := Items(y, "radio_ids");
    forall j, k | 0 <= j < k < |radios| ensures Precedes(radios[j].text, radios[k].text) {
      assert KeyLess(ByText, radios[j], radios[k]);
      CodesMean(radios[j].text, radios[k].text);
    }
  }

  lemma {:induction false} ChannelsFrom(x: Json)
    requires WellKeyed(x) && HasItems(x, "allowed_channels") && ChannelsDistinct(Items(x, "allowed_channels"))
    requires Fits(CONSTRAINT, x)
    ensures AllowedAscend(Image(CONSTRAINT, x))
  {
    ShapeOfAt(CONSTRAINT.special, 0);
    ListAscends(CONSTRAINT.special, x, "allowed_channels", ByChannel);
    PartsOk(CONSTRAINTS);
    ImageSettles(CONSTRAINT, x);
    var y := Image(CONSTRAINT, x);
    ListFits(CONSTRAINT.special, y, "allowed_channels", Collection(ByChannel, Plain));
    var channels := Items(y, "allowed_channels");
    ChannelsSorted(channels);
    forall j, k | 0 <= j < k < |channels| ensures ChannelBefore(ChannelOf(channels[j]).value, ChannelOf(channels[k]).value) {
      assert KeyLess(ByChannel, channels[j], channels[k]);
      KeyOfChannel(channels[j]);
      KeyOfChannel(channels[k]);
      NameKeyMeans(ChannelOf(channels[j]).value, ChannelOf(channels[k]).value);
    }
  }

  lemma {:induction false} ChannelsOf(d: Json, i: nat)
    requires WellKeyed(d) && UniquenessRules(d) && i < |Items(Image(DOCUMENT, d), NAMES[CONSTRAINTS])|
    ensures AllowedAscend(Items(Image(DOCUMENT, d), NAMES[CONSTRAINTS])[i])
  {
    var a := ItemOrigin(d, CONSTRAINTS, i);
    ConstraintFits(Items(d, NAMES[CONSTRAINTS]), a);
    ChannelsFrom(Items(d, NAMES[CONSTRAINTS])[a]);
  }

  lemma {:induction false} SourcesOf(d: Json)
    requires WellKeyed(d) && UniquenessRules(d)
    ensures SourcesAscend(Image(DOCUMENT, d))
  {
    var p := Get(d.fields, "provenance").value;
    ProvenanceShape();
    ImageGet(SPECIALS, d.fields, "provenance");
    FieldWellKeyed(d, "provenance");
    ProvenanceFits(d);
    ShapeOfAt(PROVENANCE.special, 0);
    ListAscends(PROVENANCE.special, p, "sources", ById);
    PartsOk(0);
    ImageSettles(PROVENANCE, p);
    var q := Image(PROVENANCE, p);
    ListFits(PROVENANCE.special, q, "sources", Collection(ById, Plain));
    var sources := Items(q, "sources");
    forall i, j | 0 <= i < j < |sources| ensures Precedes(IdOf(sources[i]), IdOf(sources[j])) {
      assert KeyLess(ById, sources[i], sources[j]);
      IdLess(sources[i], sources[j]);
    }
  }

  lemma {:induction false} ImageAscends(d: Json)
    requires WellKeyed(d) && UniquenessRules(d)
    ensures DocumentAscends(Image(DOCUMENT, d))
  {
    var c := Image(DOCUMENT, d);
    NormalizeKeepsKeys(DOCUMENT, d);
    CanonAscends(Normalize(DOCUMENT, d));
    forall g | 0 <= g < COUNT ensures HasItems(c, NAMES[g]) && IdsAscend(Items(c, NAMES[g])) {
      CollectionAscends(d, g);
    }
    forall ap | ap in Items(c, NAMES[ACCESS_POINTS]) ensures RadiosAscend(ap) {
      var i :| 0 <= i < |Items(c, NAMES[ACCESS_POINTS])| && Items(c, NAMES[ACCESS_POINTS])[i] == ap;
      RadiosOf(d, i);
    }
    forall x | x in Items(c, NAMES[CONSTRAINTS]) ensures AllowedAscend(x) {
      var i :| 0 <= i < |Items(c, NAMES[CONSTRAINTS])| && Items(c, NAMES[CONSTRAINTS])[i] == x;
      ChannelsOf(d, i);
    }
    SourcesOf(d);
  }

  /** An encoded text reads as a document in which everything that is sorted ascends. */
  lemma {:induction false} EncodedAscends(rules: Rules, d: Json)
    requires WellKeyed(d) && Encode(rules, d).Some?
    ensures
      var read := ReadWhole(Encode(rules, d).value);
      read.Some? && DocumentAscends(read.value)
  {
    RulesFit(d);
    ImageText(d);
    ImageAscends(d);
  }
}
