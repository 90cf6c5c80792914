/** A bound on canonical text, and complete plan documents whose canonical text does not decode. */
module InterchangeWitness {
  import K = KeyedSort
  import N = CanonicalNumber
  import S = JsonString
  import opened JsonText
  import opened InterchangeSchema
  import opened JsonBudget
  import opened InterchangeRules
  import opened InterchangeDocument

  // ----- How long a text can be -----

  const MAX_SHORT: nat := 64

  predicate ShortHead(h: Head) {
    match h
    case NumberHead(x) => |N.Text(x)| <= 12 * MAX_SHORT
    case StringHead(s) => |s| <= MAX_SHORT
    case ObjectHead(keys, _) => forall k | k in keys :: |k| <= MAX_SHORT
    case _ => true
  }

  const SHORT: Limit := (h: Head, depth: nat) => ShortHead(h)

  lemma {:induction false} EscapeLength(c: char)
    ensures |S.Escape(c)| <= 12
  {
  }

  lemma {:induction false} QuoteLength(s: string)
    ensures |S.EscapeAll(s)| <= 12 * |s| && |S.Quote(s)| <= 12 * |s| + 2
  {
    if s != "" {
      EscapeLength(s[0]);
      QuoteLength(s[1..]);
    }
  }

  /** The parts with a separator each. */
  function Total(parts: seq<string>): nat {
    if parts == [] then 0 else Total(parts[..|parts| - 1]) + |parts[|parts| - 1]| + 1
  }

  lemma {:induction false} TotalFirst(parts: seq<string>)
    requires parts != []
    ensures Total(parts) == |parts[0]| + 1 + Total(parts[1..])
  {
    var n := |parts| - 1;
    if n > 0 {
      TotalFirst(parts[..n]);
      assert parts[..n][1..] == parts[1..][..n - 1];
    } else {
      assert parts[..0] == [] && parts[1..] == [];
    }
  }

  lemma {:induction false} JoinLength(parts: seq<string>)
    ensures |Join(parts)| <= Total(parts)
  {
    if parts != [] {
      TotalFirst(parts);
      if |parts| > 1 {
        JoinLength(parts[1..]);
      }
    }
  }

  /** What one value may take, with the key and the separator before it. */
  const PER_VALUE: nat := 1542

  lemma {:induction false} TotalBound(parts: seq<string>, values: seq<Json>)
    requires |parts| == |values| && forall i | 0 <= i < |parts| :: |parts[i]| + 1 <= PER_VALUE * Nodes(values[i])
    ensures Total(parts) <= PER_VALUE * NodesOf(values)
  {
    if parts != [] {
      TotalBound(parts[..|parts| - 1], values[..|values| - 1]);
    }
  }

  lemma {:induction false} ShortText(v: Json, depth: nat)
    requires Keeps(SHORT, v, depth)
    ensures |Text(v)| + 772 <= PER_VALUE * Nodes(v)
    decreases v
  {
    match v
    case Str(s) => QuoteLength(s);
    case Arr(items) =>
      forall i | 0 <= i < |items| ensures |JsonText.Texts(items)[i]| + 1 <= PER_VALUE * Nodes(items[i]) {
        ShortText(items[i], depth + 1);
      }
      TotalBound(JsonText.Texts(items), items);
      JoinLength(JsonText.Texts(items));
      ArrText(items);
    case Obj(fields) =>
      forall i | 0 <= i < |fields| ensures |fields[i].key| <= MAX_SHORT && |Text(fields[i].value)| + 772 <= PER_VALUE * Nodes(fields[i].value) {
        ShortText(fields[i].value, depth + 1);
        assert fields[i].key in KeySet(fields);
      }
      ShortObject(fields);
    case _ =>
  }

  const VALUE: Field -> Json := (f: Field) => f.value

  lemma {:induction false} SortedNodes(fields: seq<Field>)
    ensures NodesOf(FieldValues(SortFields(fields))) == NodesOfFields(fields)
  {
    var es := K.MapValues(VALUE, Entries(fields));
    SortedImages(VALUE, fields, es);
    assert FieldValues(SortFields(fields)) == Values(K.Sort(es));
    NodesOfSort(es);
    assert Values(es) == FieldValues(fields);
    NodesOfValues(fields);
  }

  lemma {:induction false} ShortObject(fields: seq<Field>)
    requires forall i | 0 <= i < |fields| ::
      |fields[i].key| <= MAX_SHORT && |Text(fields[i].value)| + 772 <= PER_VALUE * Nodes(fields[i].value)
    ensures |Text(Obj(fields))| + 772 <= PER_VALUE * Nodes(Obj(fields))
  {
    var sorted := SortFields(fields);
    var parts := MapFields(TEXT, sorted);
    ObjText(fields);
    SortFieldsMembers(fields);
    SortedNodes(fields);
    forall i | 0 <= i < |parts| ensures |parts[i]| + 1 <= PER_VALUE * Nodes(FieldValues(sorted)[i]) {
      assert sorted[i] in fields;
      QuoteLength(sorted[i].key);
    }
    TotalBound(parts, FieldValues(sorted));
    JoinLength(parts);
  }

  // ----- Values within every limit -----

  predicate Printable(s: string) { |s| <= MAX_SHORT && forall i | 0 <= i < |s| :: ' ' <= s[i] <= '~' }

  const FINE: Limit := (h: Head, depth: nat) => HeadOk(h, depth) && ShortHead(h)

  lemma {:induction false} PrintableOk(s: string)
    requires Printable(s)
    ensures StringOk(s)
  {
    PrintableLength(s);
  }

  lemma {:induction false} PrintableLength(s: string)
    requires forall i | 0 <= i < |s| :: ' ' <= s[i] <= '~'
    ensures Utf8Length(s) == |s|
  {
    if s != "" {
      PrintableLength(s[..|s| - 1]);
    }
  }

  lemma {:induction false} FineKeeps(v: Json, depth: nat)
    requires Keeps(FINE, v, depth)
    ensures Keeps(BUDGET, v, depth) && Keeps(SHORT, v, depth)
    decreases v
  {
    match v
    case Arr(items) =>
      forall i | 0 <= i < |items| ensures Keeps(BUDGET, items[i], depth + 1) && Keeps(SHORT, items[i], depth + 1) {
        FineKeeps(items[i], depth + 1);
      }
    case Obj(fields) =>
      forall i | 0 <= i < |fields| ensures Keeps(BUDGET, fields[i].value, depth + 1) && Keeps(SHORT, fields[i].value, depth + 1) {
        FineKeeps(fields[i].value, depth + 1);
      }
    case _ =>
  }

  lemma {:induction false} FineText(s: string, depth: nat)
    requires Printable(s) && depth <= MAX_NESTING
    ensures Keeps(FINE, Str(s), depth) && WellKeyed(Str(s))
  {
    PrintableOk(s);
  }

  lemma {:induction false} FineDigit(n: nat, depth: nat)
    requires n < 10 && depth <= MAX_NESTING
    ensures Keeps(FINE, Num(N.Int(n)), depth) && WellKeyed(Num(N.Int(n)))
  {
    assert |N.Digits(n)| == 1;
  }

  /** A field with a printable key and a value that is in order. */
  ghost predicate FineField(f: Field, depth: nat) {
    Printable(f.key) && Keeps(FINE, f.value, depth) && WellKeyed(f.value)
  }

  lemma {:induction false} FineObject(fields: seq<Field>, depth: nat)
    requires depth <= MAX_NESTING && |fields| <= MAX_OBJECT_KEYS && DistinctKeys(fields)
    requires forall f | f in fields :: FineField(f, depth + 1)
    ensures Keeps(FINE, Obj(fields), depth) && WellKeyed(Obj(fields))
  {
    forall i | 0 <= i < |fields| ensures FineField(fields[i], depth + 1) {
      assert fields[i] in fields;
    }
    forall k | k in KeySet(fields) ensures StringOk(k) && |k| <= MAX_SHORT {
      var i :| 0 <= i < |fields| && fields[i].key == k;
      PrintableOk(k);
    }
    var h := HeadOf(Obj(fields));
    assert h == ObjectHead(KeySet(fields), |fields|);
    assert HeadOk(h, depth) && ShortHead(h);
  }

  lemma {:induction false} FineArray(items: seq<Json>, depth: nat)
    requires depth <= MAX_NESTING && |items| <= MAX_ARRAY_ITEMS
    requires forall x | x in items :: Keeps(FINE, x, depth + 1) && WellKeyed(x)
    ensures Keeps(FINE, Arr(items), depth) && WellKeyed(Arr(items))
  {
    forall i | 0 <= i < |items| ensures Keeps(FINE, items[i], depth + 1) && WellKeyed(items[i]) {
      assert items[i] in items;
    }
  }

  // ----- Sizes -----

  lemma {:induction false} NodesJoin(a: seq<Field>, b: seq<Field>)
    ensures NodesOfFields(a + b) == NodesOfFields(a) + NodesOfFields(b)
  {
    if b == [] {
      assert a + b == a;
    } else {
      NodesJoin(a, b[..|b| - 1]);
      assert (a + b)[..|a + b| - 1] == a + b[..|b| - 1];
    }
  }

  ghost predicate Sound(v: Json, depth: nat) { Keeps(FINE, v, depth) && WellKeyed(v) }

  /** In order at every depth that leaves room for its height, with at most so many values. */
  ghost predicate Good(v: Json, height: nat, size: nat) {
    Nodes(v) <= size && forall depth: nat | depth + height <= MAX_NESTING :: Sound(v, depth)
  }

  ghost predicate GoodField(f: Field, height: nat, size: nat) { Printable(f.key) && Good(f.value, height, size) }

  function Text1(key: string, text: string): Field { Field(key, Str(text)) }

  function Digit1(key: string, n: nat): Field { Field(key, Num(N.Int(n))) }

  lemma {:induction false} GoodText(key: string, text: string)
    requires Printable(key) && Printable(text)
    ensures GoodField(Text1(key, text), 0, 1)
  {
    forall depth: nat | depth <= MAX_NESTING ensures Sound(Str(text), depth) {
      FineText(text, depth);
    }
  }

  lemma {:induction false} GoodDigit(n: nat)
    requires n < 10
    ensures Good(Num(N.Int(n)), 0, 1)
  {
    forall depth: nat | depth <= MAX_NESTING ensures Sound(Num(N.Int(n)), depth) {
      FineDigit(n, depth);
    }
  }

  lemma {:induction false} GoodNull()
    ensures Good(Null, 0, 1)
  {
    forall depth: nat | depth <= MAX_NESTING ensures Sound(Null, depth) {
      assert HeadOf(Null) == Leaf && HeadOk(Leaf, depth) && ShortHead(Leaf);
    }
  }

  lemma {:induction false} OneItem(x: Json, height: nat, size: nat)
    requires Good(x, height, size)
    ensures Good(Arr([x]), height + 1, size + 1)
  {
    NodesOfFirst(x, []);
    assert [x] == [x] + [];
    forall depth: nat | depth + height + 1 <= MAX_NESTING ensures Sound(Arr([x]), depth) {
      assert Sound(x, depth + 1);
      FineArray([x], depth);
    }
  }

  lemma {:induction false} NoItems()
    ensures Good(Arr([]), 0, 1)
  {
    forall depth: nat | depth <= MAX_NESTING ensures Sound(Arr([]), depth) {
      FineArray([], depth);
    }
  }

  lemma {:induction false} ThreeItems(x: Json, y: Json, z: Json)
    requires Good(x, 0, 1) && Good(y, 0, 1) && Good(z, 0, 1)
    ensures Good(Arr([x, y, z]), 1, 4)
  {
    NodesOfFirst(x, [y, z]);
    NodesOfFirst(y, [z]);
    NodesOfFirst(z, []);
    assert [x, y, z] == [x] + [y, z] && [y, z] == [y] + [z] && [z] == [z] + [];
    forall depth: nat | depth + 1 <= MAX_NESTING ensures Sound(Arr([x, y, z]), depth) {
      assert Sound(x, depth + 1) && Sound(y, depth + 1) && Sound(z, depth + 1);
      FineArray([x, y, z], depth);
    }
  }

  lemma {:induction false} OneField(f: Field, height: nat, m: nat)
    requires GoodField(f, height, m)
    ensures Good(Obj([f]), height + 1, m + 1)
  {
    var fields := [f];
    assert fields[..0] == [] && NodesOfFields(fields) == NodesOfFields(fields[..0]) + Nodes(f.value);
    forall depth: nat | depth + height + 1 <= MAX_NESTING ensures Sound(Obj(fields), depth) {
      assert Sound(f.value, depth + 1);
      assert FineField(f, depth + 1);
      FineObject(fields, depth);
    }
  }

  ghost predicate KeysApart(a: seq<Field>, b: seq<Field>) { forall f, g | f in a && g in b :: f.key != g.key }

  lemma {:induction false} JoinFields(a: seq<Field>, b: seq<Field>, height: nat, m: nat, n: nat)
    requires Good(Obj(a), height, m + 1) && Good(Obj(b), height, n + 1)
    requires |a| + |b| <= MAX_OBJECT_KEYS && KeysApart(a, b)
    ensures Good(Obj(a + b), height, m + n + 1)
  {
    NodesJoin(a, b);
    forall depth: nat | depth + height <= MAX_NESTING ensures Sound(Obj(a + b), depth) {
      assert Sound(Obj(a), depth) && Sound(Obj(b), depth);
      JoinKeeps(a, b, depth);
      JoinKeys(a, b);
    }
  }

  lemma {:induction false} JoinKeys(a: seq<Field>, b: seq<Field>)
    requires WellKeyed(Obj(a)) && WellKeyed(Obj(b)) && KeysApart(a, b)
    ensures WellKeyed(Obj(a + b))
  {
    forall i, j | 0 <= i < j < |a + b| ensures (a + b)[i].key != (a + b)[j].key {
      if i < |a| <= j {
        assert a[i] in a && b[j - |a|] in b;
      }
    }
  }

  lemma {:induction false} JoinKeeps(a: seq<Field>, b: seq<Field>, depth: nat)
    requires Keeps(FINE, Obj(a), depth) && Keeps(FINE, Obj(b), depth) && |a| + |b| <= MAX_OBJECT_KEYS
    ensures Keeps(FINE, Obj(a + b), depth)
  {
    forall k | k in KeySet(a + b) ensures k in KeySet(a) || k in KeySet(b) {
      var i :| 0 <= i < |a + b| && (a + b)[i].key == k;
    }
    var h := HeadOf(Obj(a + b));
    assert h == ObjectHead(KeySet(a + b), |a + b|);
    assert HeadOk(HeadOf(Obj(a)), depth) && ShortHead(HeadOf(Obj(a))) && HeadOk(HeadOf(Obj(b)), depth) && ShortHead(HeadOf(Obj(b)));
    assert HeadOk(h, depth) && ShortHead(h);
  }

  lemma {:induction false} TwoFields(f: Field, g: Field, height: nat, m: nat, n: nat)
    requires GoodField(f, height, m) && GoodField(g, height, n) && f.key != g.key
    ensures Good(Obj([f, g]), height + 1, m + n + 1)
  {
    OneField(f, height, m);
    OneField(g, height, n);
    JoinFields([f], [g], height + 1, m, n);
    assert [f, g] == [f] + [g];
  }

  lemma {:induction false} ThreeFields(f: Field, g: Field, h: Field, height: nat, l: nat, m: nat, n: nat)
    requires GoodField(f, height, l) && GoodField(g, height, m) && GoodField(h, height, n)
    requires f.key != g.key && f.key != h.key && g.key != h.key
    ensures Good(Obj([f, g, h]), height + 1, l + m + n + 1)
  {
    TwoFields(f, g, height, l, m);
    OneField(h, height, n);
    JoinFields([f, g], [h], height + 1, l + m, n);
    assert [f, g, h] == [f, g] + [h];
  }

  /** Keys apart by length or first letter. */
  lemma {:induction false} TagsApart(a: seq<Field>, b: seq<Field>)
    requires forall i, j | 0 <= i < |a| && 0 <= j < |b| :: Tag(a[i].key) != Tag(b[j].key)
    ensures KeysApart(a, b)
  {
    forall f, g | f in a && g in b ensures f.key != g.key {
      var i :| 0 <= i < |a| && a[i] == f;
      var j :| 0 <= j < |b| && b[j] == g;
    }
  }

  // ----- The parts of a plan -----

  const ZERO: Json := Num(N.Int(0))

  const ORIGIN: Json := Arr([ZERO, ZERO, ZERO])

  const AXES: Json := Arr([Str("x"), Str("y"), Str("z")])

  const FRAME_NAMES: seq<Field> := [Text1("id", "frame"), Field("parent_id", Null), Text1("handedness", "right")]

  function FrameLists(axes: Json, origin: Json): seq<Field> {
    [Field("axis_order", axes), Field("origin_m", origin), Field("orientation_deg", origin)]
  }

  function Frame(axes: Json, origin: Json): Json { Obj(FRAME_NAMES + FrameLists(axes, origin)) }

  const ELEVATION: Json := Obj([Text1("status", "known"), Text1("unit", "m"), Digit1("value", 0)])

  function Floor(elevation: Json): Json {
    Obj([Text1("id", "ground"), Text1("frame_id", "frame"), Field("elevation_m", elevation)])
  }

  const SEED: Json := Obj([Text1("id", "seed"), Text1("algorithm", "fixed"), Digit1("value", 1)])

  function Hash(n: nat): string { if n == 0 then "" else Hash(n - 1) + "0" }

  const SOURCE_NAMES: seq<Field> := [
    Text1("id", "source"), Text1("kind", "original_fixture"), Text1("uri", "about:blank")]

  function SourceProof(hash: string): seq<Field> { [Text1("sha256", hash), Text1("license", "CC0")] }

  function Source(hash: string): Json { Obj(SOURCE_NAMES + SourceProof(hash)) }

  const PRODUCER: seq<Field> := [
    Text1("format", "openrfplan-canonical-json"), Text1("producer", "fixture"), Text1("producer_version", "1")]

  function SeedAndSources(sources: Json): seq<Field> { [Text1("seed_id", "seed"), Field("sources", sources)] }

  function Origins(sources: Json): Json { Obj(PRODUCER + SeedAndSources(sources)) }

  const SCHEMA: Json := Obj([Text1("name", "openrfplan"), Digit1("version", 1)])

  const LENGTH_UNITS: seq<Field> := [Text1("length", "m"), Text1("frequency", "MHz"), Text1("power", "dBm")]

  const ANGLE_UNITS: seq<Field> := [Text1("angle", "deg"), Text1("weight", "unitless")]

  const UNITS: Json := Obj(LENGTH_UNITS + ANGLE_UNITS)

  datatype Parts = Parts(schema: Json, units: Json, frame: Json, floor: Json, seed: Json, sources: Json)

  const BASIS: Parts := Parts(SCHEMA, UNITS, Frame(AXES, ORIGIN), Floor(ELEVATION), SEED, Arr([Source(Hash(64))]))

  // ----- The parts are in order -----

  lemma {:induction false} OriginGood()
    ensures Good(ORIGIN, 1, 4)
  {
    GoodDigit(0);
    ThreeItems(ZERO, ZERO, ZERO);
  }

  lemma {:induction false} AxesGood()
    ensures Good(AXES, 1, 4)
  {
    GoodText("", "x");
    GoodText("", "y");
    GoodText("", "z");
    ThreeItems(Str("x"), Str("y"), Str("z"));
  }

  lemma {:induction false} FrameNamesGood()
    ensures Good(Obj(FRAME_NAMES), 1, 4)
  {
    GoodText("id", "frame");
    GoodNull();
    GoodText("handedness", "right");
    ThreeFields(Text1("id", "frame"), Field("parent_id", Null), Text1("handedness", "right"), 0, 1, 1, 1);
  }

  lemma {:induction false} FrameListsGood(axes: Json, origin: Json)
    requires Good(axes, 1, 4) && Good(origin, 1, 4)
    ensures Good(Obj(FrameLists(axes, origin)), 2, 13)
  {
    ThreeFields(Field("axis_order", axes), Field("origin_m", origin), Field("orientation_deg", origin), 1, 4, 4, 4);
  }

  lemma {:induction false} FrameApart(axes: Json, origin: Json)
    ensures KeysApart(FRAME_NAMES, FrameLists(axes, origin))
  {
    TagsApart(FRAME_NAMES, FrameLists(axes, origin));
  }

  lemma {:induction false} FrameGood()
    ensures Good(BASIS.frame, 2, 16)
  {
    FrameNamesGood();
    AxesGood();
    OriginGood();
    FrameListsGood(AXES, ORIGIN);
    FrameApart(AXES, ORIGIN);
    JoinFields(FRAME_NAMES, FrameLists(AXES, ORIGIN), 2, 3, 12);
  }

  lemma {:induction false} ElevationGood()
    ensures Good(ELEVATION, 1, 4)
  {
    GoodText("status", "known");
    GoodText("unit", "m");
    GoodDigit(0);
    ThreeFields(Text1("status", "known"), Text1("unit", "m"), Digit1("value", 0), 0, 1, 1, 1);
  }

  lemma {:induction false} FloorGood()
    ensures Good(BASIS.floor, 2, 7)
  {
    GoodText("id", "ground");
    GoodText("frame_id", "frame");
    ElevationGood();
    ThreeFields(Text1("id", "ground"), Text1("frame_id", "frame"), Field("elevation_m", ELEVATION), 1, 1, 1, 4);
  }

  lemma {:induction false} SeedGood()
    ensures Good(SEED, 1, 4)
  {
    GoodText("id", "seed");
    GoodText("algorithm", "fixed");
    GoodDigit(1);
    ThreeFields(Text1("id", "seed"), Text1("algorithm", "fixed"), Digit1("value", 1), 0, 1, 1, 1);
  }

  lemma {:induction false} HashPrintable(n: nat)
    ensures |Hash(n)| == n && forall i | 0 <= i < n :: Hash(n)[i] == '0'
  {
    if n > 0 {
      HashPrintable(n - 1);
    }
  }

  lemma {:induction false} SourceNamesGood()
    ensures Good(Obj(SOURCE_NAMES), 1, 4)
  {
    GoodText("id", "source");
    GoodText("kind", "original_fixture");
    GoodText("uri", "about:blank");
    ThreeFields(Text1("id", "source"), Text1("kind", "original_fixture"), Text1("uri", "about:blank"), 0, 1, 1, 1);
  }

  lemma {:induction false} SourceGood(hash: string)
    requires Printable(hash)
    ensures Good(Source(hash), 1, 6)
  {
    SourceNamesGood();
    GoodText("sha256", hash);
    GoodText("license", "CC0");
    TwoFields(Text1("sha256", hash), Text1("license", "CC0"), 0, 1, 1);
    TagsApart(SOURCE_NAMES, SourceProof(hash));
    JoinFields(SOURCE_NAMES, SourceProof(hash), 1, 3, 2);
  }

  lemma {:induction false} SourcesGood()
    ensures Good(BASIS.sources, 2, 7)
  {
    HashPrintable(64);
    SourceGood(Hash(64));
    OneItem(Source(Hash(64)), 1, 6);
  }

  lemma {:induction false} FormatGood()
    ensures GoodField(Text1("format", "openrfplan-canonical-json"), 0, 1)
  {
    GoodText("format", "openrfplan-canonical-json");
  }

  lemma {:induction false} ProducerGood()
    ensures Good(Obj(PRODUCER), 1, 4)
  {
    FormatGood();
    GoodText("producer", "fixture");
    GoodText("producer_version", "1");
    assert |"format"| == 6 && |"producer"| == 8 && |"producer_version"| == 16;
    ThreeFields(PRODUCER[0], PRODUCER[1], PRODUCER[2], 0, 1, 1, 1);
  }

  lemma {:induction false} OriginsGood(sources: Json)
    requires Good(sources, 2, 7)
    ensures Good(Origins(sources), 3, 12)
  {
    ProducerGood();
    GoodText("seed_id", "seed");
    assert "seed_id"[1] != "sources"[1];
    TwoFields(Text1("seed_id", "seed"), Field("sources", sources), 2, 1, 7);
    TagsApart(PRODUCER, SeedAndSources(sources));
    JoinFields(PRODUCER, SeedAndSources(sources), 3, 3, 8);
  }

  lemma {:induction false} SchemaGood()
    ensures Good(SCHEMA, 1, 3)
  {
    GoodText("name", "openrfplan");
    GoodDigit(1);
    TwoFields(Text1("name", "openrfplan"), Digit1("version", 1), 0, 1, 1);
  }

  lemma {:induction false} LengthUnitsGood()
    ensures Good(Obj(LENGTH_UNITS), 1, 4)
  {
    GoodText("length", "m");
    GoodText("frequency", "MHz");
    GoodText("power", "dBm");
    ThreeFields(Text1("length", "m"), Text1("frequency", "MHz"), Text1("power", "dBm"), 0, 1, 1, 1);
  }

  lemma {:induction false} UnitsGood()
    ensures Good(UNITS, 1, 6)
  {
    LengthUnitsGood();
    GoodText("angle", "deg");
    GoodText("weight", "unitless");
    TwoFields(Text1("angle", "deg"), Text1("weight", "unitless"), 0, 1, 1);
    TagsApart(LENGTH_UNITS, ANGLE_UNITS);
    JoinFields(LENGTH_UNITS, ANGLE_UNITS, 1, 3, 2);
  }

  ghost predicate PartsGood(p: Parts) {
    && Good(p.schema, 1, 3) && Good(p.units, 1, 6) && Good(p.frame, 2, 16) && Good(p.floor, 2, 7) && Good(p.seed, 1, 4)
    && Good(p.sources, 2, 7)
  }

  lemma {:induction false} BasisGood()
    ensures PartsGood(BASIS)
  {
    SchemaGood();
    UnitsGood();
    FrameGood();
    FloorGood();
    SeedGood();
    SourcesGood();
  }

  // ----- A complete plan -----

  function First(p: Parts): seq<Field> { [Field("schema", p.schema), Text1("plan_id", "plan"), Field("units", p.units)] }

  function Members(p: Parts, i: nat): seq<Json> {
    if i == 0 then [p.frame] else if i == 1 then [p.floor] else if i == 9 then [p.seed] else []
  }

  function CollectionAt(p: Parts, i: nat): Field
    requires i < COUNT
  {
    Field(NAMES[i], Arr(Members(p, i)))
  }

  function Collections(p: Parts, n: nat): (r: seq<Field>)
    requires n <= COUNT
    ensures |r| == n && forall i | 0 <= i < n :: r[i] == CollectionAt(p, i)
  {
    if n == 0 then [] else Collections(p, n - 1) + [CollectionAt(p, n - 1)]
  }

  function Last(p: Parts, x: Json): seq<Field> {
    [Field("provenance", Origins(p.sources)), Field("extensions", Obj([Field("witness", x)]))]
  }

  /** A plan with one frame, one floor, one seed, its sources and one extension. */
  function Plan(p: Parts, x: Json): Json { Obj(First(p) + Collections(p, COUNT) + Last(p, x)) }

  // ----- It is in order -----

  lemma {:induction false} FirstGood(p: Parts)
    requires PartsGood(p)
    ensures Good(Obj(First(p)), 2, 11)
  {
    GoodText("plan_id", "plan");
    ThreeFields(Field("schema", p.schema), Text1("plan_id", "plan"), Field("units", p.units), 1, 3, 1, 6);
  }

  function MembersSize(i: nat): nat { if i == 0 then 17 else if i == 1 then 8 else if i == 9 then 5 else 1 }

  function SizeUpTo(n: nat): nat { if n == 0 then 0 else SizeUpTo(n - 1) + MembersSize(n - 1) }

  lemma {:induction false} MembersGood(p: Parts, i: nat)
    requires PartsGood(p)
    ensures Good(Arr(Members(p, i)), 3, MembersSize(i))
  {
    if i == 0 {
      OneItem(p.frame, 2, 16);
    } else if i == 1 {
      OneItem(p.floor, 2, 7);
    } else if i == 9 {
      OneItem(p.seed, 1, 4);
    } else {
      NoItems();
    }
  }

  lemma {:induction false} NamePrintable(i: nat)
    requires i < COUNT
    ensures Printable(NAMES[i])
  {
  }

  lemma {:induction false} CollectionGood(p: Parts, i: nat)
    requires PartsGood(p) && i < COUNT
    ensures Good(Obj([CollectionAt(p, i)]), 4, MembersSize(i) + 1)
  {
    MembersGood(p, i);
    NamePrintable(i);
    OneField(CollectionAt(p, i), 3, MembersSize(i));
  }

  lemma {:induction false} NoFields()
    ensures Good(Obj([]), 0, 1)
  {
    forall depth: nat | depth <= MAX_NESTING ensures Sound(Obj([]), depth) {
      FineObject([], depth);
    }
  }

  ghost predicate EachGood(fields: seq<Field>) {
    forall i: nat | i < |fields| :: Good(Obj([fields[i]]), 4, MembersSize(i) + 1)
  }

  lemma {:induction false} FieldsGood(fields: seq<Field>, n: nat)
    requires EachGood(fields) && DistinctKeys(fields) && n <= |fields| <= MAX_OBJECT_KEYS
    ensures Good(Obj(fields[..n]), 4, SizeUpTo(n) + 1)
  {
    if n == 0 {
      NoFields();
      assert fields[..0] == [];
    } else {
      FieldsGood(fields, n - 1);
      NextApart(fields, n - 1);
      JoinFields(fields[..n - 1], [fields[n - 1]], 4, SizeUpTo(n - 1), MembersSize(n - 1));
      assert fields[..n] == fields[..n - 1] + [fields[n - 1]];
    }
  }

  lemma {:induction false} NextApart(fields: seq<Field>, n: nat)
    requires DistinctKeys(fields) && n < |fields|
    ensures KeysApart(fields[..n], [fields[n]])
  {
    forall f | f in fields[..n] ensures f.key != fields[n].key {
      var i :| 0 <= i < n && fields[..n][i] == f;
      assert fields[i].key != fields[n].key;
    }
  }

  lemma {:induction false} CollectionsApart(p: Parts)
    ensures DistinctKeys(Collections(p, COUNT))
  {
    NamesDiffer();
  }

  lemma {:induction false} CollectionsGood(p: Parts)
    requires PartsGood(p)
    ensures Good(Obj(Collections(p, COUNT)), 4, SizeUpTo(COUNT) + 1)
  {
    var cs := Collections(p, COUNT);
    forall i: nat | i < COUNT ensures Good(Obj([cs[i]]), 4, MembersSize(i) + 1) {
      CollectionGood(p, i);
    }
    CollectionsApart(p);
    FieldsGood(cs, COUNT);
    assert cs[..COUNT] == cs;
  }

  lemma {:induction false} LastGood(p: Parts, x: Json, size: nat)
    requires PartsGood(p) && Good(x, 14, size)
    ensures Good(Obj(Last(p, x)), 16, size + 14)
  {
    var origins, extension := Origins(p.sources), Obj([Field("witness", x)]);
    OriginsGood(p.sources);
    OneField(Field("witness", x), 14, size);
    assert "provenance"[0] != "extensions"[0];
    TwoFields(Field("provenance", origins), Field("extensions", extension), 15, 12, size + 1);
  }

  lemma {:induction false} FirstApart(p: Parts)
    ensures KeysApart(First(p), Collections(p, COUNT))
  {
    NameTags();
    assert Tag("schema") == 6115 && Tag("units") == 5117;
    var cs := Collections(p, COUNT);
    forall f, g | f in First(p) && g in cs ensures f.key != g.key {
      var i :| 0 <= i < COUNT && cs[i] == g;
      assert Tag(f.key) != Tag(NAMES[i]);
    }
  }

  lemma {:induction false} LastApart(p: Parts, x: Json)
    ensures KeysApart(Collections(p, COUNT), Last(p, x))
  {
    NameTags();
    assert Tag("extensions") == 10101;
    var cs := Collections(p, COUNT);
    forall f, g | f in cs && g in Last(p, x) ensures f.key != g.key {
      var i :| 0 <= i < COUNT && cs[i] == f;
      assert Tag(g.key) != Tag(NAMES[i]);
    }
  }

  lemma {:induction false} EndsApart(p: Parts, x: Json)
    ensures KeysApart(First(p), Last(p, x))
  {
    TagsApart(First(p), Last(p, x));
  }

  lemma {:induction false} JoinThree(a: seq<Field>, b: seq<Field>, c: seq<Field>, l: nat, m: nat, n: nat)
    requires Good(Obj(a), 16, l + 1) && Good(Obj(b), 16, m + 1) && Good(Obj(c), 16, n + 1)
    requires |a| + |b| + |c| <= MAX_OBJECT_KEYS && KeysApart(a, b) && KeysApart(b, c) && KeysApart(a, c)
    ensures Good(Obj(a + b + c), 16, l + m + n + 1)
  {
    JoinFields(a, b, 16, l, m);
    JoinFields(a + b, c, 16, l + m, n);
  }

  lemma {:induction false} SizeIs()
    ensures SizeUpTo(COUNT) == 37
  {
    assert SizeUpTo(5) == 28;
  }

  lemma {:induction false} PlanGood(p: Parts, x: Json, size: nat)
    requires PartsGood(p) && Good(x, 14, size)
    ensures Good(Plan(p, x), 16, size + 61)
  {
    FirstGood(p);
    CollectionsGood(p);
    SizeIs();
    LastGood(p, x, size);
    FirstApart(p);
    LastApart(p, x);
    EndsApart(p, x);
    JoinThree(First(p), Collections(p, COUNT), Last(p, x), 10, 37, size + 13);
  }

  // ----- It keeps the rules -----

  /** Each part has its id, and the floor names the frame. */
  ghost predicate PartsNamed(p: Parts) {
    && IsNamed(p.frame, "frame") && IsNamed(p.floor, "ground") && IsNamed(p.seed, "seed")
    && p.sources.Arr? && HasIds(p.sources.items) && NoRepeats(IdsOf(p.sources.items))
    && Resolves(p.frame, "parent_id", true, []) && Resolves(p.floor, "frame_id", false, ["frame"])
  }

  predicate IsNamed(v: Json, id: string) { KeyOf(ById, v).Some? && IdOf(v) == id }

  lemma {:induction false} FirstId(id: string, rest: seq<Field>)
    ensures IsNamed(Obj([Text1("id", id)] + rest), id)
  {
  }

  lemma {:induction false} FrameNamed(axes: Json, origin: Json)
    requires WellKeyed(Frame(axes, origin))
    ensures IsNamed(Frame(axes, origin), "frame") && Resolves(Frame(axes, origin), "parent_id", true, [])
  {
    var fields := Frame(axes, origin).fields;
    FirstId("frame", fields[1..]);
    assert fields == [Text1("id", "frame")] + fields[1..];
    GetOfMember(fields, FRAME_NAMES[1]);
  }

  lemma {:induction false} FloorNamed(elevation: Json)
    requires WellKeyed(Floor(elevation))
    ensures IsNamed(Floor(elevation), "ground") && Resolves(Floor(elevation), "frame_id", false, ["frame"])
  {
    var fields := Floor(elevation).fields;
    FirstId("ground", fields[1..]);
    assert fields == [Text1("id", "ground")] + fields[1..];
    GetOfMember(fields, fields[1]);
  }

  lemma {:induction false} SourceNamed(hash: string)
    ensures IsNamed(Source(hash), "source")
  {
    var fields := Source(hash).fields;
    FirstId("source", fields[1..]);
    assert fields == [Text1("id", "source")] + fields[1..];
  }

  lemma {:induction false} SeedNamed()
    ensures IsNamed(SEED, "seed")
  {
    FirstId("seed", SEED.fields[1..]);
    assert SEED.fields == [Text1("id", "seed")] + SEED.fields[1..];
  }

  lemma {:induction false} BasisNamed()
    ensures PartsNamed(BASIS)
  {
    FrameGood();
    assert Sound(BASIS.frame, 0);
    FrameNamed(AXES, ORIGIN);
    FloorGood();
    assert Sound(BASIS.floor, 0);
    FloorNamed(ELEVATION);
    SeedNamed();
    SourceNamed(Hash(64));
  }

  lemma {:induction false} PlanGet(p: Parts, x: Json, f: Field)
    requires WellKeyed(Plan(p, x)) && (f in First(p) || f in Collections(p, COUNT) || f in Last(p, x))
    ensures Get(Plan(p, x).fields, f.key) == Some(f.value)
  {
    GetOfMember(Plan(p, x).fields, f);
  }

  lemma {:induction false} PlanItems(p: Parts, x: Json, i: nat)
    requires WellKeyed(Plan(p, x)) && i < COUNT
    ensures HasItems(Plan(p, x), NAMES[i]) && Items(Plan(p, x), NAMES[i]) == Members(p, i)
  {
    assert Collections(p, COUNT)[i] == CollectionAt(p, i);
    PlanGet(p, x, CollectionAt(p, i));
  }

  function IdsAt(i: nat): seq<string> { if i == 0 then ["frame"] else if i == 1 then ["ground"] else if i == 9 then ["seed"] else [] }

  lemma {:induction false} MemberIds(p: Parts, i: nat)
    requires PartsNamed(p)
    ensures HasIds(Members(p, i)) && IdsOf(Members(p, i)) == IdsAt(i)
  {
  }

  lemma {:induction false} IdsAtApart(i: nat, j: nat)
    requires i < j
    ensures NoRepeats(IdsAt(i)) && Apart(IdsAt(i), IdsAt(j)) && Apart(["plan"], IdsAt(i))
  {
    assert |"frame"| == 5 && |"ground"| == 6 && |"seed"| == |"plan"| == 4 && "seed"[0] != "plan"[0];
  }

  lemma {:induction false} AtApart(groups: seq<seq<string>>)
    requires |groups| == COUNT && forall i: nat | i < COUNT :: groups[i] == IdsAt(i)
    ensures NoRepeats(Flatten(groups)) && Apart(["plan"], Flatten(groups))
  {
    forall i: nat, j: nat | i < j < COUNT ensures Apart(groups[i], groups[j]) {
      IdsAtApart(i, j);
    }
    forall i: nat | i < COUNT ensures NoRepeats(groups[i]) && "plan" !in groups[i] {
      IdsAtApart(i, i + 1);
    }
    FlattenApart(groups);
    FlattenMembers(groups, "plan");
  }

  lemma {:induction false} PlanIdsUnique(p: Parts, x: Json)
    requires PartsNamed(p) && WellKeyed(Plan(p, x))
    ensures IdsUnique(Plan(p, x))
  {
    var d := Plan(p, x);
    PlanGet(p, x, Text1("plan_id", "plan"));
    assert PlanIds(d) == ["plan"];
    forall i: nat | i < COUNT ensures CollectionOk(d, i) && Groups(d)[i] == IdsAt(i) {
      PlanItems(p, x, i);
      MemberIds(p, i);
    }
    AtApart(Groups(d));
    NoRepeatsJoin(PlanIds(d), Flatten(Groups(d)));
  }

  lemma {:induction false} PlanSourcesUnique(p: Parts, x: Json)
    requires PartsNamed(p) && WellKeyed(Plan(p, x)) && WellKeyed(Origins(p.sources))
    ensures SourcesUnique(Plan(p, x))
  {
    var origins := Origins(p.sources);
    PlanGet(p, x, Last(p, x)[0]);
    GetOfMember(origins.fields, SeedAndSources(p.sources)[1]);
    assert Items(origins, "sources") == p.sources.items;
  }

  lemma {:induction false} PlanUnique(p: Parts, x: Json)
    requires PartsGood(p) && PartsNamed(p) && WellKeyed(Plan(p, x))
    ensures UniquenessRules(Plan(p, x))
  {
    PlanIdsUnique(p, x);
    OriginsGood(p.sources);
    assert Sound(Origins(p.sources), 0);
    PlanSourcesUnique(p, x);
    PlanItems(p, x, ACCESS_POINTS);
    PlanItems(p, x, CONSTRAINTS);
  }

  lemma {:induction false} ReferenceAt(i: nat)
    requires i < |REFERENCES|
    ensures
      var r := REFERENCES[i];
      && r.from < COUNT && r.to < COUNT && |r.field| != 16 && (|r.field| == 9 ==> r.field[0] != 'r')
      && (r.from == 0 ==> i == 0) && (r.from == 1 ==> i == 1) && r.from != 9
  {
  }

  lemma {:induction false} PlanRefers(p: Parts, x: Json, i: nat)
    requires PartsNamed(p) && WellKeyed(Plan(p, x)) && i < |REFERENCES|
    ensures Refers(Plan(p, x), REFERENCES[i])
  {
    var r := REFERENCES[i];
    ReferenceAt(i);
    PlanItems(p, x, r.from);
    PlanItems(p, x, r.to);
    MemberIds(p, r.to);
  }

  lemma {:induction false} PlanReferences(p: Parts, x: Json)
    requires PartsNamed(p) && WellKeyed(Plan(p, x))
    ensures ReferenceRules(Plan(p, x))
  {
    forall i | 0 <= i < |REFERENCES| ensures Refers(Plan(p, x), REFERENCES[i]) {
      PlanRefers(p, x, i);
    }
  }

  // ----- It is encoded -----

  /** What an extension of the plan may hold for the text to stay in bounds. */
  const ROOM: nat := 100

  lemma {:induction false} PlanEncodes(rules: Rules, p: Parts, x: Json)
    requires PartsGood(p) && PartsNamed(p) && Good(x, 14, ROOM) && rules(Plan(p, x))
    ensures WellKeyed(Plan(p, x)) && Encode(rules, Plan(p, x)).Some?
  {
    var d := Plan(p, x);
    PlanGood(p, x, ROOM);
    assert Sound(d, 0);
    FineKeeps(d, 0);
    PlanUnique(p, x);
    PlanReferences(p, x);
    NormalKeeps(SHORT, DOCUMENT, d, 0);
    NormalNodes(DOCUMENT, d);
    ShortText(Normalize(DOCUMENT, d), 0);
  }

  lemma {:induction false} ExtensionKept(limit: Limit, p: Parts, x: Json)
    requires Keeps(limit, Plan(p, x), 0)
    ensures Keeps(limit, x, 2)
  {
    var fields := Plan(p, x).fields;
    var e := Obj([Field("witness", x)]);
    assert fields[|fields| - 1].value == e;
    assert Keeps(limit, e, 1);
    assert e.fields[0].value == x;
  }

  /** The scan or the walk refuses the text of a document that does not come back, whatever the value rules say. */
  lemma {:induction false} RefusedText(rules: Rules, d: Json)
    requires WellKeyed(d) && Encode(rules, d).Some? && !ComesBack(d)
    ensures Decode(rules, Encode(rules, d).value).None?
  {
    RulesFit(d);
    ImageText(d);
    ImageBudget(d);
    ScanText(Image(DOCUMENT, d), 0);
  }

  // ----- What is lost -----

  const LARGE: Json := Num(N.Dec(false, 1, 20))

  lemma {:induction false} ZerosLength(e: nat)
    ensures |N.Zeros(e)| == e
  {
    if e > 0 {
      ZerosLength(e - 1);
    }
  }

  lemma {:induction false} LargeGood()
    ensures Good(LARGE, 0, 1) && !Keeps(RETURNS, LARGE, 2)
  {
    var x := N.Dec(false, 1, 20);
    LargeNumber();
    ZerosLength(20);
    assert |N.Text(x)| == |N.Digits(1) + N.Zeros(20)| == 21;
    forall depth: nat | depth <= MAX_NESTING ensures Sound(LARGE, depth) {
      assert HeadOk(NumberHead(x), depth) && ShortHead(NumberHead(x));
    }
  }

  /** Arrays in arrays, empty at the bottom. */
  function Nest(n: nat): Json { if n == 0 then Arr([]) else Arr([Nest(n - 1)]) }

  lemma {:induction false} NestGood(n: nat)
    ensures Good(Nest(n), n, n + 1)
  {
    if n == 0 {
      NoItems();
    } else {
      NestGood(n - 1);
      OneItem(Nest(n - 1), n - 1, n);
    }
  }

  lemma {:induction false} NestDeep(n: nat, depth: nat)
    requires depth + n >= MAX_NESTING
    ensures !Keeps(NESTING, Nest(n), depth)
    decreases n
  {
    if n > 0 {
      NestDeep(n - 1, depth + 1);
      assert Nest(n).items[0] == Nest(n - 1);
    }
  }

  /** A plan whose extension the walk allows and the reader refuses is encoded, and its text is refused. */
  lemma {:induction false} LostInExtension(rules: Rules, x: Json)
    requires Good(x, 14, ROOM) && !(Keeps(NESTING, x, 2) && Keeps(RETURNS, x, 2)) && rules(Plan(BASIS, x))
    ensures
      var text := Encode(rules, Plan(BASIS, x));
      text.Some? && Decode(rules, text.value).None?
  {
    BasisGood();
    BasisNamed();
    PlanEncodes(rules, BASIS, x);
    if ComesBack(Plan(BASIS, x)) {
      ExtensionKept(NESTING, BASIS, x);
      ExtensionKept(RETURNS, BASIS, x);
    }
    RefusedText(rules, Plan(BASIS, x));
  }

  /** A plan holding 1e20 is encoded, and its text is refused. */
  lemma {:induction false} LargeWholeNumberIsLost(rules: Rules)
    requires rules(Plan(BASIS, LARGE))
    ensures
      var text := Encode(rules, Plan(BASIS, LARGE));
      text.Some? && Decode(rules, text.value).None?
  {
    LargeGood();
    LostInExtension(rules, LARGE);
  }

  /** A plan with an empty array at the deepest level is encoded, and its text is refused. */
  lemma {:induction false} DeepestEmptyIsLost(rules: Rules, n: nat)
    requires n + 2 == MAX_NESTING && rules(Plan(BASIS, Nest(n)))
    ensures
      var text := Encode(rules, Plan(BASIS, Nest(n)));
      text.Some? && Decode(rules, text.value).None?
  {
    NestGood(n);
    NestDeep(n, 2);
    LostInExtension(rules, Nest(n));
  }
}
