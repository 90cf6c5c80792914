/** The limits every value of a document must keep, and the scan that guards the reader. */
module JsonBudget {
  import K = KeyedSort
  import N = CanonicalNumber
  import S = JsonString
  import opened JsonText
  import opened InterchangeSchema

  const MAX_NODES: nat := 20_000
  const MAX_NESTING: nat := 16
  const MAX_ARRAY_ITEMS: nat := 4096
  const MAX_OBJECT_KEYS: nat := 128
  const MAX_STRING_BYTES: nat := 4096
  const MAX_DECIMAL_EXPONENT: nat := 1024
  const MAX_DECIMAL_DIGITS: nat := 4096
  const WORD: nat := 0x1_0000_0000_0000_0000

  // ----- What a limit can look at -----

  /** A value without its children. */
  datatype Head = Leaf | NumberHead(number: N.Number) | StringHead(text: string) | ArrayHead(count: nat)
    | ObjectHead(keys: set<string>, count: nat)

  function KeySet(fields: seq<Field>): set<string> { set i | 0 <= i < |fields| :: fields[i].key }

  function HeadOf(v: Json): Head {
    match v
    case Null => Leaf
    case Bool(_) => Leaf
    case Num(x) => NumberHead(x)
    case Str(s) => StringHead(s)
    case Arr(items) => ArrayHead(|items|)
    case Obj(fields) => ObjectHead(KeySet(fields), |fields|)
  }

  type Limit = (Head, nat) -> bool

  /** The limit holds of every value, told how deep it lies. */
  predicate Keeps(limit: Limit, v: Json, depth: nat)
    decreases v
  {
    && limit(HeadOf(v), depth)
    && match v
       case Arr(items) => forall i | 0 <= i < |items| :: Keeps(limit, items[i], depth + 1)
       case Obj(fields) => forall i | 0 <= i < |fields| :: Keeps(limit, fields[i].value, depth + 1)
       case _ => true
  }

  function CanonHead(h: Head): Head { if h.NumberHead? then NumberHead(N.Canonical(h.number)) else h }

  function OnCanon(limit: Limit): (r: Limit)
    ensures forall h, depth :: r(h, depth) == limit(CanonHead(h), depth)
  {
    (h: Head, depth: nat) => limit(CanonHead(h), depth)
  }

  // ----- Limits do not see the order of anything -----

  lemma {:induction false} CanonKeySet(fields: seq<Field>)
    ensures KeySet(MapFields(CANON, SortFields(fields))) == KeySet(fields)
  {
    var sorted := SortFields(fields);
    var canons := MapFields(CANON, sorted);
    SortFieldsMembers(fields);
    forall k | k in KeySet(canons) ensures k in KeySet(fields) {
      var i :| 0 <= i < |canons| && canons[i].key == k;
      assert sorted[i] in fields;
      var j :| 0 <= j < |fields| && fields[j] == sorted[i];
      assert fields[j].key == k;
    }
    forall k | k in KeySet(fields) ensures k in KeySet(canons) {
      var i :| 0 <= i < |fields| && fields[i].key == k;
      assert fields[i] in sorted;
      var j :| 0 <= j < |sorted| && sorted[j] == fields[i];
      assert canons[j].key == k;
    }
  }

  lemma {:induction false} CanonKeeps(limit: Limit, v: Json, depth: nat)
    ensures Keeps(limit, Canon(v), depth) <==> Keeps(OnCanon(limit), v, depth)
    decreases v
  {
    match v
    case Arr(items) =>
      forall i | 0 <= i < |items| ensures Keeps(limit, Canon(items[i]), depth + 1) <==> Keeps(OnCanon(limit), items[i], depth + 1) {
        CanonKeeps(limit, items[i], depth + 1);
      }
      CanonKeepsItems(limit, items, depth);
    case Obj(fields) =>
      forall i | 0 <= i < |fields|
        ensures Keeps(limit, Canon(fields[i].value), depth + 1) <==> Keeps(OnCanon(limit), fields[i].value, depth + 1)
      {
        CanonKeeps(limit, fields[i].value, depth + 1);
      }
      CanonKeepsFields(limit, fields, depth);
    case _ =>
  }

  lemma {:induction false} CanonKeepsItems(limit: Limit, items: seq<Json>, depth: nat)
    requires forall i | 0 <= i < |items| :: Keeps(limit, Canon(items[i]), depth + 1) <==> Keeps(OnCanon(limit), items[i], depth + 1)
    ensures Keeps(limit, Canon(Arr(items)), depth) <==> Keeps(OnCanon(limit), Arr(items), depth)
  {
    var canons := Canons(items);
    assert Canon(Arr(items)) == Arr(canons);
    assert forall i | 0 <= i < |items| :: canons[i] == Canon(items[i]);
  }

  lemma {:induction false} CanonKeepsFields(limit: Limit, fields: seq<Field>, depth: nat)
    requires forall i | 0 <= i < |fields| ::
      Keeps(limit, Canon(fields[i].value), depth + 1) <==> Keeps(OnCanon(limit), fields[i].value, depth + 1)
    ensures Keeps(limit, Canon(Obj(fields)), depth) <==> Keeps(OnCanon(limit), Obj(fields), depth)
  {
    var sorted := SortFields(fields);
    var canons := MapFields(CANON, sorted);
    ObjCanon(fields);
    CanonKeySet(fields);
    SortFieldsMembers(fields);
    if Keeps(limit, Obj(canons), depth) {
      forall i | 0 <= i < |fields| ensures Keeps(OnCanon(limit), fields[i].value, depth + 1) {
        assert fields[i] in sorted;
        var j :| 0 <= j < |sorted| && sorted[j] == fields[i];
        assert canons[j].value == Canon(fields[i].value);
      }
    }
    if Keeps(OnCanon(limit), Obj(fields), depth) {
      forall j | 0 <= j < |canons| ensures Keeps(limit, canons[j].value, depth + 1) {
        assert sorted[j] in fields;
        var i :| 0 <= i < |fields| && fields[i] == sorted[j];
        assert canons[j].value == Canon(fields[i].value);
      }
    }
  }

  lemma {:induction false} NormalKeeps(limit: Limit, shape: Shape, v: Json, depth: nat)
    ensures Keeps(limit, Normalize(shape, v), depth) <==> Keeps(limit, v, depth)
    decreases v
  {
    match shape
    case Plain =>
    case Collection(kind, item) =>
      if v.Arr? {
        forall i | 0 <= i < |v.items|
          ensures Keeps(limit, Normalize(item, v.items[i]), depth + 1) <==> Keeps(limit, v.items[i], depth + 1)
        {
          NormalKeeps(limit, item, v.items[i], depth + 1);
        }
        NormalKeepsItems(limit, kind, item, v.items, depth);
      }
    case Record(special) =>
      if v.Obj? {
        forall i | 0 <= i < |v.fields|
          ensures Keeps(limit, NormalFields(special, v.fields)[i].value, depth + 1) <==> Keeps(limit, v.fields[i].value, depth + 1)
        {
          NormalKeeps(limit, ShapeOf(special, v.fields[i].key), v.fields[i].value, depth + 1);
        }
        NormalKeepsFields(limit, special, v.fields, depth);
      }
  }

  lemma {:induction false} NormalKeepsItems(limit: Limit, kind: KeyKind, item: Shape, items: seq<Json>, depth: nat)
    requires forall i | 0 <= i < |items| ::
      Keeps(limit, Normalize(item, items[i]), depth + 1) <==> Keeps(limit, items[i], depth + 1)
    ensures Keeps(limit, Normalize(Collection(kind, item), Arr(items)), depth) <==> Keeps(limit, Arr(items), depth)
  {
    var es := NormalEntries(kind, item, items);
    var sorted := K.Sort(es);
    var values := Values(sorted);
    assert Normalize(Collection(kind, item), Arr(items)) == Arr(values);
    K.SortEntries(es);
    if Keeps(limit, Arr(values), depth) {
      forall i | 0 <= i < |items| ensures Keeps(limit, items[i], depth + 1) {
        assert es[i] in sorted;
        var j :| 0 <= j < |sorted| && sorted[j] == es[i];
        assert values[j] == Normalize(item, items[i]);
      }
    }
    if Keeps(limit, Arr(items), depth) {
      forall j | 0 <= j < |values| ensures Keeps(limit, values[j], depth + 1) {
        assert sorted[j] in es;
        var i :| 0 <= i < |es| && es[i] == sorted[j];
        assert values[j] == Normalize(item, items[i]);
      }
    }
  }

  lemma {:induction false} NormalKeepsFields(limit: Limit, special: seq<Special>, fields: seq<Field>, depth: nat)
    requires forall i | 0 <= i < |fields| ::
      Keeps(limit, NormalFields(special, fields)[i].value, depth + 1) <==> Keeps(limit, fields[i].value, depth + 1)
    ensures Keeps(limit, Normalize(Record(special), Obj(fields)), depth) <==> Keeps(limit, Obj(fields), depth)
  {
    var normal := NormalFields(special, fields);
    assert Normalize(Record(special), Obj(fields)) == Obj(normal);
    assert KeySet(normal) == KeySet(fields);
  }

  /** A limit on the image is a limit on the value, seen through canonical numbers. */
  lemma {:induction false} ImageKeeps(limit: Limit, shape: Shape, v: Json)
    ensures Keeps(limit, Image(shape, v), 0) <==> Keeps(OnCanon(limit), v, 0)
  {
    CanonKeeps(limit, Normalize(shape, v), 0);
    NormalKeeps(OnCanon(limit), shape, v, 0);
  }

  // ----- Counting values -----

  function Nodes(v: Json): (n: nat)
    ensures n > 0
    decreases v
  {
    match v
    case Arr(items) => 1 + NodesOf(items)
    case Obj(fields) => 1 + NodesOfFields(fields)
    case _ => 1
  }

  function NodesOf(items: seq<Json>): nat
    decreases items
  {
    if items == [] then 0 else NodesOf(items[..|items| - 1]) + Nodes(items[|items| - 1])
  }

  function NodesOfFields(fields: seq<Field>): nat
    decreases fields
  {
    if fields == [] then 0 else NodesOfFields(fields[..|fields| - 1]) + Nodes(fields[|fields| - 1].value)
  }

  function FieldValues(fields: seq<Field>): (r: seq<Json>)
    ensures |r| == |fields|
  {
    seq(|fields|, i requires 0 <= i < |fields| => fields[i].value)
  }

  lemma {:induction false} NodesOfValues(fields: seq<Field>)
    ensures NodesOfFields(fields) == NodesOf(FieldValues(fields))
  {
    if fields != [] {
      var n := |fields| - 1;
      NodesOfValues(fields[..n]);
      assert FieldValues(fields)[..n] == FieldValues(fields[..n]);
    }
  }

  lemma {:induction false} NodesOfFirst(x: Json, items: seq<Json>)
    ensures NodesOf([x] + items) == Nodes(x) + NodesOf(items)
  {
    var all := [x] + items;
    if items == [] {
      assert all[..0] == [] && all == [x];
    } else {
      NodesOfFirst(x, items[..|items| - 1]);
      assert all[..|all| - 1] == [x] + items[..|items| - 1];
    }
  }

  lemma {:induction false} NodesOfInsert(e: K.Entry<Json>, es: seq<K.Entry<Json>>)
    ensures NodesOf(Values(K.Insert(e, es))) == Nodes(e.value) + NodesOf(Values(es))
  {
    if es == [] {
      assert Values([e]) == [e.value] + [];
      NodesOfFirst(e.value, []);
      assert Values(es) == [];
    } else if K.Less(e.key, es[0].key) {
      assert Values([e] + es) == [e.value] + Values(es);
      NodesOfFirst(e.value, Values(es));
    } else {
      NodesOfInsert(e, es[1..]);
      var more := K.Insert(e, es[1..]);
      assert Values([es[0]] + more) == [es[0].value] + Values(more);
      assert Values(es) == [es[0].value] + Values(es[1..]);
      NodesOfFirst(es[0].value, Values(more));
      NodesOfFirst(es[0].value, Values(es[1..]));
    }
  }

  lemma {:induction false} NodesOfSort(es: seq<K.Entry<Json>>)
    ensures NodesOf(Values(K.Sort(es))) == NodesOf(Values(es))
  {
    if es != [] {
      var n := |es| - 1;
      NodesOfSort(es[..n]);
      NodesOfInsert(es[n], K.Sort(es[..n]));
      assert Values(es)[..n] == Values(es[..n]);
    }
  }

  lemma {:induction false} NodesOfSame(a: seq<Json>, b: seq<Json>)
    requires |a| == |b| && forall i | 0 <= i < |a| :: Nodes(a[i]) == Nodes(b[i])
    ensures NodesOf(a) == NodesOf(b)
  {
    if a != [] {
      NodesOfSame(a[..|a| - 1], b[..|b| - 1]);
    }
  }

  lemma {:induction false} CanonNodes(v: Json)
    ensures Nodes(Canon(v)) == Nodes(v)
    decreases v
  {
    match v
    case Arr(items) =>
      forall i | 0 <= i < |items| ensures Nodes(Canons(items)[i]) == Nodes(items[i]) {
        CanonNodes(items[i]);
      }
      assert Canon(v) == Arr(Canons(items));
      NodesOfSame(Canons(items), items);
    case Obj(fields) =>
      forall i | 0 <= i < |fields| ensures Nodes(Canon(fields[i].value)) == Nodes(fields[i].value) {
        CanonNodes(fields[i].value);
      }
      CanonNodesFields(fields);
    case _ =>
  }

  const CANON_VALUE: Field -> Json := (f: Field) => Canon(f.value)

  lemma {:induction false} CanonNodesFields(fields: seq<Field>)
    requires forall i | 0 <= i < |fields| :: Nodes(Canon(fields[i].value)) == Nodes(fields[i].value)
    ensures Nodes(Canon(Obj(fields))) == Nodes(Obj(fields))
  {
    var es := K.MapValues(CANON_VALUE, Entries(fields));
    var canons := MapFields(CANON, SortFields(fields));
    ObjCanon(fields);
    SortedImages(CANON_VALUE, fields, es);
    assert FieldValues(canons) == Values(K.Sort(es));
    NodesOfSort(es);
    NodesOfSame(Values(es), FieldValues(fields));
    NodesOfValues(fields);
    NodesOfValues(canons);
  }

  lemma {:induction false} NormalNodes(shape: Shape, v: Json)
    ensures Nodes(Normalize(shape, v)) == Nodes(v)
    decreases v
  {
    match shape
    case Plain =>
    case Collection(kind, item) =>
      if v.Arr? {
        var es := NormalEntries(kind, item, v.items);
        assert Normalize(shape, v) == Arr(Values(K.Sort(es)));
        forall i | 0 <= i < |v.items| ensures Nodes(Values(es)[i]) == Nodes(v.items[i]) {
          NormalNodes(item, v.items[i]);
        }
        NodesOfSort(es);
        NodesOfSame(Values(es), v.items);
      }
    case Record(special) =>
      if v.Obj? {
        var normal := NormalFields(special, v.fields);
        assert Normalize(shape, v) == Obj(normal);
        forall i | 0 <= i < |v.fields| ensures Nodes(FieldValues(normal)[i]) == Nodes(FieldValues(v.fields)[i]) {
          NormalNodes(ShapeOf(special, v.fields[i].key), v.fields[i].value);
        }
        NodesOfSame(FieldValues(normal), FieldValues(v.fields));
        NodesOfValues(normal);
        NodesOfValues(v.fields);
      }
  }

  // ----- The limits -----

  function Utf8Length(s: string): nat {
    if s == "" then 0
    else
      var n := s[|s| - 1] as int;
      Utf8Length(s[..|s| - 1]) + if n < 0x80 then 1 else if n < 0x800 then 2 else if n < 0x10000 then 3 else 4
  }

  predicate StringOk(s: string) { Utf8Length(s) <= MAX_STRING_BYTES && forall c | c in s :: c as int >= 0x20 }

  predicate FitsWord(n: int) { -(WORD as int) < n < WORD as int }

  predicate NumberOk(x: N.Number) {
    match x
    case Int(n) => FitsWord(n)
    case Dec(_, c, e) => -(MAX_DECIMAL_EXPONENT as int) <= e <= MAX_DECIMAL_EXPONENT && |N.Digits(c)| <= MAX_DECIMAL_DIGITS
  }

  predicate HeadOk(h: Head, depth: nat) {
    && depth <= MAX_NESTING
    && match h
       case Leaf => true
       case NumberHead(x) => NumberOk(x)
       case StringHead(s) => StringOk(s)
       case ArrayHead(count) => count <= MAX_ARRAY_ITEMS
       case ObjectHead(keys, count) => count <= MAX_OBJECT_KEYS && forall k | k in keys :: StringOk(k)
  }

  const BUDGET: Limit := (h: Head, depth: nat) => HeadOk(h, depth)

  predicate WithinBudget(v: Json) { Nodes(v) <= MAX_NODES && Keeps(BUDGET, v, 0) }

  ghost predicate ItemsKeep(items: seq<Json>, n: nat, depth: nat) {
    n <= |items| && forall i | 0 <= i < n :: Keeps(BUDGET, items[i], depth)
  }

  ghost predicate FieldsKeep(fields: seq<Field>, n: nat, depth: nat) {
    n <= |fields| && forall i | 0 <= i < n :: Keeps(BUDGET, fields[i].value, depth)
  }

  lemma {:induction false} Utf8Step(s: string, i: nat)
    requires i < |s|
    ensures
      var n := s[i] as int;
      Utf8Length(s[..i + 1]) == Utf8Length(s[..i]) + if n < 0x80 then 1 else if n < 0x800 then 2 else if n < 0x10000 then 3 else 4
  {
    assert s[..i + 1][..i] == s[..i];
  }

  /** The encoded length and the control characters of a string. */
  method CheckString(s: string) returns (ok: bool)
    ensures ok <==> StringOk(s)
  {
    var bytes := 0;
    ok := true;
    for i := 0 to |s|
      invariant bytes == Utf8Length(s[..i])
      invariant ok <==> forall j | 0 <= j < i :: s[j] as int >= 0x20
    {
      Utf8Step(s, i);
      var n := s[i] as int;
      if n < 32 { ok := false; }
      bytes := bytes + if n <= 127 then 1 else if n <= 2047 then 2 else if n <= 65535 then 3 else 4;
    }
    assert s[..|s|] == s;
    assert forall j | 0 <= j < |s| :: s[j] in s;
    ok := ok && bytes <= 4096;
  }

  /** The checks the walk makes of one value, by its type. */
  method CheckHead(v: Json, depth: nat) returns (ok: bool)
    ensures ok <==> HeadOk(HeadOf(v), depth)
  {
    if depth > 16 { return false; }
    match v {
      case Null => ok := true;
      case Bool(_) => ok := true;
      case Num(x) =>
        match x {
          case Int(n) => ok := n <= 0xffff_ffff_ffff_ffff && -n <= 0xffff_ffff_ffff_ffff;
          case Dec(_, c, e) => ok := e <= 1024 && -e <= 1024 && |N.Digits(c)| <= 4096;
        }
      case Str(s) => ok := CheckString(s);
      case Arr(items) => ok := |items| <= 4096;
      case Obj(fields) =>
        if |fields| > 128 { return false; }
        ok := CheckKeys(fields);
    }
  }

  method CheckKeys(fields: seq<Field>) returns (ok: bool)
    ensures ok <==> forall k | k in KeySet(fields) :: StringOk(k)
  {
    for i := 0 to |fields|
      invariant forall j | 0 <= j < i :: StringOk(fields[j].key)
    {
      ok := CheckString(fields[i].key);
      if !ok {
        assert fields[i].key in KeySet(fields);
        return;
      }
    }
    ok := true;
  }

  /** The recursive walk with its running count. */
  method WalkBudget(v: Json, depth: nat, count: nat) returns (ok: bool, counted: nat)
    ensures ok <==> count + Nodes(v) <= MAX_NODES && Keeps(BUDGET, v, depth)
    ensures ok ==> counted == count + Nodes(v)
    decreases v
  {
    counted := count + 1;
    if counted > 20_000 { return false, counted; }
    ok := CheckHead(v, depth);
    if !ok { return; }
    if v.Arr? {
      ok, counted := WalkItems(v.items, depth + 1, counted);
    } else if v.Obj? {
      ok, counted := WalkFields(v.fields, depth + 1, counted);
    }
  }

  method WalkItems(items: seq<Json>, depth: nat, count: nat) returns (ok: bool, counted: nat)
    requires count <= MAX_NODES
    ensures ok <==> count + NodesOf(items) <= MAX_NODES && ItemsKeep(items, |items|, depth)
    ensures ok ==> counted == count + NodesOf(items)
    decreases items
  {
    counted := count;
    for i := 0 to |items|
      invariant counted == count + NodesOf(items[..i]) <= MAX_NODES && ItemsKeep(items, i, depth)
    {
      assert items[..i + 1][..i] == items[..i];
      ok, counted := WalkBudget(items[i], depth, counted);
      if !ok {
        NodesOfPrefix(items, i + 1);
        return;
      }
    }
    assert items[..|items|] == items;
    ok := true;
  }

  method WalkFields(fields: seq<Field>, depth: nat, count: nat) returns (ok: bool, counted: nat)
    requires count <= MAX_NODES
    ensures ok <==> count + NodesOfFields(fields) <= MAX_NODES && FieldsKeep(fields, |fields|, depth)
    ensures ok ==> counted == count + NodesOfFields(fields)
    decreases fields
  {
    counted := count;
    for i := 0 to |fields|
      invariant counted == count + NodesOfFields(fields[..i]) <= MAX_NODES && FieldsKeep(fields, i, depth)
    {
      assert fields[..i + 1][..i] == fields[..i];
      ok, counted := WalkBudget(fields[i].value, depth, counted);
      if !ok {
        NodesOfFieldsPrefix(fields, i + 1);
        return;
      }
    }
    assert fields[..|fields|] == fields;
    ok := true;
  }

  lemma {:induction false} NodesOfPrefix(items: seq<Json>, n: nat)
    requires n <= |items|
    ensures NodesOf(items[..n]) <= NodesOf(items)
    decreases |items| - n
  {
    if n == |items| {
      assert items[..n] == items;
    } else {
      NodesOfPrefix(items, n + 1);
      assert items[..n + 1][..n] == items[..n];
    }
  }

  lemma {:induction false} NodesOfFieldsPrefix(fields: seq<Field>, n: nat)
    requires n <= |fields|
    ensures NodesOfFields(fields[..n]) <= NodesOfFields(fields)
    decreases |fields| - n
  {
    if n == |fields| {
      assert fields[..n] == fields;
    } else {
      NodesOfFieldsPrefix(fields, n + 1);
      assert fields[..n + 1][..n] == fields[..n];
    }
  }

  // ----- Numbers read back -----

  /** A whole number is printed as an integer, which must fit a word to be read. */
  predicate WholeFits(x: N.Number) { N.Canonical(x).Int? ==> FitsWord(N.Canonical(x).n) }

  lemma {:induction false} StripDigits(neg: bool, c: nat, places: nat)
    ensures |N.Digits(N.Strip(neg, c, places).coefficient)| <= |N.Digits(c)| && N.Strip(neg, c, places).places <= places
    decreases places
  {
    if places > 0 && c % 10 == 0 {
      StripDigits(neg, c / 10, places - 1);
    }
  }

  /** Of a number within the limits, the canonical spelling is too, unless it is a whole number too large. */
  lemma {:induction false} CanonicalOk(x: N.Number)
    requires NumberOk(x)
    ensures NumberOk(N.Canonical(x)) <==> WholeFits(x)
  {
    if x.Dec? && x.coefficient != 0 && x.exponent < 0 {
      StripDigits(x.neg, x.coefficient, -x.exponent);
    }
  }

  lemma {:induction false} DigitsShort(n: nat, k: nat)
    requires k > 0 && n < N.Raise(1, k)
    ensures |N.Digits(n)| <= k
  {
    if n >= 10 {
      DigitsShort(n / 10, k - 1);
    }
  }

  /** The twenty-digit check on integer tokens never refuses a number that fits a word. */
  lemma {:induction false} WordDigits(n: nat)
    requires n < WORD
    ensures |N.Digits(n)| <= 20
  {
    assert N.Raise(1, 20) == 100_000_000_000_000_000_000 by {
      assert N.Raise(1, 4) == 10_000;
      assert N.Raise(1, 8) == 100_000_000;
      assert N.Raise(1, 12) == 1_000_000_000_000;
      assert N.Raise(1, 16) == 10_000_000_000_000_000;
    }
    DigitsShort(n, 20);
  }
}
