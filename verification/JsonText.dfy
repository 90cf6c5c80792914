/**
  Canonical JSON text: keys in order, numbers in one spelling, no blanks; and the
  reader that gives the canonical value back.
 */
module JsonText {
  import K = KeyedSort
  import N = CanonicalNumber
  import S = JsonString

  datatype Option<T> = None | Some(value: T)

  /** Objects keep the order of their keys; it carries no meaning. */
  datatype Json =
    | Null
    | Bool(b: bool)
    | Num(number: N.Number)
    | Str(text: string)
    | Arr(items: seq<Json>)
    | Obj(fields: seq<Field>)

  datatype Field = Field(key: string, value: Json)

  // ----- Key order -----

  function Codes(s: string): (k: K.Key)
    ensures |k| == |s|
  {
    seq(|s|, i requires 0 <= i < |s| => s[i] as int)
  }

  lemma {:induction false} CodesInjective(a: string, b: string)
    requires Codes(a) == Codes(b)
    ensures a == b
  {
    forall i | 0 <= i < |a| ensures a[i] == b[i] {
      assert Codes(a)[i] == Codes(b)[i];
    }
  }

  function Values<T(!new)>(es: seq<K.Entry<T>>): (r: seq<T>)
    ensures |r| == |es|
  {
    seq(|es|, i requires 0 <= i < |es| => es[i].value)
  }

  function Entries(fields: seq<Field>): (r: seq<K.Entry<Field>>)
    ensures |r| == |fields|
  {
    seq(|fields|, i requires 0 <= i < |fields| => K.Entry(Codes(fields[i].key), fields[i]))
  }

  // ----- Writing -----

  function Join(parts: seq<string>): string {
    if parts == [] then ""
    else if |parts| == 1 then parts[0]
    else parts[0] + "," + Join(parts[1..])
  }

  function FieldText(key: string, t: string): string { S.Quote(key) + ":" + t }

  function Text(v: Json): string {
    match v
    case Null => "null"
    case Bool(b) => if b then "true" else "false"
    case Num(x) => N.Text(x)
    case Str(s) => S.Quote(s)
    case Arr(items) => "[" + Join(seq(|items|, i requires 0 <= i < |items| => Text(items[i]))) + "]"
    case Obj(fields) =>
      "{" + Join(Values(K.Sort(
        seq(|fields|, i requires 0 <= i < |fields| =>
          K.Entry(Codes(fields[i].key), FieldText(fields[i].key, Text(fields[i].value))))))) + "}"
  }

  /** The value with keys in order and numbers in their canonical spelling. */
  function Canon(v: Json): Json {
    match v
    case Num(x) => Num(N.Canonical(x))
    case Arr(items) => Arr(seq(|items|, i requires 0 <= i < |items| => Canon(items[i])))
    case Obj(fields) =>
      Obj(Values(K.Sort(
        seq(|fields|, i requires 0 <= i < |fields| =>
          K.Entry(Codes(fields[i].key), Field(fields[i].key, Canon(fields[i].value)))))))
    case _ => v
  }

  ghost predicate DistinctKeys(fields: seq<Field>) {
    forall i, j | 0 <= i < j < |fields| :: fields[i].key != fields[j].key
  }

  /** No object repeats a key. */
  ghost predicate WellKeyed(v: Json) {
    match v
    case Arr(items) => forall i | 0 <= i < |items| :: WellKeyed(items[i])
    case Obj(fields) => DistinctKeys(fields) && forall i | 0 <= i < |fields| :: WellKeyed(fields[i].value)
    case _ => true
  }

  // ----- Sorted fields -----

  function SortFields(fields: seq<Field>): (r: seq<Field>) { Values(K.Sort(Entries(fields))) }

  const TEXT: Field -> string := (f: Field) => FieldText(f.key, Text(f.value))
  const CANON: Field -> Field := (f: Field) => Field(f.key, Canon(f.value))

  function MapFields<U(!new)>(g: Field -> U, fields: seq<Field>): (r: seq<U>)
    ensures |r| == |fields|
  {
    seq(|fields|, i requires 0 <= i < |fields| => g(fields[i]))
  }

  lemma {:induction false} SortFieldsMembers(fields: seq<Field>)
    ensures |SortFields(fields)| == |fields|
    ensures forall f :: f in SortFields(fields) <==> f in fields
  {
    var es := Entries(fields);
    var sorted := K.Sort(es);
    K.SortEntries(es);
    forall f | f in SortFields(fields) ensures f in fields {
      var i :| 0 <= i < |sorted| && Values(sorted)[i] == f;
      assert sorted[i] in es;
    }
    forall f | f in fields ensures f in SortFields(fields) {
      var i :| 0 <= i < |fields| && fields[i] == f;
      assert es[i] in sorted;
      var j :| 0 <= j < |sorted| && sorted[j] == es[i];
      assert Values(sorted)[j] == f;
    }
  }

  /** Sorting commutes with whatever is done to the fields. */
  lemma {:induction false} SortedImages<U(!new)>(g: Field -> U, fields: seq<Field>, es: seq<K.Entry<U>>)
    requires |es| == |fields| && forall i | 0 <= i < |fields| :: es[i] == K.Entry(Codes(fields[i].key), g(fields[i]))
    ensures Values(K.Sort(es)) == MapFields(g, SortFields(fields))
  {
    assert es == K.MapValues(g, Entries(fields));
    K.SortMap(g, Entries(fields));
  }

  lemma {:induction false} ObjText(fields: seq<Field>)
    ensures Text(Obj(fields)) == "{" + Join(MapFields(TEXT, SortFields(fields))) + "}"
  {
    var es := seq(|fields|, i requires 0 <= i < |fields| =>
      K.Entry(Codes(fields[i].key), FieldText(fields[i].key, Text(fields[i].value))));
    SortedImages(TEXT, fields, es);
  }

  lemma {:induction false} ObjCanon(fields: seq<Field>)
    ensures Canon(Obj(fields)) == Obj(MapFields(CANON, SortFields(fields)))
  {
    var es := seq(|fields|, i requires 0 <= i < |fields| =>
      K.Entry(Codes(fields[i].key), Field(fields[i].key, Canon(fields[i].value))));
    SortedImages(CANON, fields, es);
  }

  // ----- Reading -----

  predicate Begins(s: string, x: string) { |x| <= |s| && s[..|x|] == x }

  predicate KeysDiffer(fields: seq<Field>) { forall i, j | 0 <= i < j < |fields| :: fields[i].key != fields[j].key }

  function ReadValue(s: string): (r: Option<(Json, string)>)
    ensures r.Some? ==> |r.value.1| < |s|
    decreases |s|, 0
  {
    if s == "" then None
    else if s[0] == 'n' then (if Begins(s, "null") then Some((Null, s[4..])) else None)
    else if s[0] == 't' then (if Begins(s, "true") then Some((Bool(true), s[4..])) else None)
    else if s[0] == 'f' then (if Begins(s, "false") then Some((Bool(false), s[5..])) else None)
    else if s[0] == '\"' then
      var r := S.ReadString(s);
      if r.None? then None else Some((Str(r.value.0), r.value.1))
    else if s[0] == '[' then
      if Begins(s[1..], "]") then Some((Arr([]), s[2..]))
      else
        var r := ReadItems(s[1..]);
        if r.None? then None else Some((Arr(r.value.0), r.value.1))
    else if s[0] == '{' then
      if Begins(s[1..], "}") then Some((Obj([]), s[2..]))
      else
        var r := ReadFields(s[1..]);
        if r.None? || !KeysDiffer(r.value.0) then None else Some((Obj(r.value.0), r.value.1))
    else
      var r := N.ReadNumber(s);
      if r.None? then None else Some((Num(r.value.0), r.value.1))
  }

  /** Values up to the closing bracket. */
  function ReadItems(s: string): (r: Option<(seq<Json>, string)>)
    ensures r.Some? ==> |r.value.1| < |s|
    decreases |s|, 1
  {
    var first := ReadValue(s);
    if first.None? then None
    else if Begins(first.value.1, "]") then Some(([first.value.0], first.value.1[1..]))
    else if Begins(first.value.1, ",") then
      var more := ReadItems(first.value.1[1..]);
      if more.None? then None else Some(([first.value.0] + more.value.0, more.value.1))
    else None
  }

  function ReadField(s: string): (r: Option<(Field, string)>)
    ensures r.Some? ==> |r.value.1| < |s|
    decreases |s|, 1
  {
    var key := S.ReadString(s);
    if key.None? || !Begins(key.value.1, ":") then None
    else
      var value := ReadValue(key.value.1[1..]);
      if value.None? then None else Some((Field(key.value.0, value.value.0), value.value.1))
  }

  function ReadFields(s: string): (r: Option<(seq<Field>, string)>)
    ensures r.Some? ==> |r.value.1| < |s|
    decreases |s|, 2
  {
    var first := ReadField(s);
    if first.None? then None
    else if Begins(first.value.1, "}") then Some(([first.value.0], first.value.1[1..]))
    else if Begins(first.value.1, ",") then
      var more := ReadFields(first.value.1[1..]);
      if more.None? then None else Some(([first.value.0] + more.value.0, more.value.1))
    else None
  }

  // ----- Reading what was written -----

  predicate Ends(rest: string) { rest == "" || rest[0] in {',', ']', '}'} }

  ghost predicate ReadsAs(t: string, v: Json, rest: string) { ReadValue(t + rest) == Some((v, rest)) }

  /** `t` is read as `v` wherever a value may end. */
  ghost predicate Reads(t: string, v: Json) {
    forall rest {:trigger ReadsAs(t, v, rest)} | Ends(rest) :: ReadsAs(t, v, rest)
  }

  lemma {:induction false} ReadsHead(t: string, v: Json)
    requires Reads(t, v)
    ensures t != "" && t[0] != ']'
  {
    assert ReadsAs(t, v, "");
    assert t + "" == t;
  }

  lemma {:induction false} JoinTail(parts: seq<string>, close: string)
    requires |parts| > 1
    ensures Join(parts) + close == parts[0] + ("," + (Join(parts[1..]) + close))
  {
  }

  lemma {:induction false} ReadItemsOf(texts: seq<string>, values: seq<Json>, rest: string)
    requires |texts| == |values| > 0 && forall i | 0 <= i < |texts| :: Reads(texts[i], values[i])
    ensures ReadItems(Join(texts) + ("]" + rest)) == Some((values, rest))
  {
    var close := "]" + rest;
    if |texts| == 1 {
      assert ReadsAs(texts[0], values[0], close);
      assert close[1..] == rest;
      assert values == [values[0]];
    } else {
      var more := Join(texts[1..]) + close;
      JoinTail(texts, close);
      assert ReadsAs(texts[0], values[0], "," + more);
      assert ("," + more)[1..] == more;
      ReadItemsOf(texts[1..], values[1..], rest);
      assert values == [values[0]] + values[1..];
    }
  }

  lemma {:induction false} ReadFieldOf(key: string, t: string, v: Json, rest: string)
    requires Reads(t, v) && Ends(rest)
    ensures ReadField(FieldText(key, t) + rest) == Some((Field(key, v), rest))
  {
    var tail := ":" + (t + rest);
    S.ReadQuoted(key, tail);
    assert FieldText(key, t) + rest == S.Quote(key) + tail;
    assert tail[1..] == t + rest;
    assert ReadsAs(t, v, rest);
  }

  ghost predicate FieldReads(t: string, f: Field) {
    exists inner :: Reads(inner, f.value) && t == FieldText(f.key, inner)
  }

  lemma {:induction false} FieldReadsAs(t: string, f: Field, rest: string)
    requires FieldReads(t, f) && Ends(rest)
    ensures ReadField(t + rest) == Some((f, rest))
  {
    var inner :| Reads(inner, f.value) && t == FieldText(f.key, inner);
    ReadFieldOf(f.key, inner, f.value, rest);
  }

  lemma {:induction false} FieldsClose(s: string, f: Field, rest: string)
    requires ReadField(s) == Some((f, "}" + rest))
    ensures ReadFields(s) == Some(([f], rest))
  {
    assert ("}" + rest)[1..] == rest;
  }

  lemma {:induction false} FieldsGoOn(s: string, f: Field, more: string, fields: seq<Field>, rest: string)
    requires ReadField(s) == Some((f, "," + more)) && ReadFields(more) == Some((fields, rest))
    ensures ReadFields(s) == Some(([f] + fields, rest))
  {
    assert ("," + more)[1..] == more;
  }

  lemma {:induction false} ReadFieldsOf(texts: seq<string>, fields: seq<Field>, rest: string)
    requires |texts| == |fields| > 0 && forall i | 0 <= i < |texts| :: FieldReads(texts[i], fields[i])
    ensures ReadFields(Join(texts) + ("}" + rest)) == Some((fields, rest))
  {
    var close := "}" + rest;
    var s := Join(texts) + close;
    if |texts| == 1 {
      FieldReadsAs(texts[0], fields[0], close);
      FieldsClose(s, fields[0], rest);
      assert fields == [fields[0]];
    } else {
      var more := Join(texts[1..]) + close;
      JoinTail(texts, close);
      FieldReadsAs(texts[0], fields[0], "," + more);
      ReadFieldsOf(texts[1..], fields[1..], rest);
      FieldsGoOn(s, fields[0], more, fields[1..], rest);
      assert fields == [fields[0]] + fields[1..];
    }
  }

  lemma {:induction false} TextReads(v: Json)
    requires WellKeyed(v)
    ensures Reads(Text(v), Canon(v))
    decreases v
  {
    match v
    case Null => LiteralReads(v);
    case Bool(_) => LiteralReads(v);
    case Num(x) => NumberReads(x);
    case Str(s) => StringReads(s);
    case Arr(items) =>
      forall i | 0 <= i < |items| ensures Reads(Text(items[i]), Canon(items[i])) {
        TextReads(items[i]);
      }
      ArrayReads(items);
    case Obj(fields) =>
      forall i | 0 <= i < |fields| ensures Reads(Text(fields[i].value), Canon(fields[i].value)) {
        TextReads(fields[i].value);
      }
      ObjectReads(fields);
  }

  lemma {:induction false} LiteralReads(v: Json)
    requires v.Null? || v.Bool?
    ensures Reads(Text(v), v)
  {
    forall rest | Ends(rest) ensures ReadsAs(Text(v), v, rest) {
      var s := Text(v) + rest;
      assert s[..|Text(v)|] == Text(v) && s[|Text(v)|..] == rest;
    }
  }

  lemma {:induction false} NumberStart(s: string)
    requires N.ReadNumber(s).Some?
    ensures s != "" && (s[0] == '-' || N.IsDigit(s[0]))
  {
  }

  lemma {:induction false} NumberRead(s: string, x: N.Number, rest: string)
    requires N.ReadNumber(s) == N.Some((x, rest)) && s != "" && (s[0] == '-' || N.IsDigit(s[0]))
    ensures ReadValue(s) == Some((Num(x), rest))
  {
  }

  lemma {:induction false} NumberReads(x: N.Number)
    ensures Reads(N.Text(x), Num(N.Canonical(x)))
  {
    forall rest | Ends(rest) ensures ReadsAs(N.Text(x), Num(N.Canonical(x)), rest) {
      var s := N.Text(x) + rest;
      N.ReadText(x, rest);
      NumberStart(s);
      NumberRead(s, N.Canonical(x), rest);
    }
  }

  lemma {:induction false} StringReads(s: string)
    ensures Reads(S.Quote(s), Str(s))
  {
    forall rest | Ends(rest) ensures ReadsAs(S.Quote(s), Str(s), rest) {
      S.ReadQuoted(s, rest);
    }
  }

  function Texts(items: seq<Json>): (r: seq<string>)
    ensures |r| == |items|
  {
    seq(|items|, i requires 0 <= i < |items| => Text(items[i]))
  }

  function Canons(items: seq<Json>): (r: seq<Json>)
    ensures |r| == |items|
  {
    seq(|items|, i requires 0 <= i < |items| => Canon(items[i]))
  }

  lemma {:induction false} ArrayReads(items: seq<Json>)
    requires forall i | 0 <= i < |items| :: Reads(Text(items[i]), Canon(items[i]))
    ensures Reads(Text(Arr(items)), Canon(Arr(items)))
  {
    var texts, values := Texts(items), Canons(items);
    assert Text(Arr(items)) == "[" + Join(texts) + "]" && Canon(Arr(items)) == Arr(values);
    forall i | 0 <= i < |texts| ensures Reads(texts[i], values[i]) {
    }
    BracketReads(texts, values);
  }

  lemma {:induction false} BracketReads(texts: seq<string>, values: seq<Json>)
    requires |texts| == |values| && forall i | 0 <= i < |texts| :: Reads(texts[i], values[i])
    ensures Reads("[" + Join(texts) + "]", Arr(values))
  {
    forall rest | Ends(rest) ensures ReadsAs("[" + Join(texts) + "]", Arr(values), rest) {
      var s := "[" + Join(texts) + "]" + rest;
      var body := Join(texts) + ("]" + rest);
      assert s[1..] == body;
      if texts == [] {
        assert s[2..] == rest;
      } else {
        ReadItemsOf(texts, values, rest);
        ReadsHead(texts[0], values[0]);
        JoinHead(texts);
      }
    }
  }

  lemma {:induction false} JoinHead(texts: seq<string>)
    requires texts != [] && texts[0] != ""
    ensures Join(texts) != "" && Join(texts)[0] == texts[0][0]
  {
  }

  lemma {:induction false} BraceReads(texts: seq<string>, fields: seq<Field>)
    requires |texts| == |fields| && forall i | 0 <= i < |texts| :: FieldReads(texts[i], fields[i])
    requires DistinctKeys(fields)
    ensures Reads("{" + Join(texts) + "}", Obj(fields))
  {
    forall rest | Ends(rest) ensures ReadsAs("{" + Join(texts) + "}", Obj(fields), rest) {
      var body := Join(texts) + ("}" + rest);
      assert "{" + Join(texts) + "}" + rest == "{" + body;
      if texts == [] {
        EmptyBrace(rest);
      } else {
        ReadFieldsOf(texts, fields, rest);
        FieldHead(texts[0], fields[0]);
        JoinHead(texts);
        FullBrace(body, fields, rest);
      }
    }
  }

  lemma {:induction false} EmptyBrace(rest: string)
    ensures ReadValue("{" + ("" + ("}" + rest))) == Some((Obj([]), rest))
  {
    var s := "{" + ("" + ("}" + rest));
    assert s[1..] == "}" + rest && s[2..] == rest;
  }

  lemma {:induction false} FullBrace(body: string, fields: seq<Field>, rest: string)
    requires ReadFields(body) == Some((fields, rest)) && DistinctKeys(fields) && body != "" && body[0] != '}'
    ensures ReadValue("{" + body) == Some((Obj(fields), rest))
  {
    assert ("{" + body)[1..] == body;
  }

  lemma {:induction false} FieldHead(t: string, f: Field)
    requires FieldReads(t, f)
    ensures t != "" && t[0] == '\"'
  {
    var inner :| Reads(inner, f.value) && t == FieldText(f.key, inner);
  }

  lemma {:induction false} ObjectReads(fields: seq<Field>)
    requires DistinctKeys(fields)
    requires forall i | 0 <= i < |fields| :: Reads(Text(fields[i].value), Canon(fields[i].value))
    ensures Reads(Text(Obj(fields)), Canon(Obj(fields)))
  {
    ObjText(fields);
    ObjCanon(fields);
    var sorted := SortFields(fields);
    SortFieldsMembers(fields);
    SortFieldsDistinct(fields);
    var texts, canons := MapFields(TEXT, sorted), MapFields(CANON, sorted);
    forall i | 0 <= i < |sorted| ensures FieldReads(texts[i], canons[i]) {
      assert sorted[i] in fields;
      assert texts[i] == FieldText(sorted[i].key, Text(sorted[i].value));
    }
    BraceReads(texts, canons);
  }

  lemma {:induction false} SortFieldsDistinct(fields: seq<Field>)
    requires DistinctKeys(fields)
    ensures K.Distinct(Entries(fields)) && DistinctKeys(SortFields(fields))
  {
    var es := Entries(fields);
    forall i, j | 0 <= i < j < |es| ensures es[i].key != es[j].key {
      if es[i].key == es[j].key {
        CodesInjective(fields[i].key, fields[j].key);
      }
    }
    K.SortDistinct(es);
    K.SortEntries(es);
    var sorted := K.Sort(es);
    forall i, j | 0 <= i < j < |sorted| ensures sorted[i].value.key != sorted[j].value.key {
      assert sorted[i] in es && sorted[j] in es;
      assert sorted[i].key == Codes(sorted[i].value.key) && sorted[j].key == Codes(sorted[j].value.key);
    }
  }

  /** Reading a printed value gives its canonical form and nothing is left. */
  lemma {:induction false} ReadPrinted(v: Json)
    requires WellKeyed(v)
    ensures ReadValue(Text(v)) == Some((Canon(v), ""))
  {
    TextReads(v);
    assert ReadsAs(Text(v), Canon(v), "");
    assert Text(v) + "" == Text(v);
  }

  // ----- Canonical values are fixed points -----

  lemma {:induction false} SortedStays(fields: seq<Field>)
    requires DistinctKeys(fields)
    ensures
      var canons := MapFields(CANON, SortFields(fields));
      SortFields(canons) == canons && DistinctKeys(canons)
  {
    var sorted := SortFields(fields);
    var canons := MapFields(CANON, sorted);
    SortFieldsDistinct(fields);
    K.SortSorts(Entries(fields));
    EntriesOfSorted(fields);
    assert K.Sorted(Entries(sorted));
    var es := Entries(canons);
    assert forall i | 0 <= i < |es| :: es[i].key == Entries(sorted)[i].key;
    K.SortAgain(es);
    assert Values(es) == canons;
  }

  lemma {:induction false} EntriesOfSorted(fields: seq<Field>)
    ensures Entries(SortFields(fields)) == K.Sort(Entries(fields))
  {
    var es := Entries(fields);
    var sorted := K.Sort(es);
    K.SortEntries(es);
    forall i | 0 <= i < |sorted| ensures Entries(SortFields(fields))[i] == sorted[i] {
      assert sorted[i] in es;
    }
  }

  /** The canonical form prints the same. */
  lemma {:induction false} TextCanon(v: Json)
    requires WellKeyed(v)
    ensures Text(Canon(v)) == Text(v) && WellKeyed(Canon(v))
    decreases v
  {
    match v
    case Num(x) => N.CanonicalFixed(x);
    case Arr(items) =>
      forall i | 0 <= i < |items| ensures Text(Canon(items[i])) == Text(items[i]) && WellKeyed(Canon(items[i])) {
        TextCanon(items[i]);
      }
      assert Canon(v) == Arr(Canons(items));
      assert Texts(Canons(items)) == Texts(items);
    case Obj(fields) =>
      forall i | 0 <= i < |fields|
        ensures Text(Canon(fields[i].value)) == Text(fields[i].value) && WellKeyed(Canon(fields[i].value))
      {
        TextCanon(fields[i].value);
      }
      ObjTextCanon(fields);
    case _ =>
  }

  lemma {:induction false} ObjTextCanon(fields: seq<Field>)
    requires DistinctKeys(fields)
    requires forall i | 0 <= i < |fields| ::
      Text(Canon(fields[i].value)) == Text(fields[i].value) && WellKeyed(Canon(fields[i].value))
    ensures Text(Canon(Obj(fields))) == Text(Obj(fields)) && WellKeyed(Canon(Obj(fields)))
  {
    var sorted := SortFields(fields);
    var canons := MapFields(CANON, sorted);
    ObjText(fields);
    ObjCanon(fields);
    ObjText(canons);
    SortedStays(fields);
    SortFieldsMembers(fields);
    forall i | 0 <= i < |sorted| ensures TEXT(canons[i]) == TEXT(sorted[i]) && WellKeyed(canons[i].value) {
      assert sorted[i] in fields;
    }
    assert MapFields(TEXT, canons) == MapFields(TEXT, sorted);
  }

  /** Two values print the same exactly when they have one canonical form. */
  lemma {:induction false} TextDecidesCanon(v: Json, w: Json)
    requires WellKeyed(v) && WellKeyed(w)
    ensures Text(v) == Text(w) <==> Canon(v) == Canon(w)
  {
    ReadPrinted(v);
    ReadPrinted(w);
    TextCanon(v);
    TextCanon(w);
  }

  lemma {:induction false} CanonAgain(v: Json)
    requires WellKeyed(v)
    ensures Canon(Canon(v)) == Canon(v)
  {
    TextCanon(v);
    TextDecidesCanon(Canon(v), v);
  }

  // ----- Equal up to key order and numeric spelling -----

  ghost predicate Same(v: Json, w: Json)
    decreases v, 0
  {
    match v
    case Null => w.Null?
    case Bool(b) => w == v
    case Num(x) => w.Num? && N.SameValue(x, w.number)
    case Str(_) => w == v
    case Arr(items) => w.Arr? && |items| == |w.items| && forall i | 0 <= i < |items| :: Same(items[i], w.items[i])
    case Obj(fields) =>
      && w.Obj?
      && (forall i | 0 <= i < |fields| :: HasSame(fields[i], w.fields))
      && (forall j | 0 <= j < |w.fields| :: IsSameOf(fields, w.fields[j]))
  }

  ghost predicate SameField(f: Field, g: Field)
    decreases f, 0
  {
    f.key == g.key && Same(f.value, g.value)
  }

  ghost predicate HasSame(f: Field, b: seq<Field>)
    decreases f, 1
  {
    exists j :: 0 <= j < |b| && SameField(f, b[j])
  }

  ghost predicate IsSameOf(a: seq<Field>, g: Field)
    decreases a, 1
  {
    exists i :: 0 <= i < |a| && SameField(a[i], g)
  }

  /** Field `i` has a partner of its key and canonical value. */
  ghost predicate Partner(f: Field, g: Field) { f.key == g.key && Canon(f.value) == Canon(g.value) }

  ghost predicate HasPartner(f: Field, b: seq<Field>) { exists j :: 0 <= j < |b| && Partner(f, b[j]) }

  ghost predicate Matched(a: seq<Field>, b: seq<Field>) { forall i | 0 <= i < |a| :: HasPartner(a[i], b) }

  lemma {:induction false} CanonEntries(fields: seq<Field>)
    requires DistinctKeys(fields)
    ensures K.Distinct(K.MapValues(CANON, Entries(fields)))
    ensures Canon(Obj(fields)) == Obj(Values(K.Sort(K.MapValues(CANON, Entries(fields)))))
  {
    SortFieldsDistinct(fields);
    var es := K.MapValues(CANON, Entries(fields));
    SortedImages(CANON, fields, es);
    ObjCanon(fields);
  }

  lemma {:induction false} MatchedEntries(a: seq<Field>, b: seq<Field>)
    ensures Matched(a, b) <==> forall e | e in K.MapValues(CANON, Entries(a)) :: e in K.MapValues(CANON, Entries(b))
  {
    var x, y := K.MapValues(CANON, Entries(a)), K.MapValues(CANON, Entries(b));
    if Matched(a, b) {
      forall e | e in x ensures e in y {
        var i :| 0 <= i < |x| && x[i] == e;
        assert HasPartner(a[i], b);
        var j :| 0 <= j < |b| && Partner(a[i], b[j]);
        assert y[j] == e;
      }
    }
    if forall e | e in x :: e in y {
      forall i | 0 <= i < |a| ensures HasPartner(a[i], b) {
        assert x[i] in y;
        var j :| 0 <= j < |y| && y[j] == x[i];
        assert y[j].value == CANON(b[j]) && x[i].value == CANON(a[i]);
        assert Partner(a[i], b[j]);
      }
    }
  }

  lemma {:induction false} ValuesDecide(a: seq<Field>, b: seq<Field>)
    ensures
      var x, y := K.Sort(K.MapValues(CANON, Entries(a))), K.Sort(K.MapValues(CANON, Entries(b)));
      Values(x) == Values(y) <==> x == y
  {
    var p, q := K.MapValues(CANON, Entries(a)), K.MapValues(CANON, Entries(b));
    var x, y := K.Sort(p), K.Sort(q);
    K.SortEntries(p);
    K.SortEntries(q);
    if Values(x) == Values(y) {
      forall i | 0 <= i < |x| ensures x[i] == y[i] {
        assert x[i] in p && y[i] in q;
        assert x[i].key == Codes(x[i].value.key) && y[i].key == Codes(y[i].value.key);
        assert Values(x)[i] == Values(y)[i];
      }
    }
  }

  /** Objects have one canonical form exactly when their fields match, in any order. */
  lemma {:induction false} ObjCanonEqual(a: seq<Field>, b: seq<Field>)
    requires DistinctKeys(a) && DistinctKeys(b)
    ensures Canon(Obj(a)) == Canon(Obj(b)) <==> Matched(a, b) && Matched(b, a)
  {
    var x, y := K.MapValues(CANON, Entries(a)), K.MapValues(CANON, Entries(b));
    CanonEntries(a);
    CanonEntries(b);
    ValuesDecide(a, b);
    K.SortCanonical(x, y);
    MatchedEntries(a, b);
    MatchedEntries(b, a);
  }

  lemma {:induction false} SameIsCanon(v: Json, w: Json)
    requires WellKeyed(v) && WellKeyed(w)
    ensures Same(v, w) <==> Canon(v) == Canon(w)
    decreases v
  {
    if v.Num? && w.Num? {
      N.TextDecidesValue(v.number, w.number);
    } else if v.Arr? && w.Arr? {
      forall i | 0 <= i < |v.items| && i < |w.items| ensures Same(v.items[i], w.items[i]) <==> Canon(v.items[i]) == Canon(w.items[i]) {
        SameIsCanon(v.items[i], w.items[i]);
      }
      ArrCanonEqual(v.items, w.items);
    } else if v.Obj? && w.Obj? {
      forall i, j ensures Agree(v.fields, w.fields, i, j) {
        if 0 <= i < |v.fields| && 0 <= j < |w.fields| {
          SameIsCanon(v.fields[i].value, w.fields[j].value);
        }
      }
      SameFields(v, w);
      ObjCanonEqual(v.fields, w.fields);
    }
  }

  lemma {:induction false} ArrCanonEqual(a: seq<Json>, b: seq<Json>)
    ensures Canon(Arr(a)) == Canon(Arr(b)) <==> |a| == |b| && forall i | 0 <= i < |a| :: Canon(a[i]) == Canon(b[i])
  {
    assert Canon(Arr(a)) == Arr(Canons(a)) && Canon(Arr(b)) == Arr(Canons(b));
    if Canons(a) == Canons(b) {
      forall i | 0 <= i < |a| ensures Canon(a[i]) == Canon(b[i]) {
        assert Canons(a)[i] == Canons(b)[i];
      }
    }
  }

  ghost predicate Agree(a: seq<Field>, b: seq<Field>, i: int, j: int) {
    0 <= i < |a| && 0 <= j < |b| ==> (SameField(a[i], b[j]) <==> Partner(a[i], b[j]))
  }

  ghost predicate AllAgree(a: seq<Field>, b: seq<Field>) {
    forall i, j {:trigger Agree(a, b, i, j)} :: Agree(a, b, i, j)
  }

  lemma {:induction false} SameThere(a: seq<Field>, b: seq<Field>, i: nat)
    requires AllAgree(a, b) && i < |a|
    ensures HasSame(a[i], b) <==> HasPartner(a[i], b)
  {
    if HasSame(a[i], b) {
      var j :| 0 <= j < |b| && SameField(a[i], b[j]);
      assert Agree(a, b, i, j);
    }
    if HasPartner(a[i], b) {
      var j :| 0 <= j < |b| && Partner(a[i], b[j]);
      assert Agree(a, b, i, j);
    }
  }

  lemma {:induction false} SameBack(a: seq<Field>, b: seq<Field>, j: nat)
    requires AllAgree(a, b) && j < |b|
    ensures IsSameOf(a, b[j]) <==> HasPartner(b[j], a)
  {
    if IsSameOf(a, b[j]) {
      var i :| 0 <= i < |a| && SameField(a[i], b[j]);
      assert Agree(a, b, i, j);
      assert Partner(b[j], a[i]);
    }
    if HasPartner(b[j], a) {
      var i :| 0 <= i < |a| && Partner(b[j], a[i]);
      assert Agree(a, b, i, j);
      assert SameField(a[i], b[j]);
    }
  }

  lemma {:induction false} SameFields(v: Json, w: Json)
    requires v.Obj? && w.Obj? && AllAgree(v.fields, w.fields)
    ensures Same(v, w) <==> Matched(v.fields, w.fields) && Matched(w.fields, v.fields)
  {
    forall i: nat | i < |v.fields| ensures HasSame(v.fields[i], w.fields) <==> HasPartner(v.fields[i], w.fields) {
      SameThere(v.fields, w.fields, i);
    }
    forall j: nat | j < |w.fields| ensures IsSameOf(v.fields, w.fields[j]) <==> HasPartner(w.fields[j], v.fields) {
      SameBack(v.fields, w.fields, j);
    }
  }

  /** Two values print the same exactly when they agree up to key order and numeric spelling. */
  lemma {:induction false} TextDecidesSame(v: Json, w: Json)
    requires WellKeyed(v) && WellKeyed(w)
    ensures Text(v) == Text(w) <==> Same(v, w)
  {
    TextDecidesCanon(v, w);
    SameIsCanon(v, w);
  }
}
