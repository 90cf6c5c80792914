/** Encoding a plan to canonical text and decoding it again. */
module InterchangeDocument {
  import K = KeyedSort
  import N = CanonicalNumber
  import S = JsonString
  import opened JsonText
  import opened InterchangeSchema
  import opened JsonBudget
  import opened InterchangeRules

  const MAX_DOCUMENT_BYTES: nat := 256 * 1024

  // ----- The scan before parsing -----

  datatype Scan = Refused | At(depth: nat, inString: bool, escaped: bool)

  const OUTSIDE: Scan := At(0, false, false)

  function Step(s: Scan, c: char): Scan {
    if s.Refused? then s
    else if s.inString then
      if s.escaped then s.(escaped := false)
      else if c == '\\' then s.(escaped := true)
      else if c == '\"' then s.(inString := false)
      else if c as int < 0x20 then Refused
      else s
    else if c == '\"' then s.(inString := true)
    else if c == '[' || c == '{' then (if s.depth + 1 > MAX_NESTING then Refused else s.(depth := s.depth + 1))
    else if c == ']' || c == '}' then (if s.depth == 0 then Refused else s.(depth := s.depth - 1))
    else s
  }

  function ScanAll(s: Scan, text: string): Scan
    decreases |text|
  {
    if text == "" then s else ScanAll(Step(s, text[0]), text[1..])
  }

  predicate Admissible(text: string) { |text| <= MAX_DOCUMENT_BYTES && ScanAll(OUTSIDE, text) == OUTSIDE }

  /** The character loop: depth, string and escape flags. */
  method Preflight(text: string) returns (ok: bool)
    ensures ok <==> Admissible(text)
  {
    if |text| > MAX_DOCUMENT_BYTES { return false; }
    var depth: nat, inString, escaped := 0, false, false;
    for i := 0 to |text|
      invariant escaped ==> inString
      invariant ScanAll(OUTSIDE, text) == ScanAll(At(depth, inString, escaped), text[i..])
    {
      var c := text[i];
      ScanOne(At(depth, inString, escaped), text, i);
      if inString {
        if escaped {
          escaped := false;
        } else if c == '\\' {
          escaped := true;
        } else if c == '\"' {
          inString := false;
        } else if c as int < 0x20 {
          ScanRefused(text[i + 1..]);
          return false;
        }
      } else if c == '\"' {
        inString := true;
      } else if c == '[' || c == '{' {
        depth := depth + 1;
        if depth > MAX_NESTING {
          ScanRefused(text[i + 1..]);
          return false;
        }
      } else if c == ']' || c == '}' {
        if depth == 0 {
          ScanRefused(text[i + 1..]);
          return false;
        }
        depth := depth - 1;
      }
    }
    ok := !(inString || escaped || depth != 0);
  }

  lemma {:induction false} ScanOne(s: Scan, text: string, i: nat)
    requires i < |text|
    ensures ScanAll(s, text[i..]) == ScanAll(Step(s, text[i]), text[i + 1..])
  {
    assert text[i..][1..] == text[i + 1..];
  }

  lemma {:induction false} ScanRefused(text: string)
    ensures ScanAll(Refused, text) == Refused
  {
    if text != "" {
      ScanRefused(text[1..]);
    }
  }

  lemma {:induction false} ScanAppend(s: Scan, a: string, b: string)
    ensures ScanAll(s, a + b) == ScanAll(ScanAll(s, a), b)
    decreases |a|
  {
    if a == "" {
      assert a + b == b;
    } else {
      ScanAppend(Step(s, a[0]), a[1..], b);
      assert (a + b)[1..] == a[1..] + b;
    }
  }

  lemma {:induction false} ScanChar(s: Scan, c: char)
    ensures ScanAll(s, [c]) == Step(s, c)
  {
    assert [c][1..] == "";
  }

  // ----- Scanning printed text -----

  predicate Neutral(c: char) { c !in {'\"', '[', ']', '{', '}'} }

  lemma {:induction false} ScanNeutral(d: nat, text: string)
    requires forall i | 0 <= i < |text| :: Neutral(text[i])
    ensures ScanAll(At(d, false, false), text) == At(d, false, false)
  {
    if text != "" {
      assert Neutral(text[0]);
      ScanNeutral(d, text[1..]);
    }
  }

  predicate Inner(c: char) { c !in {'\"', '\\'} && c as int >= 0x20 }

  lemma {:induction false} ScanInner(d: nat, text: string)
    requires forall i | 0 <= i < |text| :: Inner(text[i])
    ensures ScanAll(At(d, true, false), text) == At(d, true, false)
  {
    if text != "" {
      assert Inner(text[0]);
      ScanInner(d, text[1..]);
    }
  }

  lemma {:induction false} ScanBackslash(d: nat, c: char)
    ensures ScanAll(At(d, true, false), ['\\', c]) == At(d, true, false)
  {
    assert ['\\', c] == ['\\'] + [c];
    ScanAppend(At(d, true, false), ['\\'], [c]);
    ScanChar(At(d, true, false), '\\');
    ScanChar(At(d, true, true), c);
  }

  lemma {:induction false} HexInner(n: nat)
    requires n < 16
    ensures Inner(S.Hex(n))
  {
  }

  lemma {:induction false} ScanUnicode(d: nat, n: nat)
    requires n < 0x10000
    ensures ScanAll(At(d, true, false), S.UnicodeEscape(n)) == At(d, true, false)
  {
    var h := S.Hex4(n);
    HexInner(n / 4096);
    HexInner(n / 256 % 16);
    HexInner(n / 16 % 16);
    HexInner(n % 16);
    ScanAppend(At(d, true, false), ['\\', 'u'], h);
    ScanBackslash(d, 'u');
    ScanInner(d, h);
  }

  lemma {:induction false} ScanEscape(d: nat, c: char)
    ensures ScanAll(At(d, true, false), S.Escape(c)) == At(d, true, false)
  {
    if S.ShortEscape(c).Some? {
      ScanBackslash(d, S.ShortEscape(c).value);
    } else if 0x20 <= c as int <= 0x7E {
      ScanInner(d, [c]);
    } else if c as int < 0x10000 {
      ScanUnicode(d, c as int);
    } else {
      ScanAppend(At(d, true, false), S.UnicodeEscape(S.High(c)), S.UnicodeEscape(S.Low(c)));
      ScanUnicode(d, S.High(c));
      ScanUnicode(d, S.Low(c));
    }
  }

  lemma {:induction false} ScanBody(d: nat, s: string)
    ensures ScanAll(At(d, true, false), S.EscapeAll(s)) == At(d, true, false)
  {
    if s != "" {
      ScanAppend(At(d, true, false), S.Escape(s[0]), S.EscapeAll(s[1..]));
      ScanEscape(d, s[0]);
      ScanBody(d, s[1..]);
    }
  }

  lemma {:induction false} ScanQuote(d: nat, s: string)
    ensures ScanAll(At(d, false, false), S.Quote(s)) == At(d, false, false)
  {
    var outside, inside := At(d, false, false), At(d, true, false);
    var body := S.EscapeAll(s);
    assert S.Quote(s) == ("\"" + body) + "\"";
    ScanAppend(outside, "\"" + body, "\"");
    ScanAppend(outside, "\"", body);
    ScanChar(outside, '\"');
    ScanBody(d, s);
    ScanChar(inside, '\"');
  }

  ghost predicate Numeric(s: string) { forall i | 0 <= i < |s| :: N.IsDigit(s[i]) || s[i] == '-' || s[i] == '.' }

  lemma {:induction false} NumberText(x: N.Number)
    ensures Numeric(N.Text(x))
  {
    N.TextIsRender(x);
    var r := N.Reduce(x);
    N.DigitsRoundTrip(r.coefficient);
    N.DigitsRoundTrip(N.Shift(r.coefficient, r.places));
    N.FractionDigits(r.coefficient, r.places);
  }

  /** Every container must leave room for one more level. */
  predicate HeadNests(h: Head, depth: nat) { h.ArrayHead? || h.ObjectHead? ==> depth < MAX_NESTING }

  const NESTING: Limit := (h: Head, depth: nat) => HeadNests(h, depth)

  function After(ok: bool, d: nat): Scan { if ok then At(d, false, false) else Refused }

  /** What scanning the parts of a container one by one comes to. */
  lemma {:induction false} ScanJoin(d: nat, parts: seq<string>, ok: seq<bool>)
    requires |parts| == |ok| && forall i | 0 <= i < |parts| :: ScanAll(At(d, false, false), parts[i]) == After(ok[i], d)
    ensures ScanAll(At(d, false, false), Join(parts)) == After(forall i | 0 <= i < |ok| :: ok[i], d)
  {
    var s := At(d, false, false);
    if |parts| > 1 {
      var tail := "," + Join(parts[1..]);
      assert Join(parts) == parts[0] + tail;
      ScanAppend(s, parts[0], tail);
      ScanJoin(d, parts[1..], ok[1..]);
      if ok[0] {
        ScanAppend(s, ",", Join(parts[1..]));
        ScanChar(s, ',');
        assert (forall i | 0 <= i < |ok| :: ok[i]) <==> forall i | 0 <= i < |ok[1..]| :: ok[1..][i] by {
          if forall i | 0 <= i < |ok[1..]| :: ok[1..][i] {
            forall i | 0 <= i < |ok| ensures ok[i] {
              assert i > 0 ==> ok[i] == ok[1..][i - 1];
            }
          }
        }
      } else {
        ScanRefused(tail);
      }
    }
  }

  lemma {:induction false} ScanWrapped(d: nat, open: char, body: string, close: char, ok: bool)
    requires (open == '[' && close == ']') || (open == '{' && close == '}')
    requires d < MAX_NESTING ==> ScanAll(At(d + 1, false, false), body) == After(ok, d + 1)
    ensures ScanAll(At(d, false, false), [open] + body + [close]) == After(d < MAX_NESTING && ok, d)
  {
    var s := At(d, false, false);
    ScanAppend(s, [open] + body, [close]);
    ScanAppend(s, [open], body);
    ScanChar(s, open);
    if d < MAX_NESTING {
      ScanChar(At(d + 1, false, false), close);
      ScanRefused([close]);
    } else {
      ScanRefused(body);
      ScanRefused([close]);
    }
  }

  lemma {:induction false} ScanLiteral(d: nat, text: string)
    requires text in {"null", "true", "false"}
    ensures ScansTo(d, text, true)
  {
    ScanNeutral(d, text);
  }

  lemma {:induction false} ScanNumber(d: nat, x: N.Number)
    ensures ScansTo(d, N.Text(x), true)
  {
    NumberText(x);
    ScanNeutral(d, N.Text(x));
  }

  lemma {:induction false} LeafNests(v: Json, d: nat)
    requires !v.Arr? && !v.Obj?
    ensures Keeps(NESTING, v, d)
  {
  }

  lemma {:induction false} ScanLeaf(v: Json, d: nat)
    requires !v.Arr? && !v.Obj?
    ensures ScansTo(d, Text(v), Keeps(NESTING, v, d))
  {
    LeafNests(v, d);
    match v
    case Null => ScanLiteral(d, "null");
    case Bool(_) => ScanLiteral(d, Text(v));
    case Num(x) => ScanNumber(d, x);
    case Str(s) => ScanQuote(d, s);
  }

  /** The scan lets a printed value through exactly when its containers nest within the limit. */
  lemma {:induction false} ScanText(v: Json, d: nat)
    ensures ScansTo(d, Text(v), Keeps(NESTING, v, d))
    decreases v
  {
    match v
    case Arr(items) =>
      forall i | 0 <= i < |items| ensures ScansTo(d + 1, Text(items[i]), Keeps(NESTING, items[i], d + 1)) {
        ScanText(items[i], d + 1);
      }
      ScanItems(items, d);
    case Obj(fields) =>
      forall i | 0 <= i < |fields|
        ensures ScansTo(d + 1, Text(fields[i].value), Keeps(NESTING, fields[i].value, d + 1))
      {
        ScanText(fields[i].value, d + 1);
      }
      ScanFields(fields, d);
    case _ => ScanLeaf(v, d);
  }

  ghost predicate ScansTo(d: nat, t: string, ok: bool) { ScanAll(At(d, false, false), t) == After(ok, d) }

  ghost predicate AllTrue(ok: seq<bool>) { forall i | 0 <= i < |ok| :: ok[i] }

  lemma {:induction false} ScanContainer(d: nat, open: char, parts: seq<string>, close: char, ok: seq<bool>)
    requires (open == '[' && close == ']') || (open == '{' && close == '}')
    requires |parts| == |ok| && forall i | 0 <= i < |parts| :: ScansTo(d + 1, parts[i], ok[i])
    ensures ScansTo(d, [open] + Join(parts) + [close], d < MAX_NESTING && AllTrue(ok))
  {
    forall i | 0 <= i < |parts| ensures ScanAll(At(d + 1, false, false), parts[i]) == After(ok[i], d + 1) {
      assert ScansTo(d + 1, parts[i], ok[i]);
    }
    ScanJoin(d + 1, parts, ok);
    ScanWrapped(d, open, Join(parts), close, AllTrue(ok));
  }

  lemma {:induction false} ScanItems(items: seq<Json>, d: nat)
    requires forall i | 0 <= i < |items| :: ScansTo(d + 1, Text(items[i]), Keeps(NESTING, items[i], d + 1))
    ensures ScansTo(d, Text(Arr(items)), Keeps(NESTING, Arr(items), d))
  {
    var parts, ok := Texts(items), NestFlags(items, d + 1);
    ScanContainer(d, '[', parts, ']', ok);
    ArrText(items);
    ItemsNest(items, ok, d);
  }

  lemma {:induction false} ArrText(items: seq<Json>)
    ensures Text(Arr(items)) == ['['] + Join(Texts(items)) + [']']
  {
  }

  function NestFlags(items: seq<Json>, d: nat): (r: seq<bool>)
    ensures |r| == |items| && forall i | 0 <= i < |items| :: r[i] == Keeps(NESTING, items[i], d)
  {
    seq(|items|, i requires 0 <= i < |items| => Keeps(NESTING, items[i], d))
  }

  lemma {:induction false} ItemsNest(items: seq<Json>, ok: seq<bool>, d: nat)
    requires |ok| == |items| && forall i | 0 <= i < |items| :: ok[i] == Keeps(NESTING, items[i], d + 1)
    ensures Keeps(NESTING, Arr(items), d) <==> d < MAX_NESTING && AllTrue(ok)
  {
  }

  lemma {:induction false} ScanFieldText(d: nat, key: string, t: string, ok: bool)
    requires ScanAll(At(d, false, false), t) == After(ok, d)
    ensures ScanAll(At(d, false, false), FieldText(key, t)) == After(ok, d)
  {
    var s := At(d, false, false);
    ScanAppend(s, S.Quote(key) + ":", t);
    ScanAppend(s, S.Quote(key), ":");
    ScanQuote(d, key);
    ScanChar(s, ':');
  }

  lemma {:induction false} ScanFields(fields: seq<Field>, d: nat)
    requires forall i | 0 <= i < |fields| :: ScansTo(d + 1, Text(fields[i].value), Keeps(NESTING, fields[i].value, d + 1))
    ensures ScansTo(d, Text(Obj(fields)), Keeps(NESTING, Obj(fields), d))
  {
    var sorted := SortFields(fields);
    var parts, ok := MapFields(TEXT, sorted), NestFlags(FieldValues(sorted), d + 1);
    SortFieldsMembers(fields);
    forall i | 0 <= i < |parts| ensures ScansTo(d + 1, parts[i], ok[i]) {
      assert sorted[i] in fields;
      var j :| 0 <= j < |fields| && fields[j] == sorted[i];
      ScanFieldText(d + 1, sorted[i].key, Text(sorted[i].value), ok[i]);
    }
    ScanContainer(d, '{', parts, '}', ok);
    ObjText(fields);
    FieldsNest(fields, sorted, ok, d);
  }

  lemma {:induction false} FieldsNest(fields: seq<Field>, sorted: seq<Field>, ok: seq<bool>, d: nat)
    requires |ok| == |sorted| && forall f :: f in sorted <==> f in fields
    requires forall i | 0 <= i < |sorted| :: ok[i] == Keeps(NESTING, sorted[i].value, d + 1)
    ensures Keeps(NESTING, Obj(fields), d) <==> d < MAX_NESTING && AllTrue(ok)
  {
    if AllTrue(ok) {
      forall i | 0 <= i < |fields| ensures Keeps(NESTING, fields[i].value, d + 1) {
        assert fields[i] in sorted;
        var j :| 0 <= j < |sorted| && sorted[j] == fields[i];
        assert ok[j];
      }
    }
    if Keeps(NESTING, Obj(fields), d) {
      forall i | 0 <= i < |ok| ensures ok[i] {
        assert sorted[i] in fields;
      }
    }
  }

  // ----- Encoding and decoding -----

  /** The rules on field values: units, ranges, enumerations, fixed fields. */
  type Rules = Json -> bool

  ghost predicate Valid(rules: Rules, d: Json) {
    WithinBudget(d) && UniquenessRules(d) && ReferenceRules(d) && rules(d)
  }

  function EncodedText(d: Json): string { Text(Normalize(DOCUMENT, d)) }

  ghost function Encode(rules: Rules, d: Json): Option<string> {
    if Valid(rules, d) && |EncodedText(d)| <= MAX_DOCUMENT_BYTES then Some(EncodedText(d)) else None
  }

  function TokenOk(h: Head): bool {
    h.NumberHead? && h.number.Int? ==> |N.Digits(if h.number.n < 0 then -h.number.n else h.number.n)| <= 20
  }

  const TOKENS: Limit := (h: Head, depth: nat) => TokenOk(h)

  function ReadWhole(text: string): Option<Json> {
    if ReadValue(text).Some? && ReadValue(text).value.1 == "" then Some(ReadValue(text).value.0) else None
  }

  ghost predicate Decodes(rules: Rules, text: string) {
    && Admissible(text) && ReadWhole(text).Some?
    && Keeps(TOKENS, ReadWhole(text).value, 0) && Valid(rules, ReadWhole(text).value)
  }

  /** The scan, the reader with its token limits, and the same checks as before encoding. */
  ghost function Decode(rules: Rules, text: string): Option<Json> {
    if Decodes(rules, text) then ReadWhole(text) else None
  }

  /** Two documents encode to the same text exactly when they are the same plan. */
  lemma {:induction false} EncodeDecides(rules: Rules, a: Json, b: Json)
    requires WellKeyed(a) && WellKeyed(b) && Encode(rules, a).Some? && Encode(rules, b).Some?
    ensures Encode(rules, a) == Encode(rules, b) <==> SameUnder(DOCUMENT, a, b)
  {
    DocumentOk();
    RulesFit(a);
    RulesFit(b);
    NormalizeKeepsKeys(DOCUMENT, a);
    NormalizeKeepsKeys(DOCUMENT, b);
    TextDecidesCanon(Normalize(DOCUMENT, a), Normalize(DOCUMENT, b));
    ImageDecides(DOCUMENT, a, b);
  }

  predicate HeadReturns(h: Head, depth: nat) { h.NumberHead? ==> WholeFits(h.number) }

  const RETURNS: Limit := (h: Head, depth: nat) => HeadReturns(h, depth)

  /** What a document needs to come back: room for its containers, and whole numbers of word size. */
  ghost predicate ComesBack(d: Json) { Keeps(NESTING, d, 0) && Keeps(RETURNS, d, 0) }

  lemma {:induction false} HeadBudget(h: Head, depth: nat)
    requires HeadOk(h, depth)
    ensures OnCanon(BUDGET)(h, depth) <==> HeadReturns(h, depth)
    ensures OnCanon(NESTING)(h, depth) <==> NESTING(h, depth)
    ensures HeadReturns(h, depth) ==> OnCanon(TOKENS)(h, depth)
  {
    if h.NumberHead? {
      CanonicalOk(h.number);
      var c := N.Canonical(h.number);
      if c.Int? && FitsWord(c.n) {
        WordDigits(if c.n < 0 then -c.n else c.n);
      }
    }
  }

  lemma {:induction false} KeepsBudget(v: Json, depth: nat)
    requires Keeps(BUDGET, v, depth)
    ensures Keeps(OnCanon(BUDGET), v, depth) <==> Keeps(RETURNS, v, depth)
    ensures Keeps(OnCanon(NESTING), v, depth) <==> Keeps(NESTING, v, depth)
    ensures Keeps(RETURNS, v, depth) ==> Keeps(OnCanon(TOKENS), v, depth)
    decreases v
  {
    HeadBudget(HeadOf(v), depth);
    match v
    case Arr(items) =>
      forall i | 0 <= i < |items|
        ensures Keeps(OnCanon(BUDGET), items[i], depth + 1) <==> Keeps(RETURNS, items[i], depth + 1)
        ensures Keeps(OnCanon(NESTING), items[i], depth + 1) <==> Keeps(NESTING, items[i], depth + 1)
        ensures Keeps(RETURNS, items[i], depth + 1) ==> Keeps(OnCanon(TOKENS), items[i], depth + 1)
      {
        KeepsBudget(items[i], depth + 1);
      }
    case Obj(fields) =>
      forall i | 0 <= i < |fields|
        ensures Keeps(OnCanon(BUDGET), fields[i].value, depth + 1) <==> Keeps(RETURNS, fields[i].value, depth + 1)
        ensures Keeps(OnCanon(NESTING), fields[i].value, depth + 1) <==> Keeps(NESTING, fields[i].value, depth + 1)
        ensures Keeps(RETURNS, fields[i].value, depth + 1) ==> Keeps(OnCanon(TOKENS), fields[i].value, depth + 1)
      {
        KeepsBudget(fields[i].value, depth + 1);
      }
    case _ =>
  }

  /** The value rules accept the canonical form of what they accept; of the others this is proved. */
  ghost predicate RulesOk(rules: Rules) { forall d :: rules(d) ==> rules(Image(DOCUMENT, d)) }

  lemma {:induction false} ImageBudget(d: Json)
    requires WithinBudget(d)
    ensures WithinBudget(Image(DOCUMENT, d)) <==> Keeps(RETURNS, d, 0)
    ensures Keeps(NESTING, Image(DOCUMENT, d), 0) <==> Keeps(NESTING, d, 0)
    ensures Keeps(RETURNS, d, 0) ==> Keeps(TOKENS, Image(DOCUMENT, d), 0)
  {
    KeepsBudget(d, 0);
    ImageKeeps(BUDGET, DOCUMENT, d);
    ImageKeeps(NESTING, DOCUMENT, d);
    ImageKeeps(TOKENS, DOCUMENT, d);
    CanonNodes(Normalize(DOCUMENT, d));
    NormalNodes(DOCUMENT, d);
  }

  lemma {:induction false} ImageText(d: Json)
    requires WellKeyed(d) && Fits(DOCUMENT, d)
    ensures
      var c, text := Image(DOCUMENT, d), Text(Normalize(DOCUMENT, d));
      && ReadValue(text) == Some((c, "")) && Text(c) == text && Text(Normalize(DOCUMENT, c)) == text
      && WellKeyed(c) && Fits(DOCUMENT, c) && Image(DOCUMENT, c) == c
  {
    DocumentOk();
    NormalizeKeepsKeys(DOCUMENT, d);
    ReadPrinted(Normalize(DOCUMENT, d));
    TextCanon(Normalize(DOCUMENT, d));
    ImageSettles(DOCUMENT, d);
    var c := Image(DOCUMENT, d);
    NormalizeKeepsKeys(DOCUMENT, c);
    TextCanon(Normalize(DOCUMENT, c));
  }

  /**
    An encoded document decodes again exactly when its containers leave room in the
    scan and its whole numbers fit a word; it then decodes to its canonical form.
   */
  lemma {:induction false} EncodedComesBack(rules: Rules, d: Json)
    requires RulesOk(rules) && WellKeyed(d) && Encode(rules, d).Some?
    ensures Decode(rules, Encode(rules, d).value) == if ComesBack(d) then Some(Image(DOCUMENT, d)) else None
  {
    var text := Encode(rules, d).value;
    RulesFit(d);
    ImageText(d);
    ImageBudget(d);
    ImageKeepsUniqueness(d);
    ImageKeepsReferences(d);
    ScanText(Image(DOCUMENT, d), 0);
  }

  /** Encoding what came back gives the same text. */
  lemma {:induction false} Reencodes(rules: Rules, d: Json)
    requires RulesOk(rules) && WellKeyed(d) && Encode(rules, d).Some? && ComesBack(d)
    ensures Encode(rules, Image(DOCUMENT, d)) == Encode(rules, d)
  {
    RulesFit(d);
    ImageText(d);
    ImageBudget(d);
    ImageKeepsUniqueness(d);
    ImageKeepsReferences(d);
  }

  /** A number within every limit whose canonical spelling the reader refuses. */
  lemma {:induction false} LargeNumber()
    ensures NumberOk(N.Dec(false, 1, 20)) && !WholeFits(N.Dec(false, 1, 20))
  {
    assert N.Raise(1, 4) == 10_000;
    assert N.Raise(1, 8) == 100_000_000;
    assert N.Raise(1, 12) == 1_000_000_000_000;
    assert N.Raise(1, 16) == 10_000_000_000_000_000;
    assert N.Raise(1, 20) == 100_000_000_000_000_000_000;
    assert |N.Digits(1)| == 1;
  }
}
