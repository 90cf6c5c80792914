/**
  The schema of a plan document and the rules that give its items their identity:
  ids are unique over the document, radios over all access points, channels within
  a constraint, sources within the provenance, and references name what exists.
 */
module InterchangeRules {
  import K = KeyedSort
  import opened JsonText
  import opened InterchangeSchema

  // ----- The schema of a plan -----

  /** The collections of identified items, in the order their ids are read. */
  const NAMES: seq<string> := [
    "coordinate_frames", "floors", "materials", "geometry", "access_points", "radios", "channel_constraints", "zones",
    "requirements", "seeds"]

  const COUNT: nat := 10
  const ACCESS_POINTS: nat := 4
  const CONSTRAINTS: nat := 6

  const ACCESS_POINT: Shape := Record([Special("radio_ids", Collection(ByText, Plain))])

  const CONSTRAINT: Shape := Record([Special("allowed_channels", Collection(ByChannel, Plain))])

  const PROVENANCE: Shape := Record([Special("sources", Collection(ById, Plain))])

  function ItemShape(i: nat): Shape {
    if i == ACCESS_POINTS then ACCESS_POINT else if i == CONSTRAINTS then CONSTRAINT else Plain
  }

  const SPECIALS: seq<Special> := [
    Special(NAMES[0], Collection(ById, Plain)), Special(NAMES[1], Collection(ById, Plain)),
    Special(NAMES[2], Collection(ById, Plain)), Special(NAMES[3], Collection(ById, Plain)),
    Special(NAMES[4], Collection(ById, ACCESS_POINT)), Special(NAMES[5], Collection(ById, Plain)),
    Special(NAMES[6], Collection(ById, CONSTRAINT)), Special(NAMES[7], Collection(ById, Plain)),
    Special(NAMES[8], Collection(ById, Plain)), Special(NAMES[9], Collection(ById, Plain)),
    Special("provenance", PROVENANCE)]

  const DOCUMENT: Shape := Record(SPECIALS)

  lemma {:induction false} PartsOk(i: nat)
    ensures SchemaOk(Collection(ById, ItemShape(i))) && SchemaOk(PROVENANCE)
  {
    assert SchemaOk(Collection(ByText, Plain)) && SchemaOk(Collection(ByChannel, Plain)) && SchemaOk(Collection(ById, Plain));
    ShapeOfNone(ACCESS_POINT.special, "id");
    ShapeOfNone(CONSTRAINT.special, "id");
  }

  lemma {:induction false} DocumentOk()
    ensures SchemaOk(DOCUMENT)
  {
    forall i | 0 <= i < |SPECIALS| ensures SchemaOk(SPECIALS[i].shape) {
      PartsOk(i);
    }
  }

  // ----- Which shape a key has -----

  lemma {:induction false} ShapeOfNone(special: seq<Special>, key: string)
    requires forall i | 0 <= i < |special| :: special[i].key != key
    ensures ShapeOf(special, key) == Plain
  {
    if special != [] {
      ShapeOfNone(special[1..], key);
    }
  }

  lemma {:induction false} ShapeOfAt(special: seq<Special>, i: nat)
    requires i < |special| && forall j | 0 <= j < i :: special[j].key != special[i].key
    ensures ShapeOf(special, special[i].key) == special[i].shape
  {
    if i > 0 {
      assert special[1..][i - 1] == special[i];
      forall j | 0 <= j < i - 1 ensures special[1..][j].key != special[1..][i - 1].key {
        assert special[1..][j] == special[j + 1];
      }
      ShapeOfAt(special[1..], i - 1);
    }
  }

  /** Length and first letter tell the names apart. */
  function Tag(s: string): int { if s == "" then 0 else |s| * 1000 + (s[0] as int) }

  lemma {:induction false} NameTags()
    ensures Tag(NAMES[0]) == 17099 && Tag(NAMES[1]) == 6102 && Tag(NAMES[2]) == 9109 && Tag(NAMES[3]) == 8103
    ensures Tag(NAMES[4]) == 13097 && Tag(NAMES[5]) == 6114 && Tag(NAMES[6]) == 19099 && Tag(NAMES[7]) == 5122
    ensures Tag(NAMES[8]) == 12114 && Tag(NAMES[9]) == 5115 && Tag("provenance") == 10112 && Tag("plan_id") == 7112
  {
  }

  lemma {:induction false} NamesDiffer()
    ensures forall i, j | 0 <= i < j < COUNT :: NAMES[i] != NAMES[j]
    ensures forall i | 0 <= i < COUNT :: NAMES[i] != "provenance"
  {
    NameTags();
    forall i, j | 0 <= i < j < COUNT ensures Tag(NAMES[i]) != Tag(NAMES[j]) {
    }
    forall i | 0 <= i < COUNT ensures Tag(NAMES[i]) != Tag("provenance") {
    }
  }

  lemma {:induction false} SpecialAt(i: nat)
    requires i < COUNT
    ensures |SPECIALS| == COUNT + 1 && SPECIALS[i] == Special(NAMES[i], Collection(ById, ItemShape(i)))
    ensures SPECIALS[COUNT] == Special("provenance", PROVENANCE)
  {
  }

  lemma {:induction false} CollectionShape(i: nat)
    requires i < COUNT
    ensures ShapeOf(SPECIALS, NAMES[i]) == Collection(ById, ItemShape(i))
  {
    NamesDiffer();
    SpecialAt(i);
    forall j | 0 <= j < i ensures SPECIALS[j].key != SPECIALS[i].key {
      SpecialAt(j);
    }
    ShapeOfAt(SPECIALS, i);
  }

  lemma {:induction false} ProvenanceShape()
    ensures ShapeOf(SPECIALS, "provenance") == PROVENANCE
  {
    NamesDiffer();
    SpecialAt(0);
    forall j | 0 <= j < COUNT ensures SPECIALS[j].key != SPECIALS[COUNT].key {
      SpecialAt(j);
    }
    ShapeOfAt(SPECIALS, COUNT);
  }

  lemma {:induction false} OtherShape(key: string)
    requires key != "provenance" && forall i | 0 <= i < COUNT :: key != NAMES[i]
    ensures ShapeOf(SPECIALS, key) == Plain
  {
    forall i | 0 <= i < |SPECIALS| ensures SPECIALS[i].key != key {
      SpecialAt(if i < COUNT then i else 0);
    }
    ShapeOfNone(SPECIALS, key);
  }

  lemma {:induction false} PlanIdShape()
    ensures ShapeOf(SPECIALS, "plan_id") == Plain
  {
    NameTags();
    forall i | 0 <= i < COUNT ensures "plan_id" != NAMES[i] {
      assert Tag(NAMES[i]) != Tag("plan_id");
    }
    OtherShape("plan_id");
  }

  // ----- Names without repetition -----

  function Flatten(groups: seq<seq<string>>): seq<string> {
    if groups == [] then [] else Flatten(groups[..|groups| - 1]) + groups[|groups| - 1]
  }

  ghost predicate NoRepeats(names: seq<string>) { forall i, j | 0 <= i < j < |names| :: names[i] != names[j] }

  lemma {:induction false} AddName(names: seq<string>, known: set<string>, name: string)
    requires NoRepeats(names) && forall x :: x in known <==> x in names
    ensures NoRepeats(names + [name]) <==> name !in known
  {
    var more := names + [name];
    if NoRepeats(more) {
      forall i | 0 <= i < |names| ensures names[i] != name {
        assert more[i] != more[|names|];
      }
    }
  }

  lemma {:induction false} RepeatStays(a: seq<string>, b: seq<string>)
    requires NoRepeats(a + b)
    ensures NoRepeats(a) && NoRepeats(b)
  {
    forall i, j | 0 <= i < j < |a| ensures a[i] != a[j] {
      assert (a + b)[i] == a[i] && (a + b)[j] == a[j];
    }
    forall i, j | 0 <= i < j < |b| ensures b[i] != b[j] {
      assert (a + b)[|a| + i] == b[i] && (a + b)[|a| + j] == b[j];
    }
  }

  /** One growing set of names over several groups: document ids, or the radios of all access points. */
  method CheckUnique(first: seq<string>, groups: seq<seq<string>>) returns (ok: bool)
    requires NoRepeats(first)
    ensures ok <==> NoRepeats(first + Flatten(groups))
  {
    var known := set i | 0 <= i < |first| :: first[i];
    ghost var names := first;
    for g := 0 to |groups|
      invariant names == first + Flatten(groups[..g]) && NoRepeats(names)
      invariant forall x :: x in known <==> x in names
    {
      ghost var before := names;
      assert groups[..g + 1][..g] == groups[..g];
      for i := 0 to |groups[g]|
        invariant names == before + groups[g][..i] && NoRepeats(names)
        invariant forall x :: x in known <==> x in names
      {
        var name := groups[g][i];
        AddName(names, known, name);
        assert before + groups[g][..i + 1] == names + [name];
        if name in known {
          FlattenAhead(first, groups, g, i + 1);
          return false;
        }
        known := known + {name};
        names := names + [name];
      }
      assert groups[g][..|groups[g]|] == groups[g];
      assert names == first + Flatten(groups[..g + 1]);
    }
    assert groups[..|groups|] == groups;
    ok := true;
  }

  /** A repetition among the names read so far is one among all. */
  lemma {:induction false} FlattenAhead(first: seq<string>, groups: seq<seq<string>>, g: nat, i: nat)
    requires g < |groups| && i <= |groups[g]|
    requires !NoRepeats(first + Flatten(groups[..g]) + groups[g][..i])
    ensures !NoRepeats(first + Flatten(groups))
  {
    FlattenSplit(groups, g + 1);
    assert groups[..g + 1][..g] == groups[..g];
    var read := first + Flatten(groups[..g]) + groups[g][..i];
    var rest := groups[g][i..] + Flatten(groups[g + 1..]);
    assert groups[g] == groups[g][..i] + groups[g][i..];
    assert first + Flatten(groups) == read + rest;
    if NoRepeats(read + rest) {
      RepeatStays(read, rest);
    }
  }

  lemma {:induction false} FlattenSplit(groups: seq<seq<string>>, g: nat)
    requires g <= |groups|
    ensures Flatten(groups) == Flatten(groups[..g]) + Flatten(groups[g..])
    decreases |groups|
  {
    if g == |groups| {
      assert groups[..g] == groups && groups[g..] == [];
    } else {
      var n := |groups| - 1;
      FlattenSplit(groups[..n], g);
      assert groups[..n][..g] == groups[..g] && groups[g..][..n - g] == groups[..n][g..];
    }
  }

  ghost predicate Apart(a: seq<string>, b: seq<string>) { forall x | x in a :: x !in b }

  lemma {:induction false} NoRepeatsJoin(a: seq<string>, b: seq<string>)
    ensures NoRepeats(a + b) <==> NoRepeats(a) && NoRepeats(b) && Apart(a, b)
  {
    if NoRepeats(a + b) {
      RepeatStays(a, b);
      forall x | x in a ensures x !in b {
        var i :| 0 <= i < |a| && a[i] == x;
        forall j | 0 <= j < |b| ensures b[j] != x {
          assert (a + b)[i] == x && (a + b)[|a| + j] == b[j];
        }
      }
    }
    if NoRepeats(a) && NoRepeats(b) && Apart(a, b) {
      forall i, j | 0 <= i < j < |a + b| ensures (a + b)[i] != (a + b)[j] {
        if i < |a| <= j {
          assert a[i] in a && b[j - |a|] in b;
        }
      }
    }
  }

  lemma {:induction false} FlattenMembers(groups: seq<seq<string>>, x: string)
    ensures x in Flatten(groups) <==> exists g :: 0 <= g < |groups| && x in groups[g]
  {
    if groups != [] {
      var n := |groups| - 1;
      FlattenMembers(groups[..n], x);
      if x in Flatten(groups[..n]) {
        var g :| 0 <= g < n && x in groups[..n][g];
        assert x in groups[g];
      }
      if exists g :: 0 <= g < |groups| && x in groups[g] {
        var g :| 0 <= g < |groups| && x in groups[g];
        assert g < n ==> x in groups[..n][g];
      }
    }
  }

  /** Each group without repetition, and no name in two groups. */
  ghost predicate AllApart(groups: seq<seq<string>>) {
    && (forall g | 0 <= g < |groups| :: NoRepeats(groups[g]))
    && (forall g, h | 0 <= g < h < |groups| :: Apart(groups[g], groups[h]))
  }

  lemma {:induction false} FlattenApart(groups: seq<seq<string>>)
    ensures NoRepeats(Flatten(groups)) <==> AllApart(groups)
  {
    if groups != [] {
      var n := |groups| - 1;
      var front, last := groups[..n], groups[n];
      FlattenApart(front);
      NoRepeatsJoin(Flatten(front), last);
      if AllApart(groups) {
        forall x | x in Flatten(front) ensures x !in last {
          FlattenMembers(front, x);
          var g :| 0 <= g < n && x in front[g];
          assert Apart(groups[g], groups[n]);
        }
        forall g, h | 0 <= g < h < |front| ensures Apart(front[g], front[h]) {
          assert Apart(groups[g], groups[h]);
        }
      }
      if NoRepeats(Flatten(groups)) {
        forall g, h | 0 <= g < h < |groups| ensures Apart(groups[g], groups[h]) {
          if h < n {
            assert Apart(front[g], front[h]);
          } else {
            forall x | x in groups[g] ensures x !in last {
              assert x in front[g];
              FlattenMembers(front, x);
            }
          }
        }
        forall g | 0 <= g < |groups| ensures NoRepeats(groups[g]) {
          assert g < n ==> NoRepeats(front[g]);
        }
      }
    }
  }

  ghost predicate SameNames(a: seq<string>, b: seq<string>) { forall x :: x in a <==> x in b }

  /** Reordering the names of each group keeps them unique. */
  lemma {:induction false} ReorderedStayUnique(first: seq<string>, a: seq<seq<string>>, b: seq<seq<string>>)
    requires NoRepeats(first + Flatten(a)) && |a| == |b|
    requires forall g | 0 <= g < |a| :: SameNames(a[g], b[g]) && NoRepeats(b[g])
    ensures NoRepeats(first + Flatten(b))
  {
    NoRepeatsJoin(first, Flatten(a));
    NoRepeatsJoin(first, Flatten(b));
    FlattenApart(a);
    FlattenApart(b);
    forall g, h | 0 <= g < h < |b| ensures Apart(b[g], b[h]) {
      assert Apart(a[g], a[h]) && SameNames(a[g], b[g]) && SameNames(a[h], b[h]);
    }
    forall x | x in first ensures x !in Flatten(b) {
      FlattenMembers(a, x);
      FlattenMembers(b, x);
      forall g | 0 <= g < |b| ensures x !in b[g] {
        assert SameNames(a[g], b[g]);
      }
    }
  }

  // ----- The rules -----

  function ItemsAt(fields: seq<Field>, key: string): Option<seq<Json>> {
    var v := Get(fields, key);
    if v.Some? && v.value.Arr? then Some(v.value.items) else None
  }

  /** The items of a list field; none if there is no such field. */
  function Items(v: Json, key: string): seq<Json> {
    if v.Obj? && ItemsAt(v.fields, key).Some? then ItemsAt(v.fields, key).value else []
  }

  predicate HasItems(v: Json, key: string) { v.Obj? && ItemsAt(v.fields, key).Some? }

  function IdOf(v: Json): string { if v.Obj? && StringAt(v.fields, "id").Some? then StringAt(v.fields, "id").value else "" }

  predicate HasIds(items: seq<Json>) { forall i | 0 <= i < |items| :: KeyOf(ById, items[i]).Some? }

  function IdsOf(items: seq<Json>): (r: seq<string>)
    ensures |r| == |items|
  {
    seq(|items|, i requires 0 <= i < |items| => IdOf(items[i]))
  }

  predicate AllText(items: seq<Json>) { forall i | 0 <= i < |items| :: items[i].Str? }

  function Strings(items: seq<Json>): (r: seq<string>)
    ensures |r| == |items|
  {
    seq(|items|, i requires 0 <= i < |items| => if items[i].Str? then items[i].text else "")
  }

  /** The identity of a channel: its number, or why it is unknown and the raw text. */
  datatype ChannelName = Known(n: int) | Unknown(reason: string, raw: string)

  function ChannelOf(v: Json): Option<ChannelName> {
    if !v.Obj? then None
    else if StringAt(v.fields, "status") == Some("known") then
      var n := IntAt(v.fields, "value");
      if n.Some? then Some(Known(n.value)) else None
    else
      var reason, raw := StringAt(v.fields, "reason"), StringAt(v.fields, "raw");
      if reason.Some? && raw.Some? then Some(Unknown(reason.value, raw.value)) else None
  }

  ghost predicate ChannelsDistinct(items: seq<Json>) {
    && (forall i | 0 <= i < |items| :: ChannelOf(items[i]).Some?)
    && (forall i, j | 0 <= i < j < |items| :: ChannelOf(items[i]) != ChannelOf(items[j]))
  }

  function PlanIds(d: Json): seq<string> {
    if d.Obj? && StringAt(d.fields, "plan_id").Some? then [StringAt(d.fields, "plan_id").value] else []
  }

  function Groups(d: Json): (r: seq<seq<string>>)
    ensures |r| == COUNT
  {
    seq(COUNT, i requires 0 <= i < COUNT => IdsOf(Items(d, NAMES[i])))
  }

  function RadioLists(aps: seq<Json>): (r: seq<seq<string>>)
    ensures |r| == |aps|
  {
    seq(|aps|, i requires 0 <= i < |aps| => Strings(Items(aps[i], "radio_ids")))
  }

  predicate CollectionOk(d: Json, i: nat)
    requires i < COUNT
  {
    HasItems(d, NAMES[i]) && HasIds(Items(d, NAMES[i]))
  }

  /** Ids are unique over the document and its plan. */
  ghost predicate IdsUnique(d: Json) {
    && (forall i | 0 <= i < COUNT :: CollectionOk(d, i))
    && |PlanIds(d)| == 1 && NoRepeats(PlanIds(d) + Flatten(Groups(d)))
  }

  /** A radio is listed once over all access points. */
  ghost predicate RadiosUnique(aps: seq<Json>) {
    && (forall i | 0 <= i < |aps| :: HasItems(aps[i], "radio_ids") && AllText(Items(aps[i], "radio_ids")))
    && NoRepeats(Flatten(RadioLists(aps)))
  }

  ghost predicate ChannelsUnique(constraints: seq<Json>) {
    forall i | 0 <= i < |constraints| ::
      HasItems(constraints[i], "allowed_channels") && ChannelsDistinct(Items(constraints[i], "allowed_channels"))
  }

  ghost predicate SourcesUnique(d: Json) {
    d.Obj? && Get(d.fields, "provenance").Some? && SourceListUnique(Get(d.fields, "provenance").value)
  }

  ghost predicate SourceListUnique(p: Json) {
    HasItems(p, "sources") && HasIds(Items(p, "sources")) && NoRepeats(IdsOf(Items(p, "sources")))
  }

  ghost predicate UniquenessRules(d: Json) {
    && d.Obj? && IdsUnique(d)
    && RadiosUnique(Items(d, NAMES[ACCESS_POINTS]))
    && ChannelsUnique(Items(d, NAMES[CONSTRAINTS]))
    && SourcesUnique(d)
  }

  // ----- The loops that decide them -----

  method CheckChannels(items: seq<Json>) returns (ok: bool)
    ensures ok <==> ChannelsDistinct(items)
  {
    var known: set<ChannelName> := {};
    for i := 0 to |items|
      invariant ChannelsDistinct(items[..i])
      invariant forall c :: c in known <==> exists j :: 0 <= j < i && ChannelOf(items[j]) == Some(c)
    {
      var c := ChannelOf(items[i]);
      assert items[..i + 1] == items[..i] + [items[i]];
      if c.None? || c.value in known {
        return false;
      }
      known := known + {c.value};
    }
    assert items[..|items|] == items;
    return true;
  }

  method CheckUniqueness(d: Json) returns (ok: bool)
    ensures ok <==> UniquenessRules(d)
  {
    if !d.Obj? || |PlanIds(d)| != 1 { return false; }
    for i := 0 to COUNT
      invariant forall j | 0 <= j < i :: CollectionOk(d, j)
    {
      if !CollectionOk(d, i) { return false; }
    }
    ok := CheckUnique(PlanIds(d), Groups(d));
    if !ok { return; }
    ok := CheckRadios(Items(d, NAMES[ACCESS_POINTS]));
    if !ok { return; }
    ok := CheckConstraints(Items(d, NAMES[CONSTRAINTS]));
    if !ok { return; }
    ok := CheckSources(d);
  }

  method CheckRadios(aps: seq<Json>) returns (ok: bool)
    ensures ok <==> RadiosUnique(aps)
  {
    for i := 0 to |aps|
      invariant forall j | 0 <= j < i :: HasItems(aps[j], "radio_ids") && AllText(Items(aps[j], "radio_ids"))
    {
      if !HasItems(aps[i], "radio_ids") || !AllText(Items(aps[i], "radio_ids")) { return false; }
    }
    ok := CheckUnique([], RadioLists(aps));
    assert [] + Flatten(RadioLists(aps)) == Flatten(RadioLists(aps));
  }

  method CheckConstraints(constraints: seq<Json>) returns (ok: bool)
    ensures ok <==> ChannelsUnique(constraints)
  {
    for i := 0 to |constraints|
      invariant ChannelsUnique(constraints[..i])
    {
      assert constraints[..i + 1] == constraints[..i] + [constraints[i]];
      if !HasItems(constraints[i], "allowed_channels") { return false; }
      ok := CheckChannels(Items(constraints[i], "allowed_channels"));
      if !ok { return; }
    }
    assert constraints[..|constraints|] == constraints;
    ok := true;
  }

  method CheckSources(d: Json) returns (ok: bool)
    requires d.Obj?
    ensures ok <==> SourcesUnique(d)
  {
    var p := Get(d.fields, "provenance");
    if p.None? || !HasItems(p.value, "sources") || !HasIds(Items(p.value, "sources")) { return false; }
    var ids := IdsOf(Items(p.value, "sources"));
    ok := CheckUnique([], [ids]);
    assert Flatten([ids]) == ids by {
      assert [ids][..0] == [];
    }
    assert [] + ids == ids;
  }

  // ----- The rules make every sort key distinct -----

  lemma {:induction false} UnknownKeysDiffer(a: string, b: string, c: string, d: string)
    requires [1] + Raised(a) + [0] + Raised(b) == [1] + Raised(c) + [0] + Raised(d)
    ensures a == c && b == d
  {
    var x := [1] + Raised(a) + [0] + Raised(b);
    assert x[|a| + 1] == 0 && x[|c| + 1] == 0;
    assert forall i | 0 <= i < |a| :: x[i + 1] == a[i] as int + 1;
    assert forall i | 0 <= i < |c| :: x[i + 1] == c[i] as int + 1;
    assert |a| == |c|;
    assert forall i | 0 <= i < |b| :: x[i + |a| + 2] == b[i] as int + 1;
    assert forall i | 0 <= i < |d| :: x[i + |c| + 2] == d[i] as int + 1;
    assert |x| == |a| + |b| + 2 == |c| + |d| + 2;
  }

  function NameKey(c: ChannelName): K.Key {
    match c
    case Known(n) => [0, n]
    case Unknown(reason, raw) => [1] + Raised(reason) + [0] + Raised(raw)
  }

  lemma {:induction false} NameKeyInjective(a: ChannelName, b: ChannelName)
    requires NameKey(a) == NameKey(b)
    ensures a == b
  {
    assert NameKey(a)[0] == NameKey(b)[0];
    if a.Known? {
      assert NameKey(a)[1] == NameKey(b)[1];
    } else {
      UnknownKeysDiffer(a.reason, a.raw, b.reason, b.raw);
    }
  }

  lemma {:induction false} KeyOfChannel(v: Json)
    ensures KeyOf(ByChannel, v).Some? <==> ChannelOf(v).Some?
    ensures ChannelOf(v).Some? ==> KeyOr(ByChannel, v) == NameKey(ChannelOf(v).value)
  {
  }

  lemma {:induction false} ChannelKeys(v: Json, w: Json)
    ensures KeyOf(ByChannel, v).Some? <==> ChannelOf(v).Some?
    ensures ChannelOf(v).Some? && ChannelOf(w).Some? ==>
            (KeyOr(ByChannel, v) == KeyOr(ByChannel, w) <==> ChannelOf(v) == ChannelOf(w))
  {
    KeyOfChannel(v);
    KeyOfChannel(w);
    if ChannelOf(v).Some? && ChannelOf(w).Some? && KeyOr(ByChannel, v) == KeyOr(ByChannel, w) {
      NameKeyInjective(ChannelOf(v).value, ChannelOf(w).value);
    }
  }

  lemma {:induction false} IdKeys(v: Json, w: Json)
    requires KeyOf(ById, v).Some? && KeyOf(ById, w).Some?
    ensures KeyOr(ById, v) == KeyOr(ById, w) <==> IdOf(v) == IdOf(w)
  {
    if KeyOr(ById, v) == KeyOr(ById, w) {
      CodesInjective(IdOf(v), IdOf(w));
    }
  }

  lemma {:induction false} IdsDistinct(items: seq<Json>)
    requires HasIds(items)
    ensures KeysDistinct(ById, items) <==> NoRepeats(IdsOf(items))
  {
    var ids := IdsOf(items);
    forall i, j | 0 <= i < j < |items| ensures KeyOr(ById, items[i]) == KeyOr(ById, items[j]) <==> ids[i] == ids[j] {
      IdKeys(items[i], items[j]);
    }
  }

  lemma {:induction false} TextsDistinct(items: seq<Json>)
    requires AllText(items)
    ensures KeysDistinct(ByText, items) <==> NoRepeats(Strings(items))
  {
    var names := Strings(items);
    forall i, j | 0 <= i < j < |items| ensures KeyOr(ByText, items[i]) == KeyOr(ByText, items[j]) <==> names[i] == names[j] {
      if KeyOr(ByText, items[i]) == KeyOr(ByText, items[j]) {
        CodesInjective(names[i], names[j]);
      }
    }
  }

  lemma {:induction false} ChannelsSorted(items: seq<Json>)
    ensures ChannelsDistinct(items) <==>
            KeysDistinct(ByChannel, items) && forall i | 0 <= i < |items| :: KeyOf(ByChannel, items[i]).Some?
  {
    forall i, j | 0 <= i < |items| && 0 <= j < |items|
      ensures KeyOf(ByChannel, items[i]).Some? <==> ChannelOf(items[i]).Some?
      ensures ChannelOf(items[i]).Some? && ChannelOf(items[j]).Some? ==>
              (KeyOr(ByChannel, items[i]) == KeyOr(ByChannel, items[j]) <==> ChannelOf(items[i]) == ChannelOf(items[j]))
    {
      ChannelKeys(items[i], items[j]);
    }
  }

  /** A record with one list field fits when that list does. */
  lemma {:induction false} OneFieldFits(key: string, shape: Shape, v: Json)
    requires WellKeyed(v) && HasItems(v, key) && Fits(shape, Arr(Items(v, key)))
    ensures Fits(Record([Special(key, shape)]), v)
  {
    var special := [Special(key, shape)];
    forall i | 0 <= i < |v.fields| ensures Fits(ShapeOf(special, v.fields[i].key), v.fields[i].value) {
      if v.fields[i].key == key {
        GetOfMember(v.fields, v.fields[i]);
        assert v.fields[i].value == Arr(Items(v, key));
        ShapeOfAt(special, 0);
      } else {
        ShapeOfNone(special, v.fields[i].key);
      }
    }
  }

  lemma {:induction false} AccessPointFits(aps: seq<Json>, i: nat)
    requires RadiosUnique(aps) && i < |aps| && WellKeyed(aps[i])
    ensures Fits(ACCESS_POINT, aps[i])
  {
    FlattenApart(RadioLists(aps));
    var radios := Items(aps[i], "radio_ids");
    assert RadioLists(aps)[i] == Strings(radios);
    TextsDistinct(radios);
    OneFieldFits("radio_ids", Collection(ByText, Plain), aps[i]);
  }

  lemma {:induction false} ConstraintFits(constraints: seq<Json>, i: nat)
    requires ChannelsUnique(constraints) && i < |constraints| && WellKeyed(constraints[i])
    ensures Fits(CONSTRAINT, constraints[i])
  {
    ChannelsSorted(Items(constraints[i], "allowed_channels"));
    OneFieldFits("allowed_channels", Collection(ByChannel, Plain), constraints[i]);
  }

  lemma {:induction false} FieldWellKeyed(v: Json, key: string)
    requires WellKeyed(v) && v.Obj? && Get(v.fields, key).Some?
    ensures WellKeyed(Get(v.fields, key).value)
  {
    GetMember(v.fields, key);
    var f := Field(key, Get(v.fields, key).value);
    var i :| 0 <= i < |v.fields| && v.fields[i] == f;
  }

  lemma {:induction false} ItemsWellKeyed(v: Json, key: string)
    requires WellKeyed(v)
    ensures forall i | 0 <= i < |Items(v, key)| :: WellKeyed(Items(v, key)[i])
  {
    if HasItems(v, key) {
      FieldWellKeyed(v, key);
    }
  }

  lemma {:induction false} GroupUnique(d: Json, g: nat)
    requires IdsUnique(d) && g < COUNT
    ensures NoRepeats(IdsOf(Items(d, NAMES[g])))
  {
    NoRepeatsJoin(PlanIds(d), Flatten(Groups(d)));
    FlattenApart(Groups(d));
    assert Groups(d)[g] == IdsOf(Items(d, NAMES[g]));
  }

  lemma {:induction false} CollectionFits(d: Json, g: nat)
    requires WellKeyed(d) && UniquenessRules(d) && g < COUNT
    ensures Fits(Collection(ById, ItemShape(g)), Arr(Items(d, NAMES[g])))
  {
    var items := Items(d, NAMES[g]);
    assert CollectionOk(d, g);
    GroupUnique(d, g);
    IdsDistinct(items);
    ItemsWellKeyed(d, NAMES[g]);
    forall i | 0 <= i < |items| ensures Fits(ItemShape(g), items[i]) {
      if g == ACCESS_POINTS {
        AccessPointFits(items, i);
      } else if g == CONSTRAINTS {
        ConstraintFits(items, i);
      }
    }
  }

  lemma {:induction false} ProvenanceFits(d: Json)
    requires WellKeyed(d) && SourcesUnique(d)
    ensures Fits(PROVENANCE, Get(d.fields, "provenance").value)
  {
    var p := Get(d.fields, "provenance").value;
    FieldWellKeyed(d, "provenance");
    IdsDistinct(Items(p, "sources"));
    OneFieldFits("sources", Collection(ById, Plain), p);
  }

  /** The uniqueness rules give every sorted collection distinct keys. */
  lemma {:induction false} RulesFit(d: Json)
    requires WellKeyed(d) && UniquenessRules(d)
    ensures Fits(DOCUMENT, d)
  {
    forall i | 0 <= i < |d.fields| ensures Fits(ShapeOf(SPECIALS, d.fields[i].key), d.fields[i].value) {
      FieldFits(d, i);
    }
  }

  lemma {:induction false} FieldFits(d: Json, i: nat)
    requires WellKeyed(d) && UniquenessRules(d) && i < |d.fields|
    ensures Fits(ShapeOf(SPECIALS, d.fields[i].key), d.fields[i].value)
  {
    var f := d.fields[i];
    GetOfMember(d.fields, f);
    if g :| 0 <= g < COUNT && f.key == NAMES[g] {
      CollectionShape(g);
      CollectionFits(d, g);
      assert CollectionOk(d, g);
      assert f.value == Arr(Items(d, NAMES[g]));
    } else if f.key == "provenance" {
      ProvenanceShape();
      ProvenanceFits(d);
    } else {
      OtherShape(f.key);
    }
  }

  // ----- The canonical form keeps the rules -----

  /** Looking up a field of a canonical record. */
  lemma {:induction false} ImageGet(special: seq<Special>, fields: seq<Field>, key: string)
    requires DistinctKeys(fields)
    ensures Image(Record(special), Obj(fields)).Obj?
    ensures Get(Image(Record(special), Obj(fields)).fields, key) ==
            match Get(fields, key) { case None => None case Some(v) => Some(Image(ShapeOf(special, key), v)) }
  {
    var normal := NormalFields(special, fields);
    ImageRecord(special, fields);
    ObjCanon(normal);
    GetCanon(normal, key);
    GetNormal(special, fields, key);
  }

  function ImageItems(kind: KeyKind, item: Shape, items: seq<Json>): seq<Json> {
    Values(K.Sort(ImageEntries(kind, item, items)))
  }

  lemma {:induction false} ImageOfList(special: seq<Special>, v: Json, key: string, kind: KeyKind, item: Shape)
    requires WellKeyed(v) && HasItems(v, key) && ShapeOf(special, key) == Collection(kind, item)
    ensures
      var c := Image(Record(special), v);
      HasItems(c, key) && Items(c, key) == ImageItems(kind, item, Items(v, key))
  {
    ImageGet(special, v.fields, key);
    ImageCollection(kind, item, Items(v, key));
  }

  /** The items of a canonical collection are the canonical items. */
  lemma {:induction false} ImageItemsMembers(kind: KeyKind, item: Shape, items: seq<Json>)
    ensures |ImageItems(kind, item, items)| == |items|
    ensures forall y | y in ImageItems(kind, item, items) :: exists x :: x in items && y == Image(item, x)
    ensures forall x | x in items :: Image(item, x) in ImageItems(kind, item, items)
  {
    var es := ImageEntries(kind, item, items);
    var sorted := K.Sort(es);
    K.SortEntries(es);
    forall y | y in Values(sorted) ensures exists x :: x in items && y == Image(item, x) {
      var i :| 0 <= i < |sorted| && Values(sorted)[i] == y;
      assert sorted[i] in es;
      var j :| 0 <= j < |es| && es[j] == sorted[i];
      assert items[j] in items && y == Image(item, items[j]);
    }
    forall x | x in items ensures Image(item, x) in Values(sorted) {
      var j :| 0 <= j < |items| && items[j] == x;
      assert es[j] in sorted;
      var i :| 0 <= i < |sorted| && sorted[i] == es[j];
      assert Values(sorted)[i] == Image(item, x);
    }
  }

  lemma {:induction false} ImageId(g: nat, x: Json)
    requires WellKeyed(x) && KeyOf(ById, x).Some?
    ensures KeyOf(ById, Image(ItemShape(g), x)).Some? && IdOf(Image(ItemShape(g), x)) == IdOf(x)
  {
    PartsOk(g);
    KeyStable(ById, ItemShape(g), x);
    CodesInjective(IdOf(Image(ItemShape(g), x)), IdOf(x));
  }

  lemma {:induction false} ImageItemFrom(kind: KeyKind, item: Shape, items: seq<Json>, i: nat) returns (a: nat)
    requires i < |ImageItems(kind, item, items)|
    ensures a < |items| && ImageItems(kind, item, items)[i] == Image(item, items[a])
  {
    var y := ImageItems(kind, item, items)[i];
    ImageItemsMembers(kind, item, items);
    assert y in ImageItems(kind, item, items);
    var x :| x in items && y == Image(item, x);
    a :| 0 <= a < |items| && items[a] == x;
  }

  lemma {:induction false} ImageItemOf(kind: KeyKind, item: Shape, items: seq<Json>, a: nat) returns (i: nat)
    requires a < |items|
    ensures i < |ImageItems(kind, item, items)| && ImageItems(kind, item, items)[i] == Image(item, items[a])
  {
    ImageItemsMembers(kind, item, items);
    assert items[a] in items;
    i :| 0 <= i < |ImageItems(kind, item, items)| && ImageItems(kind, item, items)[i] == Image(item, items[a]);
  }

  ghost predicate AllWellKeyed(items: seq<Json>) { forall i | 0 <= i < |items| :: WellKeyed(items[i]) }

  lemma {:induction false} ImageIdFrom(g: nat, items: seq<Json>, i: nat)
    requires HasIds(items) && AllWellKeyed(items) && i < |ImageItems(ById, ItemShape(g), items)|
    ensures
      var y := ImageItems(ById, ItemShape(g), items)[i];
      KeyOf(ById, y).Some? && IdOf(y) in IdsOf(items)
  {
    var a := ImageItemFrom(ById, ItemShape(g), items, i);
    ImageId(g, items[a]);
    assert IdsOf(items)[a] == IdOf(items[a]);
  }

  lemma {:induction false} ImageIdOf(g: nat, items: seq<Json>, a: nat)
    requires HasIds(items) && AllWellKeyed(items) && a < |items|
    ensures IdOf(items[a]) in IdsOf(ImageItems(ById, ItemShape(g), items))
  {
    var i := ImageItemOf(ById, ItemShape(g), items, a);
    ImageId(g, items[a]);
    assert IdsOf(ImageItems(ById, ItemShape(g), items))[i] == IdOf(items[a]);
  }

  lemma {:induction false} ImageIds(g: nat, items: seq<Json>)
    requires HasIds(items) && AllWellKeyed(items)
    ensures HasIds(ImageItems(ById, ItemShape(g), items))
    ensures SameNames(IdsOf(items), IdsOf(ImageItems(ById, ItemShape(g), items)))
  {
    var images := ImageItems(ById, ItemShape(g), items);
    forall i | 0 <= i < |images| ensures KeyOf(ById, images[i]).Some? && IdsOf(images)[i] in IdsOf(items) {
      ImageIdFrom(g, items, i);
    }
    forall a | 0 <= a < |items| ensures IdsOf(items)[a] in IdsOf(images) {
      ImageIdOf(g, items, a);
    }
  }

  lemma {:induction false} ListFits(special: seq<Special>, v: Json, key: string, shape: Shape)
    requires Fits(Record(special), v) && HasItems(v, key) && ShapeOf(special, key) == shape
    ensures Fits(shape, Arr(Items(v, key)))
  {
    GetMember(v.fields, key);
    var f := Field(key, Get(v.fields, key).value);
    var i :| 0 <= i < |v.fields| && v.fields[i] == f;
    assert Fits(ShapeOf(special, v.fields[i].key), v.fields[i].value);
    assert f.value == Arr(Items(v, key));
  }

  lemma {:induction false} DocumentList(d: Json, g: nat)
    requires WellKeyed(d) && UniquenessRules(d) && g < COUNT
    ensures
      var c := Image(DOCUMENT, d);
      && HasItems(c, NAMES[g]) && Items(c, NAMES[g]) == ImageItems(ById, ItemShape(g), Items(d, NAMES[g]))
      && HasIds(Items(c, NAMES[g])) && SameNames(IdsOf(Items(d, NAMES[g])), IdsOf(Items(c, NAMES[g])))
      && Fits(Collection(ById, ItemShape(g)), Arr(Items(c, NAMES[g]))) && NoRepeats(IdsOf(Items(c, NAMES[g])))
  {
    var c := Image(DOCUMENT, d);
    assert CollectionOk(d, g);
    CollectionShape(g);
    ImageOfList(SPECIALS, d, NAMES[g], ById, ItemShape(g));
    ItemsWellKeyed(d, NAMES[g]);
    ImageIds(g, Items(d, NAMES[g]));
    RulesFit(d);
    DocumentOk();
    ImageSettles(DOCUMENT, d);
    ListFits(SPECIALS, c, NAMES[g], Collection(ById, ItemShape(g)));
    IdsDistinct(Items(c, NAMES[g]));
  }

  lemma {:induction false} ImagePlanId(d: Json)
    requires WellKeyed(d) && d.Obj? && |PlanIds(d)| == 1
    ensures PlanIds(Image(DOCUMENT, d)) == PlanIds(d)
  {
    PlanIdShape();
    ImageGet(SPECIALS, d.fields, "plan_id");
  }

  lemma {:induction false} ImageIdsUnique(d: Json)
    requires WellKeyed(d) && UniquenessRules(d)
    ensures IdsUnique(Image(DOCUMENT, d))
  {
    var c := Image(DOCUMENT, d);
    ImagePlanId(d);
    forall g | 0 <= g < COUNT
      ensures CollectionOk(c, g) && SameNames(Groups(d)[g], Groups(c)[g]) && NoRepeats(Groups(c)[g])
    {
      DocumentList(d, g);
    }
    ReorderedStayUnique(PlanIds(d), Groups(d), Groups(c));
  }

  /** A canonical list of strings has the same strings. */
  lemma {:induction false} ImageStrings(items: seq<Json>)
    requires AllText(items)
    ensures AllText(ImageItems(ByText, Plain, items))
    ensures SameNames(Strings(items), Strings(ImageItems(ByText, Plain, items)))
  {
    var images := ImageItems(ByText, Plain, items);
    ImageItemsMembers(ByText, Plain, items);
    forall i | 0 <= i < |images| ensures images[i].Str? && images[i].text in Strings(items) {
      assert images[i] in images;
      var x :| x in items && images[i] == Image(Plain, x);
      var j :| 0 <= j < |items| && items[j] == x;
      assert Strings(items)[j] == images[i].text;
    }
    forall name | name in Strings(items) ensures name in Strings(images) {
      var j :| 0 <= j < |items| && Strings(items)[j] == name;
      assert items[j] in items;
      var i :| 0 <= i < |images| && images[i] == Image(Plain, items[j]);
      assert Strings(images)[i] == name;
    }
    forall name | name in Strings(images) ensures name in Strings(items) {
      var i :| 0 <= i < |images| && Strings(images)[i] == name;
      assert images[i].text in Strings(items);
    }
  }

  lemma {:induction false} ImageRadios(x: Json)
    requires WellKeyed(x) && HasItems(x, "radio_ids") && AllText(Items(x, "radio_ids"))
    requires Fits(ACCESS_POINT, Image(ACCESS_POINT, x))
    ensures
      var y := Image(ACCESS_POINT, x);
      && HasItems(y, "radio_ids") && AllText(Items(y, "radio_ids"))
      && SameNames(Strings(Items(x, "radio_ids")), Strings(Items(y, "radio_ids")))
      && NoRepeats(Strings(Items(y, "radio_ids")))
  {
    var y := Image(ACCESS_POINT, x);
    ShapeOfAt(ACCESS_POINT.special, 0);
    ImageOfList(ACCESS_POINT.special, x, "radio_ids", ByText, Plain);
    ImageStrings(Items(x, "radio_ids"));
    ListFits(ACCESS_POINT.special, y, "radio_ids", Collection(ByText, Plain));
    TextsDistinct(Items(y, "radio_ids"));
  }

  /** Where an item of the canonical document comes from. */
  lemma {:induction false} ItemOrigin(d: Json, g: nat, i: nat) returns (a: nat)
    requires WellKeyed(d) && UniquenessRules(d) && g < COUNT && i < |Items(Image(DOCUMENT, d), NAMES[g])|
    ensures
      var items, images := Items(d, NAMES[g]), Items(Image(DOCUMENT, d), NAMES[g]);
      && a < |items| && images[i] == Image(ItemShape(g), items[a]) && IdOf(images[i]) == IdOf(items[a])
      && WellKeyed(items[a]) && Fits(ItemShape(g), images[i])
  {
    DocumentList(d, g);
    ItemsWellKeyed(d, NAMES[g]);
    assert CollectionOk(d, g);
    a := ImageItemFrom(ById, ItemShape(g), Items(d, NAMES[g]), i);
    ImageId(g, Items(d, NAMES[g])[a]);
  }

  lemma {:induction false} RadioOrigin(d: Json, i: nat) returns (a: nat)
    requires WellKeyed(d) && UniquenessRules(d) && i < |Items(Image(DOCUMENT, d), NAMES[ACCESS_POINTS])|
    ensures
      var aps, images := Items(d, NAMES[ACCESS_POINTS]), Items(Image(DOCUMENT, d), NAMES[ACCESS_POINTS]);
      && a < |aps| && IdOf(images[i]) == IdOf(aps[a])
      && HasItems(images[i], "radio_ids") && AllText(Items(images[i], "radio_ids"))
      && SameNames(RadioLists(aps)[a], RadioLists(images)[i]) && NoRepeats(RadioLists(images)[i])
  {
    a := ItemOrigin(d, ACCESS_POINTS, i);
    ImageRadios(Items(d, NAMES[ACCESS_POINTS])[a]);
  }

  lemma {:induction false} ImageRadiosUnique(d: Json)
    requires WellKeyed(d) && UniquenessRules(d)
    ensures RadiosUnique(Items(Image(DOCUMENT, d), NAMES[ACCESS_POINTS]))
  {
    var aps, images := Items(d, NAMES[ACCESS_POINTS]), Items(Image(DOCUMENT, d), NAMES[ACCESS_POINTS]);
    DocumentList(d, ACCESS_POINTS);
    FlattenApart(RadioLists(aps));
    forall i | 0 <= i < |images|
      ensures HasItems(images[i], "radio_ids") && AllText(Items(images[i], "radio_ids")) && NoRepeats(RadioLists(images)[i])
    {
      var a := RadioOrigin(d, i);
    }
    forall i, j | 0 <= i < j < |images| ensures Apart(RadioLists(images)[i], RadioLists(images)[j]) {
      var a := RadioOrigin(d, i);
      var b := RadioOrigin(d, j);
      assert IdsOf(images)[i] != IdsOf(images)[j];
      assert a != b;
      StayApart(RadioLists(aps), a, b, RadioLists(images)[i], RadioLists(images)[j]);
    }
    FlattenApart(RadioLists(images));
  }

  lemma {:induction false} StayApart(groups: seq<seq<string>>, a: nat, b: nat, x: seq<string>, y: seq<string>)
    requires AllApart(groups) && a < |groups| && b < |groups| && a != b
    requires SameNames(groups[a], x) && SameNames(groups[b], y)
    ensures Apart(x, y)
  {
    if a < b {
      assert Apart(groups[a], groups[b]);
    } else {
      assert Apart(groups[b], groups[a]);
    }
  }

  lemma {:induction false} ImageChannelsUnique(d: Json)
    requires WellKeyed(d) && UniquenessRules(d)
    ensures ChannelsUnique(Items(Image(DOCUMENT, d), NAMES[CONSTRAINTS]))
  {
    var constraints, images := Items(d, NAMES[CONSTRAINTS]), Items(Image(DOCUMENT, d), NAMES[CONSTRAINTS]);
    ShapeOfAt(CONSTRAINT.special, 0);
    forall i | 0 <= i < |images|
      ensures HasItems(images[i], "allowed_channels") && ChannelsDistinct(Items(images[i], "allowed_channels"))
    {
      var a := ItemOrigin(d, CONSTRAINTS, i);
      var x := constraints[a];
      ImageOfList(CONSTRAINT.special, x, "allowed_channels", ByChannel, Plain);
      ListFits(CONSTRAINT.special, images[i], "allowed_channels", Collection(ByChannel, Plain));
      ChannelsSorted(Items(images[i], "allowed_channels"));
    }
  }

  lemma {:induction false} ImageSourcesUnique(d: Json)
    requires WellKeyed(d) && UniquenessRules(d)
    ensures SourcesUnique(Image(DOCUMENT, d))
  {
    var p, c := Get(d.fields, "provenance").value, Image(DOCUMENT, d);
    ProvenanceShape();
    ImageGet(SPECIALS, d.fields, "provenance");
    FieldWellKeyed(d, "provenance");
    ProvenanceFits(d);
    PartsOk(0);
    ImageSettles(PROVENANCE, p);
    ShapeOfAt(PROVENANCE.special, 0);
    ImageOfList(PROVENANCE.special, p, "sources", ById, Plain);
    var q := Image(PROVENANCE, p);
    ListFits(PROVENANCE.special, q, "sources", Collection(ById, Plain));
    IdsDistinct(Items(q, "sources"));
  }

  /** The canonical form of a document that keeps the uniqueness rules keeps them. */
  lemma {:induction false} ImageKeepsUniqueness(d: Json)
    requires WellKeyed(d) && UniquenessRules(d)
    ensures UniquenessRules(Image(DOCUMENT, d))
  {
    ImageIdsUnique(d);
    ImageRadiosUnique(d);
    ImageChannelsUnique(d);
    ImageSourcesUnique(d);
    ImageGet(SPECIALS, d.fields, "provenance");
  }

  // ----- References -----

  /** A field of one collection's items that names an item of another. */
  datatype Reference = Reference(from: nat, field: string, to: nat, optional: bool)

  const REFERENCES: seq<Reference> := [
    Reference(0, "parent_id", 0, true), Reference(1, "frame_id", 0, false),
    Reference(3, "floor_id", 1, false), Reference(3, "frame_id", 0, false), Reference(3, "material_id", 2, true),
    Reference(4, "floor_id", 1, false), Reference(4, "frame_id", 0, false),
    Reference(5, "access_point_id", 4, false), Reference(5, "floor_id", 1, false), Reference(5, "frame_id", 0, false),
    Reference(6, "radio_id", 5, false),
    Reference(7, "floor_id", 1, false), Reference(7, "frame_id", 0, false), Reference(7, "boundary_geometry_id", 3, false),
    Reference(8, "zone_id", 7, false)]

  predicate Resolves(x: Json, field: string, optional: bool, ids: seq<string>) {
    && x.Obj?
    && ((optional && Get(x.fields, field) == Some(Null))
        || (StringAt(x.fields, field).Some? && StringAt(x.fields, field).value in ids))
  }

  predicate Refers(d: Json, r: Reference) {
    && r.from < COUNT && r.to < COUNT && r.field != "radio_ids" && r.field != "allowed_channels"
    && forall x | x in Items(d, NAMES[r.from]) :: Resolves(x, r.field, r.optional, IdsOf(Items(d, NAMES[r.to])))
  }

  predicate ReferenceRules(d: Json) { forall i | 0 <= i < |REFERENCES| :: Refers(d, REFERENCES[i]) }

  lemma {:induction false} PlainField(g: nat, field: string)
    requires field != "radio_ids" && field != "allowed_channels"
    ensures ItemShape(g).Record? ==> ShapeOf(ItemShape(g).special, field) == Plain
  {
    ShapeOfNone(ACCESS_POINT.special, field);
    ShapeOfNone(CONSTRAINT.special, field);
  }

  lemma {:induction false} ImageResolves(g: nat, x: Json, field: string, optional: bool, ids: seq<string>, names: seq<string>)
    requires WellKeyed(x) && Resolves(x, field, optional, ids) && SameNames(ids, names)
    requires field != "radio_ids" && field != "allowed_channels"
    ensures Resolves(Image(ItemShape(g), x), field, optional, names)
  {
    PlainField(g, field);
    if ItemShape(g).Record? {
      ImageGet(ItemShape(g).special, x.fields, field);
    } else {
      ObjCanon(x.fields);
      GetCanon(x.fields, field);
    }
  }

  lemma {:induction false} ImageRefers(d: Json, r: Reference)
    requires WellKeyed(d) && UniquenessRules(d) && Refers(d, r)
    ensures Refers(Image(DOCUMENT, d), r)
  {
    var c := Image(DOCUMENT, d);
    var items, images := Items(d, NAMES[r.from]), Items(c, NAMES[r.from]);
    DocumentList(d, r.from);
    DocumentList(d, r.to);
    ItemsWellKeyed(d, NAMES[r.from]);
    ImageItemsMembers(ById, ItemShape(r.from), items);
    forall y | y in images ensures Resolves(y, r.field, r.optional, IdsOf(Items(c, NAMES[r.to]))) {
      var x :| x in items && y == Image(ItemShape(r.from), x);
      ImageResolves(r.from, x, r.field, r.optional, IdsOf(Items(d, NAMES[r.to])), IdsOf(Items(c, NAMES[r.to])));
    }
  }

  /** References that resolve still do in the canonical form. */
  lemma {:induction false} ImageKeepsReferences(d: Json)
    requires WellKeyed(d) && UniquenessRules(d) && ReferenceRules(d)
    ensures ReferenceRules(Image(DOCUMENT, d))
  {
    forall i | 0 <= i < |REFERENCES| ensures Refers(Image(DOCUMENT, d), REFERENCES[i]) {
      ImageRefers(d, REFERENCES[i]);
    }
  }
}
