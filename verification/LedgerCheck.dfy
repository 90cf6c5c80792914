/**
  The status passes of the ledger check: unfinished descendants by a worklist
  over the children lists, and unfinished dependencies record by record.
 */
module LedgerCheck {
  import opened LedgerGraph

  type Id = Node

  datatype Role = Obligation | ObligationGroup | Structure | Context

  datatype Status = NotStarted | InProgress | Implemented | Validated | BlockedExternal | DeferredByAdr

  datatype Claim = NoClaim | Claim(status: Status)

  datatype Record = Record(
    id: Id, role: Role, claim: Claim, dependsOn: seq<Id>, related: seq<Id>, children: seq<Id>)

  type Ledger = map<Id, Record>

  datatype Finding =
    | DuplicateId(id: Id)
    | BadClaim(id: Id)
    | GraphFinding(error: GraphError)
    | UnfinishedDescendant(id: Id, descendant: Id)
    | UnknownRelated(id: Id, related: Id)
    | UnfinishedDependency(id: Id, dependency: Id)

  predicate Mandatory(r: Record) { r.role == Obligation || r.role == ObligationGroup }

  predicate ClaimOk(r: Record) { r.claim.Claim? <==> Mandatory(r) }

  predicate Finished(r: Record) { r.claim == Claim(Implemented) || r.claim == Claim(Validated) }

  /** The claims a mandatory descendant of a finished record may make. */
  function Allowed(r: Record): set<Claim> {
    {Claim(Validated), Claim(DeferredByAdr)} + if r.claim == Claim(Implemented) then {Claim(Implemented)} else {}
  }

  predicate Unfinished(r: Record, descendant: Record) { Mandatory(descendant) && descendant.claim !in Allowed(r) }

  // ----- What the claims mean -----

  /** Only obligations and their groups make a claim. */
  ghost predicate ClaimFits(r: Record) {
    match r.role
    case Obligation => r.claim.Claim?
    case ObligationGroup => r.claim.Claim?
    case Structure => r.claim.NoClaim?
    case Context => r.claim.NoClaim?
  }

  /** Below an implemented record an obligation is implemented, validated or deferred; below a validated one it is not merely implemented. */
  ghost predicate Supports(above: Claim, r: Record) {
    (r.role == Obligation || r.role == ObligationGroup) ==>
      || r.claim == Claim(Validated) || r.claim == Claim(DeferredByAdr)
      || (r.claim == Claim(Implemented) && above == Claim(Implemented))
  }

  lemma {:induction false} ClaimMeans(r: Record)
    ensures ClaimOk(r) <==> ClaimFits(r)
  {
  }

  lemma {:induction false} UnfinishedMeans(r: Record, descendant: Record)
    ensures Finished(r) <==> r.claim in {Claim(Implemented), Claim(Validated)}
    ensures Unfinished(r, descendant) <==> !Supports(r.claim, descendant)
  {
  }

  // ----- Descendants -----

  ghost predicate ChildAt(l: Ledger, p: seq<Id>, i: int) {
    0 <= i < |p| - 1 && p[i] in l && p[i + 1] in l && p[i + 1] in l[p[i]].children
  }

  /** Records of the ledger, each a child of the one before. */
  ghost predicate IsDescent(l: Ledger, p: seq<Id>) {
    |p| > 1 && forall i {:trigger ChildAt(l, p, i)} | 0 <= i < |p| - 1 :: ChildAt(l, p, i)
  }

  ghost predicate Descends(l: Ledger, a: Id, c: Id) {
    exists p :: IsDescent(l, p) && p[0] == a && p[|p| - 1] == c
  }

  lemma {:induction false} ChildDescends(l: Ledger, a: Id, c: Id)
    requires a in l && c in l && c in l[a].children
    ensures Descends(l, a, c)
  {
    var p := [a, c];
    assert ChildAt(l, p, 0);
    assert IsDescent(l, p);
  }

  lemma {:induction false} DescendsFurther(l: Ledger, a: Id, b: Id, c: Id)
    requires Descends(l, a, b) && b in l && c in l && c in l[b].children
    ensures Descends(l, a, c)
  {
    var p :| IsDescent(l, p) && p[0] == a && p[|p| - 1] == b;
    var q := p + [c];
    forall i | 0 <= i < |q| - 1 ensures ChildAt(l, q, i) {
      assert i < |p| - 1 ==> ChildAt(l, p, i);
    }
    assert IsDescent(l, q);
  }

  /** A set that holds the children of `a` and the children of its own members holds all descendants. */
  lemma {:induction false} ClosedHoldsDescent(l: Ledger, a: Id, seen: set<Id>, p: seq<Id>, i: nat)
    requires IsDescent(l, p) && p[0] == a && 0 < i < |p|
    requires a in l && forall c | c in l[a].children && c in l :: c in seen
    requires forall s, c | s in seen && s in l && c in l[s].children && c in l :: c in seen
    ensures p[i] in seen
  {
    assert ChildAt(l, p, i - 1);
    if i > 1 {
      ClosedHoldsDescent(l, a, seen, p, i - 1);
    }
  }

  ghost predicate AllDescend(l: Ledger, rid: Id, cs: seq<Id>) {
    forall c | c in cs && c in l :: Descends(l, rid, c)
  }

  /** What is seen or pending descends from `rid`, and no child of what is seen is forgotten. */
  ghost predicate Worklist(l: Ledger, rid: Id, seen: set<Id>, pending: seq<Id>)
    requires rid in l
  {
    && seen <= l.Keys
    && (forall c | c in seen :: Descends(l, rid, c))
    && AllDescend(l, rid, pending)
    && (forall c | c in l[rid].children && c in l :: c in seen || c in pending)
    && (forall s, c | s in seen && c in l[s].children && c in l :: c in seen || c in pending)
  }

  lemma {:induction false} WorkStarts(l: Ledger, rid: Id)
    requires rid in l
    ensures Worklist(l, rid, {}, l[rid].children)
  {
    forall c | c in l[rid].children && c in l ensures Descends(l, rid, c) {
      ChildDescends(l, rid, c);
    }
  }

  lemma {:induction false} WorkSkips(l: Ledger, rid: Id, seen: set<Id>, rest: seq<Id>, child: Id)
    requires rid in l && Worklist(l, rid, seen, rest + [child]) && (child in seen || child !in l)
    ensures Worklist(l, rid, seen, rest)
  {
  }

  lemma {:induction false} WorkSteps(l: Ledger, rid: Id, seen: set<Id>, rest: seq<Id>, child: Id)
    requires rid in l && Worklist(l, rid, seen, rest + [child]) && child in l
    ensures Worklist(l, rid, seen + {child}, rest + l[child].children)
  {
    assert Descends(l, rid, child) by {
      assert child in rest + [child];
    }
    forall c | c in l[child].children && c in l ensures Descends(l, rid, c) {
      DescendsFurther(l, rid, child, c);
    }
    assert AllDescend(l, rid, rest) by {
      forall c | c in rest && c in l ensures Descends(l, rid, c) {
        assert c in rest + [child];
      }
    }
  }

  lemma {:induction false} WorkDone(l: Ledger, rid: Id, seen: set<Id>)
    requires rid in l && Worklist(l, rid, seen, [])
    ensures forall c :: c in seen <==> Descends(l, rid, c) && c in l
  {
    forall c | Descends(l, rid, c) && c in l ensures c in seen {
      var p :| IsDescent(l, p) && p[0] == rid && p[|p| - 1] == c;
      ClosedHoldsDescent(l, rid, seen, p, |p| - 1);
    }
  }

  /** The worklist over the children of `rid`. */
  method CheckDescendants(l: Ledger, rid: Id) returns (findings: seq<Finding>)
    requires rid in l
    ensures forall f | f in findings :: f.UnfinishedDescendant? && f.id == rid
    ensures forall c :: UnfinishedDescendant(rid, c) in findings <==> Descends(l, rid, c) && c in l && Unfinished(l[rid], l[c])
  {
    findings := [];
    var pending := l[rid].children;
    var seen: set<Id> := {};
    WorkStarts(l, rid);
    while pending != []
      invariant Worklist(l, rid, seen, pending)
      invariant forall f | f in findings :: f.UnfinishedDescendant? && f.id == rid
      invariant forall c :: UnfinishedDescendant(rid, c) in findings <==> c in seen && Unfinished(l[rid], l[c])
      decreases l.Keys - seen, |pending|
    {
      var child, rest := pending[|pending| - 1], pending[..|pending| - 1];
      assert pending == rest + [child];
      if child in seen || child !in l {
        WorkSkips(l, rid, seen, rest, child);
        pending := rest;
        continue;
      }
      WorkSteps(l, rid, seen, rest, child);
      seen := seen + {child};
      if Unfinished(l[rid], l[child]) {
        findings := findings + [UnfinishedDescendant(rid, child)];
      }
      pending := rest + l[child].children;
    }
    WorkDone(l, rid, seen);
  }

  // ----- One record -----

  ghost predicate RecordFinding(l: Ledger, rid: Id, f: Finding)
    requires rid in l
  {
    match f
    case UnfinishedDescendant(i, c) =>
      i == rid && Finished(l[rid]) && Descends(l, rid, c) && c in l && Unfinished(l[rid], l[c])
    case UnknownRelated(i, x) => i == rid && x in l[rid].related && x !in l
    case UnfinishedDependency(i, d) =>
      && i == rid && l[rid].claim == Claim(Validated) && d in l[rid].dependsOn
      && d in l && l[d].claim != Claim(Validated)
    case _ => false
  }

  method CheckRelated(l: Ledger, rid: Id) returns (findings: seq<Finding>)
    requires rid in l
    ensures forall f :: f in findings <==> RecordFinding(l, rid, f) && f.UnknownRelated?
  {
    var r := l[rid];
    findings := [];
    for i := 0 to |r.related|
      invariant forall f :: f in findings <==> RecordFinding(l, rid, f) && f.UnknownRelated? && f.related in r.related[..i]
    {
      assert r.related[..i + 1] == r.related[..i] + [r.related[i]];
      if r.related[i] !in l {
        findings := findings + [UnknownRelated(rid, r.related[i])];
      }
    }
    assert r.related[..|r.related|] == r.related;
  }

  method CheckDependencies(l: Ledger, rid: Id) returns (findings: seq<Finding>)
    requires rid in l
    ensures forall f :: f in findings <==> RecordFinding(l, rid, f) && f.UnfinishedDependency?
  {
    var r := l[rid];
    findings := [];
    if r.claim == Claim(Validated) {
      for i := 0 to |r.dependsOn|
        invariant forall f ::
          f in findings <==> RecordFinding(l, rid, f) && f.UnfinishedDependency? && f.dependency in r.dependsOn[..i]
      {
        assert r.dependsOn[..i + 1] == r.dependsOn[..i] + [r.dependsOn[i]];
        var d := r.dependsOn[i];
        if d in l && l[d].claim != Claim(Validated) {
          findings := findings + [UnfinishedDependency(rid, d)];
        }
      }
      assert r.dependsOn[..|r.dependsOn|] == r.dependsOn;
    }
  }

  method CheckRecord(l: Ledger, rid: Id) returns (findings: seq<Finding>)
    requires rid in l
    ensures forall f :: f in findings <==> RecordFinding(l, rid, f)
  {
    findings := [];
    if Finished(l[rid]) {
      findings := CheckDescendants(l, rid);
    }
    assert forall f :: f in findings <==> RecordFinding(l, rid, f) && f.UnfinishedDescendant?;
    var related := CheckRelated(l, rid);
    var dependencies := CheckDependencies(l, rid);
    findings := findings + related + dependencies;
  }

  // ----- The whole ledger -----

  ghost predicate Distinct(records: seq<Record>) {
    forall i, j | 0 <= i < j < |records| :: records[i].id != records[j].id
  }

  ghost predicate LastWithId(records: seq<Record>, i: int) {
    0 <= i < |records| && forall j | i < j < |records| :: records[j].id != records[i].id
  }

  /** Every id leads to the last record that carries it. */
  ghost predicate IsIndex(records: seq<Record>, l: Ledger) {
    && (forall r | r in records :: r.id in l)
    && (forall k | k in l :: l[k].id == k && exists i :: LastWithId(records, i) && records[i] == l[k])
  }

  lemma {:induction false} IndexStep(records: seq<Record>, i: nat, l: Ledger)
    requires i < |records| && IsIndex(records[..i], l)
    ensures IsIndex(records[..i + 1], l[records[i].id := records[i]])
  {
    var before, after, r := records[..i], records[..i + 1], records[i];
    var l' := l[r.id := r];
    assert after == before + [r];
    forall k | k in l' ensures exists j :: LastWithId(after, j) && after[j] == l'[k] {
      if k == r.id {
        assert LastWithId(after, i);
      } else {
        var j :| LastWithId(before, j) && before[j] == l[k];
        assert LastWithId(after, j) && after[j] == l[k];
      }
    }
  }

  ghost predicate ClaimsFit(records: seq<Record>) { forall r | r in records :: ClaimFits(r) }

  /** What the index pass knows after `i` records. */
  ghost predicate Indexed(records: seq<Record>, i: nat, l: Ledger, findings: seq<Finding>) {
    && i <= |records| && IsIndex(records[..i], l)
    && (forall f | f in findings :: f.DuplicateId? || f.BadClaim?)
    && (findings == [] <==> Distinct(records[..i]) && ClaimsFit(records[..i]))
  }

  function IndexFindings(l: Ledger, r: Record): seq<Finding> {
    (if r.id in l then [DuplicateId(r.id)] else []) + (if ClaimOk(r) then [] else [BadClaim(r.id)])
  }

  lemma {:induction false} IndexedStep(records: seq<Record>, i: nat, l: Ledger, findings: seq<Finding>)
    requires Indexed(records, i, l, findings) && i < |records|
    ensures Indexed(records, i + 1, l[records[i].id := records[i]], findings + IndexFindings(l, records[i]))
  {
    DistinctStep(records, i, l);
    ClaimsStep(records, i);
    IndexStep(records, i, l);
  }

  method IndexRecords(records: seq<Record>) returns (l: Ledger, findings: seq<Finding>)
    ensures IsIndex(records, l)
    ensures forall f | f in findings :: f.DuplicateId? || f.BadClaim?
    ensures findings == [] <==> Distinct(records) && ClaimsFit(records)
  {
    l, findings := map[], [];
    for i := 0 to |records|
      invariant Indexed(records, i, l, findings)
    {
      var r := records[i];
      IndexedStep(records, i, l, findings);
      if r.id in l { findings := findings + [DuplicateId(r.id)]; }
      if !ClaimOk(r) { findings := findings + [BadClaim(r.id)]; }
      l := l[r.id := r];
    }
    assert records[..|records|] == records;
  }

  lemma {:induction false} ClaimsStep(records: seq<Record>, i: nat)
    requires i < |records|
    ensures ClaimsFit(records[..i + 1]) <==> ClaimsFit(records[..i]) && ClaimOk(records[i])
  {
    ClaimMeans(records[i]);
    assert records[..i + 1] == records[..i] + [records[i]];
  }

  lemma {:induction false} DistinctStep(records: seq<Record>, i: nat, l: Ledger)
    requires i < |records| && IsIndex(records[..i], l)
    ensures records[..i + 1] == records[..i] + [records[i]]
    ensures Distinct(records[..i + 1]) <==> Distinct(records[..i]) && records[i].id !in l
  {
    var before, after := records[..i], records[..i + 1];
    if Distinct(after) {
      assert forall j | 0 <= j < i :: before[j] == after[j] && before[j].id != after[i].id;
    }
    if records[i].id !in l {
      assert forall j | 0 <= j < i :: before[j] in before && before[j].id != records[i].id;
    }
  }

  function Dependencies(l: Ledger): Graph { Graph(l.Keys, map k | k in l :: l[k].dependsOn) }

  /** What the ledger promises when the check has nothing to say. */
  ghost predicate LedgerOk(l: Ledger) {
    && Dependencies(l).Closed() && Dependencies(l).Acyclic()
    && (forall a, c | a in l && l[a].claim in {Claim(Implemented), Claim(Validated)} && Descends(l, a, c) && c in l ::
          Supports(l[a].claim, l[c]))
    && (forall a, x | a in l && x in l[a].related :: x in l)
    && (forall a, d | a in l && l[a].claim == Claim(Validated) && d in l[a].dependsOn && d in l ::
          l[d].claim == Claim(Validated))
  }

  ghost predicate Silent(l: Ledger, rid: Id)
    requires rid in l
  {
    forall f :: !RecordFinding(l, rid, f)
  }

  lemma {:induction false} OkIsSilent(l: Ledger, a: Id)
    requires LedgerOk(l) && a in l
    ensures Silent(l, a)
  {
    forall c | c in l
      ensures Unfinished(l[a], l[c]) <==> !Supports(l[a].claim, l[c])
      ensures Finished(l[a]) <==> l[a].claim in {Claim(Implemented), Claim(Validated)}
    {
      UnfinishedMeans(l[a], l[c]);
    }
    assert forall f :: !RecordFinding(l, a, f);
  }

  lemma {:induction false} SilentIsOk(l: Ledger)
    ensures LedgerOk(l) <==> Dependencies(l).Closed() && Dependencies(l).Acyclic() && forall a | a in l :: Silent(l, a)
  {
    if LedgerOk(l) {
      forall a | a in l ensures Silent(l, a) {
        OkIsSilent(l, a);
      }
    }
    if forall a | a in l :: Silent(l, a) {
      forall a, c | a in l && l[a].claim in {Claim(Implemented), Claim(Validated)} && Descends(l, a, c) && c in l
        ensures Supports(l[a].claim, l[c])
      {
        assert !RecordFinding(l, a, UnfinishedDescendant(a, c));
        UnfinishedMeans(l[a], l[c]);
      }
      forall a, x | a in l && x in l[a].related ensures x in l {
        assert !RecordFinding(l, a, UnknownRelated(a, x));
      }
      forall a, d | a in l && l[a].claim == Claim(Validated) && d in l[a].dependsOn && d in l
        ensures l[d].claim == Claim(Validated)
      {
        assert !RecordFinding(l, a, UnfinishedDependency(a, d));
      }
    }
  }

  /** Nothing to say about any record outside `rest`. */
  ghost predicate QuietBut(l: Ledger, rest: set<Id>) { forall a | a in l && a !in rest :: Silent(l, a) }

  lemma {:induction false} QuietStep(l: Ledger, rest: set<Id>, rid: Id, more: seq<Finding>)
    requires rid in rest && rid in l && forall f :: f in more <==> RecordFinding(l, rid, f)
    ensures QuietBut(l, rest - {rid}) <==> QuietBut(l, rest) && more == []
  {
    SilentIffNone(l, rid, more);
  }

  method CheckRecords(l: Ledger) returns (findings: seq<Finding>)
    ensures findings == [] <==> QuietBut(l, {})
  {
    findings := [];
    var rest := l.Keys;
    while rest != {}
      invariant rest <= l.Keys
      invariant findings == [] <==> QuietBut(l, rest)
      decreases |rest|
    {
      var rid :| rid in rest;
      var more := CheckRecord(l, rid);
      QuietStep(l, rest, rid, more);
      findings := findings + more;
      rest := rest - {rid};
    }
  }

  method CheckLedger(records: seq<Record>) returns (l: Ledger, findings: seq<Finding>)
    ensures IsIndex(records, l)
    ensures findings == [] <==> Distinct(records) && ClaimsFit(records) && LedgerOk(l)
  {
    l, findings := IndexRecords(records);
    var errors := CheckGraph(Dependencies(l));
    var more := CheckRecords(l);
    findings := findings + seq(|errors|, i requires 0 <= i < |errors| => GraphFinding(errors[i])) + more;
    SilentIsOk(l);
    assert QuietBut(l, {}) <==> forall a | a in l :: Silent(l, a);
  }

  lemma {:induction false} SilentIffNone(l: Ledger, rid: Id, findings: seq<Finding>)
    requires rid in l && forall f :: f in findings <==> RecordFinding(l, rid, f)
    ensures findings == [] <==> Silent(l, rid)
  {
    if findings != [] {
      assert findings[0] in findings;
    }
  }

  // ----- What a silent check means -----

  /** Every transitive dependency of a validated record is a validated record. */
  lemma {:induction false} ValidatedAllTheWay(l: Ledger, p: seq<Id>, i: nat)
    requires LedgerOk(l) && Dependencies(l).IsPath(p) && i < |p| && l[p[0]].claim == Claim(Validated)
    ensures p[i] in l && l[p[i]].claim == Claim(Validated)
    ensures forall d | d in l[p[i]].dependsOn :: d in l && l[d].claim == Claim(Validated)
  {
    var g := Dependencies(l);
    if i > 0 {
      ValidatedAllTheWay(l, p, i - 1);
      assert g.EdgeAt(p, i - 1);
    }
    assert g.Deps(p[i]) == l[p[i]].dependsOn;
  }

  /** Below a validated record no obligation is merely implemented, at any depth. */
  lemma {:induction false} DescendantsFinished(l: Ledger, a: Id, c: Id)
    requires LedgerOk(l) && a in l && l[a].claim in {Claim(Implemented), Claim(Validated)} && Descends(l, a, c) && c in l
    requires l[c].role in {Obligation, ObligationGroup}
    ensures l[c].claim in {Claim(Validated), Claim(DeferredByAdr), Claim(Implemented)}
    ensures l[a].claim == Claim(Validated) ==> l[c].claim != Claim(Implemented)
    ensures l[c].claim == Claim(Validated) ==> forall d | d in l[c].dependsOn :: d in l && l[d].claim == Claim(Validated)
  {
    assert Supports(l[a].claim, l[c]);
    assert Dependencies(l).Deps(c) == l[c].dependsOn;
  }
}
