/**
  The causal operation DAG of a Kyberia project and the map-mutation context
  derived from it: parents (the frontier), Lamport time and causal depth.

  An operation set is a map from operation identity to operation, as the
  operation log keeps it.  Well-formedness is what the log's graph validation
  demands of every set it hands out.
 */
module OperationDag {

  type OperationId = nat

  const MAX_PARENTS: nat := 8
  const U64_MAX: nat := 0xFFFF_FFFF_FFFF_FFFF

  datatype Evidence = Known(id: nat) | Unknown

  /** `title` stands for the map's name and provenance text. */
  datatype MapAsset = MapAsset(
    id: nat, floorId: nat, imageFrame: nat, width: nat, height: nat,
    sourceHash: nat, byteLength: nat, title: nat)

  datatype PixelPoint = PixelPoint(x: real, y: real)

  datatype Calibration = Calibration(
    id: nat, mapId: nat, sourceFrame: nat, targetFrame: nat,
    first: PixelPoint, second: PixelPoint)

  datatype Schema = V1 | V2 | V3

  datatype Mutation =
    | ImportMap(asset: MapAsset)
    | CalibrateMap(calibration: Calibration)
    | OtherMutation(content: nat)

  datatype Payload = Apply(mutation: Mutation) | OtherPayload(content: nat)

  datatype Prior =
    | MapAbsent(mapId: nat)
    | CalibrationAbsent(calibrationId: nat, ofMap: nat, active: Evidence)
    | OtherPrior(content: nat)

  datatype Inverse = ApplyV2(prior: Prior) | OtherInverse(content: nat)

  /** Equality of operations is equality of their canonical bytes. */
  datatype Operation = Operation(
    id: OperationId, projectId: nat, actorId: nat, deviceId: nat,
    logicalTime: nat, causalDepth: nat, parents: seq<OperationId>,
    schema: Schema, payload: Payload, inverse: Inverse)

  type OperationSet = map<OperationId, Operation>

  ghost predicate Keyed(ops: OperationSet) {
    forall id | id in ops :: ops[id].id == id
  }

  ghost predicate StrictlyIncreasing(s: seq<nat>) {
    forall i, j | 0 <= i < j < |s| :: s[i] < s[j]
  }

  // ----- Ancestry -----

  ghost predicate IsPath(ops: OperationSet, path: seq<OperationId>) {
    forall i | 0 < i < |path| :: path[i] in ops && path[i - 1] in ops[path[i]].parents
  }

  ghost predicate PathFromTo(ops: OperationSet, path: seq<OperationId>, a: OperationId, b: OperationId) {
    |path| >= 2 && IsPath(ops, path) && path[0] == a && path[|path| - 1] == b
  }

  ghost predicate Ancestor(ops: OperationSet, a: OperationId, b: OperationId) {
    exists path :: PathFromTo(ops, path, a, b)
  }

  // ----- Well-formed sets -----

  ghost predicate ParentsPrecede(ops: OperationSet, op: Operation) {
    forall p | p in op.parents :: p in ops && ops[p].logicalTime < op.logicalTime
  }

  ghost predicate Antichain(ops: OperationSet, ids: seq<OperationId>) {
    forall p, q | p in ids && q in ids :: !Ancestor(ops, p, q)
  }

  /** A root has depth zero, a child one more than its deepest parent. */
  ghost predicate DepthRule(ops: OperationSet, op: Operation) {
    if op.parents == [] then op.causalDepth == 0
    else
      && (forall p | p in op.parents :: p in ops && ops[p].causalDepth < op.causalDepth)
      && (exists p | p in op.parents :: p in ops && ops[p].causalDepth + 1 == op.causalDepth)
  }

  ghost predicate WellFormedOperation(ops: OperationSet, op: Operation) {
    && StrictlyIncreasing(op.parents)
    && |op.parents| <= MAX_PARENTS
    && 0 < op.logicalTime <= U64_MAX
    && op.causalDepth <= U64_MAX
    && ParentsPrecede(ops, op)
    && DepthRule(ops, op)
    && Antichain(ops, op.parents)
  }

  ghost predicate WellFormedAt(ops: OperationSet, id: OperationId) {
    id in ops ==> WellFormedOperation(ops, ops[id])
  }

  // The trigger keeps the solver from chasing parents of parents by itself.
  ghost predicate WellFormed(ops: OperationSet) {
    && Keyed(ops)
    && (forall id {:trigger WellFormedAt(ops, id)} :: WellFormedAt(ops, id))
  }

  // ----- The derived context -----

  datatype Context = Context(logicalTime: nat, causalDepth: nat, parents: seq<OperationId>)

  datatype Refusal = FrontierTooLarge | TimeExhausted | DepthExhausted

  datatype Derivation = Derived(context: Context) | Refused(refusal: Refusal)

  ghost predicate HasChild(ops: OperationSet, id: OperationId) {
    exists c | c in ops :: id in ops[c].parents
  }

  ghost function Heads(ops: OperationSet): set<OperationId> {
    set id | id in ops && !HasChild(ops, id)
  }

  /** One more than the largest logical time in use, or one when there is none. */
  ghost predicate NextTime(ops: OperationSet, time: nat) {
    && (forall id | id in ops :: ops[id].logicalTime < time)
    && (time == 1 || exists id | id in ops :: ops[id].logicalTime + 1 == time)
  }

  /** One more than the deepest head, or zero when there are no heads. */
  ghost predicate NextDepth(ops: OperationSet, depth: nat) {
    if Heads(ops) == {} then depth == 0
    else
      && (forall id | id in Heads(ops) :: ops[id].causalDepth < depth)
      && (exists id | id in Heads(ops) :: ops[id].causalDepth + 1 == depth)
  }

  ghost predicate IsContext(ops: OperationSet, ctx: Context) {
    && StrictlyIncreasing(ctx.parents)
    && |ctx.parents| <= MAX_PARENTS
    && (forall id :: id in ctx.parents <==> id in Heads(ops))
    && 0 < ctx.logicalTime <= U64_MAX && NextTime(ops, ctx.logicalTime)
    && ctx.causalDepth <= U64_MAX && NextDepth(ops, ctx.causalDepth)
  }

  ghost predicate Exhausted(ops: OperationSet) {
    || |Heads(ops)| > MAX_PARENTS
    || (exists id | id in ops :: ops[id].logicalTime >= U64_MAX)
    || (exists id | id in Heads(ops) :: ops[id].causalDepth >= U64_MAX)
  }

  /** The operations in the order an identity-keyed tree map yields them. */
  ghost predicate InIdOrder(ops: OperationSet, ordered: seq<Operation>) {
    && (forall i, j | 0 <= i < j < |ordered| :: ordered[i].id < ordered[j].id)
    && (forall i | 0 <= i < |ordered| :: ordered[i].id in ops && ops[ordered[i].id] == ordered[i])
    && (forall id | id in ops :: ops[id] in ordered)
  }

  ghost predicate IsParentBefore(ordered: seq<Operation>, n: nat, id: OperationId)
    requires n <= |ordered|
  {
    exists i | 0 <= i < n :: id in ordered[i].parents
  }

  lemma ChildInOrder(ops: OperationSet, ordered: seq<Operation>, id: OperationId)
    requires Keyed(ops) && InIdOrder(ops, ordered)
    ensures IsParentBefore(ordered, |ordered|, id) <==> HasChild(ops, id)
  {
    if IsParentBefore(ordered, |ordered|, id) {
      var i :| 0 <= i < |ordered| && id in ordered[i].parents;
      assert ordered[i].id in ops;
    }
    if HasChild(ops, id) {
      var c :| c in ops && id in ops[c].parents;
      assert ops[c] in ordered;
    }
  }

  /** First pass: everything some operation names as a parent, and the largest logical time. */
  method CollectNonHeads(ordered: seq<Operation>) returns (nonHeads: set<OperationId>, maximum: nat)
    ensures forall id :: id in nonHeads <==> IsParentBefore(ordered, |ordered|, id)
    ensures forall k | 0 <= k < |ordered| :: ordered[k].logicalTime <= maximum
    ensures maximum == 0 || exists k | 0 <= k < |ordered| :: ordered[k].logicalTime == maximum
  {
    nonHeads, maximum := {}, 0;
    for i := 0 to |ordered|
      invariant forall id :: id in nonHeads <==> IsParentBefore(ordered, i, id)
      invariant forall k | 0 <= k < i :: ordered[k].logicalTime <= maximum
      invariant maximum == 0 || exists k | 0 <= k < i :: ordered[k].logicalTime == maximum
    {
      if maximum < ordered[i].logicalTime {
        maximum := ordered[i].logicalTime;
      }
      nonHeads := nonHeads + (set p | p in ordered[i].parents);
    }
  }

  ghost predicate HeadIn(ordered: seq<Operation>, n: nat, nonHeads: set<OperationId>, id: OperationId)
    requires n <= |ordered|
  {
    id !in nonHeads && exists k | 0 <= k < n :: ordered[k].id == id
  }

  ghost predicate DepthIn(ordered: seq<Operation>, n: nat, nonHeads: set<OperationId>, depth: int)
    requires n <= |ordered|
  {
    exists k | 0 <= k < n :: ordered[k].id !in nonHeads && ordered[k].causalDepth == depth
  }

  /** Second pass: the operations outside `nonHeads`, in order, and their largest depth. */
  method CollectHeads(ordered: seq<Operation>, nonHeads: set<OperationId>)
    returns (heads: seq<OperationId>, maximum: int, ghost headSet: set<OperationId>)
    requires forall i, j | 0 <= i < j < |ordered| :: ordered[i].id < ordered[j].id
    ensures StrictlyIncreasing(heads)
    ensures forall id :: id in heads <==> HeadIn(ordered, |ordered|, nonHeads, id)
    ensures forall id :: id in headSet <==> id in heads
    ensures |headSet| == |heads|
    ensures forall k | 0 <= k < |ordered| && ordered[k].id !in nonHeads :: ordered[k].causalDepth <= maximum
    ensures if heads == [] then maximum == -1 else DepthIn(ordered, |ordered|, nonHeads, maximum)
  {
    heads, maximum, headSet := [], -1, {};
    for i := 0 to |ordered|
      invariant StrictlyIncreasing(heads)
      invariant forall id :: id in heads <==> HeadIn(ordered, i, nonHeads, id)
      invariant forall id :: id in headSet <==> id in heads
      invariant |headSet| == |heads|
      invariant forall k | 0 <= k < i && ordered[k].id !in nonHeads :: ordered[k].causalDepth <= maximum
      invariant if heads == [] then maximum == -1 else DepthIn(ordered, i, nonHeads, maximum)
    {
      if ordered[i].id !in nonHeads {
        assert forall h | 0 <= h < |heads| :: heads[h] in heads;
        assert forall id | id in heads :: id < ordered[i].id;
        assert ordered[i].id !in headSet;
        heads, headSet := heads + [ordered[i].id], headSet + {ordered[i].id};
        if maximum < ordered[i].causalDepth {
          maximum := ordered[i].causalDepth;
        }
      }
    }
  }

  lemma OperationAt(ops: OperationSet, ordered: seq<Operation>, id: OperationId) returns (k: nat)
    requires InIdOrder(ops, ordered) && id in ops
    ensures k < |ordered| && ordered[k] == ops[id]
  {
    k :| 0 <= k < |ordered| && ordered[k] == ops[id];
  }

  lemma CollectedHeads(ops: OperationSet, ordered: seq<Operation>, nonHeads: set<OperationId>, id: OperationId)
    requires Keyed(ops) && InIdOrder(ops, ordered)
    requires forall x :: x in nonHeads <==> IsParentBefore(ordered, |ordered|, x)
    ensures id in Heads(ops) <==> HeadIn(ordered, |ordered|, nonHeads, id)
  {
    ChildInOrder(ops, ordered, id);
    if id in Heads(ops) {
      var k := OperationAt(ops, ordered, id);
    }
  }

  lemma CollectedTime(ops: OperationSet, ordered: seq<Operation>, maximum: nat)
    requires InIdOrder(ops, ordered)
    requires forall k | 0 <= k < |ordered| :: ordered[k].logicalTime <= maximum
    requires maximum == 0 || exists k | 0 <= k < |ordered| :: ordered[k].logicalTime == maximum
    ensures NextTime(ops, maximum + 1)
  {
    forall id | id in ops ensures ops[id].logicalTime < maximum + 1 {
      var k := OperationAt(ops, ordered, id);
    }
    if maximum != 0 {
      var k :| 0 <= k < |ordered| && ordered[k].logicalTime == maximum;
      assert ordered[k].id in ops;
    }
  }

  lemma CollectedDepth(ops: OperationSet, ordered: seq<Operation>, nonHeads: set<OperationId>, maximum: nat)
    requires Keyed(ops) && InIdOrder(ops, ordered)
    requires forall id :: id in Heads(ops) <==> HeadIn(ordered, |ordered|, nonHeads, id)
    requires forall k | 0 <= k < |ordered| && ordered[k].id !in nonHeads :: ordered[k].causalDepth <= maximum
    requires DepthIn(ordered, |ordered|, nonHeads, maximum)
    ensures NextDepth(ops, maximum + 1)
    ensures exists id | id in Heads(ops) :: ops[id].causalDepth == maximum
  {
    forall id | id in Heads(ops) ensures ops[id].causalDepth <= maximum {
      var k := OperationAt(ops, ordered, id);
    }
    var k :| 0 <= k < |ordered| && ordered[k].id !in nonHeads && ordered[k].causalDepth == maximum;
    assert HeadIn(ordered, |ordered|, nonHeads, ordered[k].id);
    assert ordered[k].id in Heads(ops);
  }

  /** What the two passes find: the heads in id order, the next time, and the largest depth of a head. */
  ghost predicate Found(ops: OperationSet, time: nat, heads: seq<OperationId>, depth: int) {
    && StrictlyIncreasing(heads) && (forall id :: id in heads <==> id in Heads(ops)) && |Heads(ops)| == |heads|
    && NextTime(ops, time + 1)
    && if heads == [] then depth == -1
       else depth >= 0 && NextDepth(ops, depth + 1) && exists id | id in Heads(ops) :: ops[id].causalDepth == depth
  }

  method CollectBoth(ghost ops: OperationSet, ordered: seq<Operation>)
    returns (time: nat, heads: seq<OperationId>, depth: int)
    requires Keyed(ops) && InIdOrder(ops, ordered)
    ensures Found(ops, time, heads, depth)
  {
    var nonHeads;
    nonHeads, time := CollectNonHeads(ordered);
    CollectedTime(ops, ordered, time);
    ghost var headSet;
    heads, depth, headSet := CollectHeads(ordered, nonHeads);
    forall id ensures id in Heads(ops) <==> id in heads {
      CollectedHeads(ops, ordered, nonHeads, id);
    }
    assert headSet == Heads(ops);
    if heads != [] {
      CollectedDepth(ops, ordered, nonHeads, depth);
    }
  }

  /**
    The context derivation: one pass collects every parent and the largest
    logical time, a second collects the operations nobody names as a parent.
   */
  method DeriveMapContext(ghost ops: OperationSet, ordered: seq<Operation>) returns (r: Derivation)
    requires Keyed(ops) && InIdOrder(ops, ordered)
    ensures r.Refused? <==> Exhausted(ops)
    ensures r.Derived? ==> IsContext(ops, r.context)
  {
    var maximumLogicalTime, heads, maximumParentDepth := CollectBoth(ops, ordered);
    if |heads| > MAX_PARENTS {
      return Refused(FrontierTooLarge);
    }
    if maximumLogicalTime >= U64_MAX {
      return Refused(TimeExhausted);
    }
    if heads != [] {
      assert heads[0] in heads;
    }
    if maximumParentDepth >= U64_MAX {
      return Refused(DepthExhausted);
    }
    r := Derived(Context(maximumLogicalTime + 1, maximumParentDepth + 1, heads));
  }

  /** The derived context is a function of the set. */
  lemma ContextUnique(ops: OperationSet, a: Context, b: Context)
    requires IsContext(ops, a) && IsContext(ops, b)
    ensures a == b
  {
    SameElementsSameOrder(a.parents, b.parents);
  }

  lemma TailElements(s: seq<nat>, x: nat)
    requires StrictlyIncreasing(s) && s != []
    ensures x in s[1..] <==> x in s && x > s[0]
  {
    if x in s && x > s[0] {
      var i :| 0 <= i < |s| && s[i] == x;
      assert s[1..][i - 1] == x;
    }
  }

  lemma {:induction false} SameElementsSameOrder(a: seq<nat>, b: seq<nat>)
    requires StrictlyIncreasing(a) && StrictlyIncreasing(b)
    requires forall x :: x in a <==> x in b
    ensures a == b
    decreases |a|
  {
    if a == [] {
      assert forall i | 0 <= i < |b| :: b[i] in a;
    } else {
      assert a[0] in b;
      assert b[0] in a;
      forall x ensures x in a[1..] <==> x in b[1..] {
        TailElements(a, x);
        TailElements(b, x);
      }
      SameElementsSameOrder(a[1..], b[1..]);
      assert a == [a[0]] + a[1..] && b == [b[0]] + b[1..];
    }
  }

  // ----- What appending a derived operation does to the DAG -----

  lemma EdgeIsAncestor(ops: OperationSet, p: OperationId, c: OperationId)
    requires c in ops && p in ops[c].parents
    ensures Ancestor(ops, p, c)
  {
    assert PathFromTo(ops, [p, c], p, c);
  }

  lemma AncestorStep(ops: OperationSet, a: OperationId, p: OperationId, c: OperationId)
    requires Ancestor(ops, a, p) && c in ops && p in ops[c].parents
    ensures Ancestor(ops, a, c)
  {
    var path :| PathFromTo(ops, path, a, p);
    assert PathFromTo(ops, path + [c], a, c);
  }

  lemma {:induction false} PathInside(ops: OperationSet, path: seq<OperationId>, i: nat)
    requires WellFormed(ops) && IsPath(ops, path) && |path| > 0 && i < |path|
    requires path[|path| - 1] in ops
    ensures path[i] in ops
    decreases |path| - i
  {
    if i + 1 < |path| {
      PathInside(ops, path, i + 1);
      assert WellFormedAt(ops, path[i + 1]);
      assert path[i + 1 - 1] in ops[path[i + 1]].parents;
    }
  }

  /** Times strictly increase along a path. */
  lemma {:induction false} PathTimes(ops: OperationSet, path: seq<OperationId>, i: nat, j: nat)
    requires WellFormed(ops) && IsPath(ops, path) && i < j < |path|
    requires path[|path| - 1] in ops
    ensures path[i] in ops && path[j] in ops && ops[path[i]].logicalTime < ops[path[j]].logicalTime
    decreases j
  {
    PathInside(ops, path, i);
    PathInside(ops, path, j);
    PathInside(ops, path, j - 1);
    assert path[j - 1] in ops[path[j]].parents;
    assert WellFormedAt(ops, path[j]);
    if i < j - 1 {
      PathTimes(ops, path, i, j - 1);
    }
  }

  /** A well-formed set has no cycle. */
  lemma NoCycle(ops: OperationSet, a: OperationId)
    requires WellFormed(ops)
    ensures !Ancestor(ops, a, a)
  {
    if Ancestor(ops, a, a) {
      var path :| PathFromTo(ops, path, a, a);
      assert path[|path| - 1] in ops;
      PathTimes(ops, path, 0, |path| - 1);
    }
  }

  lemma AncestorOfOldIsOld(ops: OperationSet, op: Operation, a: OperationId, b: OperationId)
    requires WellFormed(ops) && op.id !in ops && b in ops
    requires Ancestor(ops[op.id := op], a, b)
    ensures Ancestor(ops, a, b)
  {
    var more := ops[op.id := op];
    var path :| PathFromTo(more, path, a, b);
    OldPathInside(ops, op, path, 0);
    forall i | 0 < i < |path| ensures path[i] in ops && path[i - 1] in ops[path[i]].parents {
      OldPathInside(ops, op, path, i);
    }
    assert PathFromTo(ops, path, a, b);
  }

  lemma {:induction false} OldPathInside(ops: OperationSet, op: Operation, path: seq<OperationId>, i: nat)
    requires WellFormed(ops) && op.id !in ops && i < |path|
    requires IsPath(ops[op.id := op], path) && path[|path| - 1] in ops
    ensures path[i] in ops
    decreases |path| - i
  {
    if i + 1 < |path| {
      OldPathInside(ops, op, path, i + 1);
      assert WellFormedAt(ops, path[i + 1]);
      assert path[i + 1 - 1] in ops[path[i + 1]].parents;
    }
  }

  /** Every operation is a head or an ancestor of one at least as deep. */
  lemma {:induction false} ReachesHead(ops: OperationSet, id: OperationId, bound: nat) returns (head: OperationId)
    requires WellFormed(ops) && id in ops
    requires forall x | x in ops :: ops[x].logicalTime <= bound
    ensures head in Heads(ops)
    ensures head == id || Ancestor(ops, id, head)
    ensures ops[id].causalDepth <= ops[head].causalDepth
    decreases bound - ops[id].logicalTime
  {
    if HasChild(ops, id) {
      var c :| c in ops && id in ops[c].parents;
      assert WellFormedAt(ops, c);
      head := ReachesHead(ops, c, bound);
      EdgeIsAncestor(ops, id, c);
      if head != c {
        var path :| PathFromTo(ops, path, c, head);
        assert PathFromTo(ops, [id] + path, id, head) by {
          var longer := [id] + path;
          forall i | 0 < i < |longer| ensures longer[i] in ops && longer[i - 1] in ops[longer[i]].parents {
            if i > 1 { assert path[i - 1] in ops && path[i - 1 - 1] in ops[path[i - 1]].parents; }
          }
        }
      }
    } else {
      head := id;
    }
  }

  /** `op` carries exactly the derived context. */
  ghost predicate CarriesContext(op: Operation, ctx: Context) {
    op.logicalTime == ctx.logicalTime && op.causalDepth == ctx.causalDepth && op.parents == ctx.parents
  }

  lemma AncestorHasChild(ops: OperationSet, a: OperationId, b: OperationId)
    requires Ancestor(ops, a, b)
    ensures HasChild(ops, a)
  {
    var path :| PathFromTo(ops, path, a, b);
    assert path[1] in ops && path[1 - 1] in ops[path[1]].parents;
  }

  lemma OldOperationStaysWellFormed(ops: OperationSet, op: Operation, id: OperationId)
    requires WellFormed(ops) && op.id !in ops && id in ops
    ensures WellFormedOperation(ops[op.id := op], ops[id])
  {
    var more, x := ops[op.id := op], ops[id];
    assert WellFormedAt(ops, id);
    if x.parents != [] {
      var p :| p in x.parents && p in ops && ops[p].causalDepth + 1 == x.causalDepth;
      assert p in more && more[p] == ops[p];
    }
    assert DepthRule(more, x);
    forall p, q | p in x.parents && q in x.parents ensures !Ancestor(more, p, q) {
      if Ancestor(more, p, q) {
        AncestorOfOldIsOld(ops, op, p, q);
      }
    }
  }

  lemma NewOperationWellFormed(ops: OperationSet, ctx: Context, op: Operation)
    requires WellFormed(ops) && IsContext(ops, ctx) && CarriesContext(op, ctx) && op.id !in ops
    ensures WellFormedOperation(ops[op.id := op], op)
  {
    var more := ops[op.id := op];
    if op.parents != [] {
      assert op.parents[0] in Heads(ops);
      var p :| p in Heads(ops) && ops[p].causalDepth + 1 == op.causalDepth;
      assert p in op.parents && p in more && more[p] == ops[p];
    } else {
      assert forall h | h in Heads(ops) :: h in op.parents;
      assert Heads(ops) == {};
    }
    assert DepthRule(more, op);
    forall p, q | p in op.parents && q in op.parents ensures !Ancestor(more, p, q) {
      if Ancestor(more, p, q) {
        AncestorOfOldIsOld(ops, op, p, q);
        AncestorHasChild(ops, p, q);
      }
    }
  }

  lemma DerivedOperationWellFormed(ops: OperationSet, ctx: Context, op: Operation)
    requires WellFormed(ops) && IsContext(ops, ctx) && CarriesContext(op, ctx) && op.id !in ops
    ensures WellFormed(ops[op.id := op])
  {
    var more := ops[op.id := op];
    forall id ensures WellFormedAt(more, id) {
      if id == op.id {
        NewOperationWellFormed(ops, ctx, op);
      } else if id in ops {
        OldOperationStaysWellFormed(ops, op, id);
      }
    }
  }

  lemma NewOperationDominates(ops: OperationSet, ctx: Context, op: Operation, id: OperationId)
    requires WellFormed(ops) && IsContext(ops, ctx) && CarriesContext(op, ctx) && op.id !in ops
    requires id in ops
    ensures Ancestor(ops[op.id := op], id, op.id)
    ensures ops[id].logicalTime < op.logicalTime
    ensures ops[id].causalDepth < op.causalDepth
  {
    var more := ops[op.id := op];
    var head := ReachesHead(ops, id, ctx.logicalTime);
    assert head in op.parents;
    EdgeIsAncestor(more, head, op.id);
    if head != id {
      var path :| PathFromTo(ops, path, id, head);
      forall i | 0 < i < |path| ensures path[i] in more && path[i - 1] in more[path[i]].parents {
        assert path[i] in ops && path[i] != op.id;
      }
      assert PathFromTo(more, path, id, head);
      AncestorStep(more, id, head, op.id);
    }
  }

  /**
    Appending an operation that carries the derived context keeps the DAG well
    formed, puts it causally after every existing operation, above all of them
    in logical time and depth, and leaves it the only head.
   */
  lemma DerivedOperationExtendsDag(ops: OperationSet, ctx: Context, op: Operation)
    requires WellFormed(ops) && IsContext(ops, ctx) && CarriesContext(op, ctx) && op.id !in ops
    ensures WellFormed(ops[op.id := op])
    ensures Heads(ops[op.id := op]) == {op.id}
    ensures forall id | id in ops ::
              && Ancestor(ops[op.id := op], id, op.id)
              && ops[id].logicalTime < op.logicalTime
              && ops[id].causalDepth < op.causalDepth
  {
    DerivedOperationWellFormed(ops, ctx, op);
    var more := ops[op.id := op];
    forall id | id in ops
      ensures Ancestor(more, id, op.id) && ops[id].logicalTime < op.logicalTime && ops[id].causalDepth < op.causalDepth
    {
      NewOperationDominates(ops, ctx, op, id);
    }
    forall id | id in ops ensures id !in Heads(more) {
      AncestorHasChild(more, id, op.id);
    }
    forall c | c in more ensures op.id !in more[c].parents {
      assert WellFormedAt(more, c);
      assert WellFormedAt(ops, c);
    }
    assert !HasChild(more, op.id);
  }
}
