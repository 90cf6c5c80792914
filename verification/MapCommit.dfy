/**
  Optimistic commit of map mutations.

  Sessions and other writers share one append-only operation log.  A session
  reads the set, reads the store state, derives an operation, validates it by
  materializing the extended set, and finally asks the store to append it if the
  revision is still the expected one.  Every read and the append are separate
  steps; anything may happen to the log in between, except that it only grows.
 */
module MapCommit {
  import opened OperationDag

  datatype Option<T> = None | Some(value: T)

  type Log = seq<Operation>

  // ----- The store: a log whose revision is its length -----

  ghost predicate DistinctIds(log: Log) {
    forall i, j | 0 <= i < j < |log| :: log[i].id != log[j].id
  }

  ghost function SetOf(log: Log): OperationSet {
    if log == [] then map[] else SetOf(log[..|log| - 1])[log[|log| - 1].id := log[|log| - 1]]
  }

  ghost predicate ValidLog(log: Log) {
    DistinctIds(log) && WellFormed(SetOf(log))
  }

  datatype AppendOutcome = Appended(revision: nat) | Duplicate(revision: nat) | NotAppended

  const MAX_OPERATION_COUNT: nat := 100_000

  /**
    Compare-and-append.  An operation of another project is refused, and the exact
    duplicate test comes before the revision test; a failing append changes
    nothing.  A fresh operation may always be turned away (replay admission, I/O),
    and is beyond the operation count.
   */
  ghost predicate AppendIfRevision(
    projectId: nat, log: Log, op: Operation, expected: Option<nat>, log': Log, r: AppendOutcome)
  {
    if op.projectId != projectId then
      log' == log && r == NotAppended
    else if op.id in SetOf(log) then
      log' == log && r == (if SetOf(log)[op.id] == op then Duplicate(|log|) else NotAppended)
    else if r.NotAppended? then
      log' == log
    else
      && (expected.None? || expected.value == |log|)
      && |log| < MAX_OPERATION_COUNT
      && log' == log + [op] && WellFormed(SetOf(log'))
      && r == Appended(|log| + 1)
  }

  lemma {:induction false} SetOfAppend(log: Log, op: Operation)
    ensures SetOf(log + [op]) == SetOf(log)[op.id := op]
  {
    assert (log + [op])[..|log|] == log;
  }

  lemma {:induction false} SetOfContents(log: Log, id: OperationId)
    ensures id in SetOf(log) <==> exists i :: 0 <= i < |log| && log[i].id == id
    ensures id in SetOf(log) ==> SetOf(log)[id] in log && SetOf(log)[id].id == id
  {
    if log != [] {
      var front, last := log[..|log| - 1], log[|log| - 1];
      SetOfContents(front, id);
      if last.id == id {
        assert log[|log| - 1].id == id;
      } else if exists i :: 0 <= i < |log| && log[i].id == id {
        var i :| 0 <= i < |log| && log[i].id == id;
        assert front[i].id == id;
      } else {
        assert forall i | 0 <= i < |front| :: front[i] == log[i];
      }
    }
  }

  lemma {:induction false} SetOfAt(log: Log, i: nat)
    requires DistinctIds(log) && i < |log|
    ensures log[i].id in SetOf(log) && SetOf(log)[log[i].id] == log[i]
  {
    SetOfContents(log, log[i].id);
  }

  lemma {:induction false} SetOfSize(log: Log)
    requires DistinctIds(log)
    ensures |SetOf(log)| == |log|
  {
    if log != [] {
      var front, last := log[..|log| - 1], log[|log| - 1];
      SetOfSize(front);
      SetOfContents(front, last.id);
      assert forall i | 0 <= i < |front| :: front[i] == log[i];
      assert SetOf(log).Keys == SetOf(front).Keys + {last.id};
    }
  }

  lemma {:induction false} SetOfPrefix(log: Log, more: Log, id: OperationId)
    requires DistinctIds(more) && log <= more && id in SetOf(log)
    ensures id in SetOf(more) && SetOf(more)[id] == SetOf(log)[id]
  {
    assert DistinctIds(log);
    SetOfContents(log, id);
    var i :| 0 <= i < |log| && log[i].id == id;
    SetOfAt(log, i);
    SetOfAt(more, i);
  }

  lemma {:induction false} AppendKeepsValid(
    projectId: nat, log: Log, op: Operation, expected: Option<nat>, log': Log, r: AppendOutcome)
    requires ValidLog(log) && AppendIfRevision(projectId, log, op, expected, log', r)
    ensures ValidLog(log') && log <= log'
    ensures r.Appended? ==> |log| < |log'| && log'[|log|] == op && log'[..|log|] == log
    ensures r.Appended? ==> op.projectId == projectId && |log| < MAX_OPERATION_COUNT
    ensures r.Duplicate? ==> log' == log && op.id in SetOf(log) && SetOf(log)[op.id] == op
  {
    if r.Appended? {
      SetOfContents(log, op.id);
    }
  }

  // ----- Tasks -----

  datatype Authority = Authority(operationId: OperationId, actorId: nat, deviceId: nat, utcMs: int)

  /**
    An intent names content and authorship; a request also carries a complete
    operation and the revision its caller believes in.
   */
  datatype Task =
    | ImportIntent(authority: Authority, asset: MapAsset)
    | CalibrateIntent(authority: Authority, calibration: Calibration)
    | Request(operation: Operation, expected: nat)
  {
    predicate IsIntent() { !Request? }

    function Id(): OperationId {
      if Request? then operation.id else authority.operationId
    }
  }

  datatype Project = Project(
    id: nat, revision: nat, floorFrame: map<nat, nat>, maps: map<nat, MapAsset>, active: map<nat, Evidence>)

  /** Materialization is a deterministic partial function of the operation set. */
  datatype Env = Env(projectId: nat, baselineId: Option<nat>, materialize: OperationSet -> Option<Project>)

  predicate Inside(p: PixelPoint, asset: MapAsset) {
    0.0 <= p.x < asset.width as real && 0.0 <= p.y < asset.height as real
  }

  predicate CalibrationFits(project: Project, c: Calibration) {
    c.mapId in project.maps ==>
      var asset := project.maps[c.mapId];
      && c.sourceFrame == asset.imageFrame
      && asset.floorId in project.floorFrame && c.targetFrame == project.floorFrame[asset.floorId]
      && Inside(c.first, asset) && Inside(c.second, asset)
  }

  /** The stored operation is the one this intent describes. */
  predicate Matches(projectId: nat, task: Task, op: Operation)
    requires task.IsIntent()
  {
    && op.projectId == projectId
    && op.actorId == task.authority.actorId
    && op.deviceId == task.authority.deviceId
    && op.schema == V3
    && match task {
         case ImportIntent(_, asset) =>
           && op.id == task.authority.operationId
           && op.payload == Apply(ImportMap(asset))
           && op.inverse == ApplyV2(MapAbsent(asset.id))
         case CalibrateIntent(_, c) =>
           && op.payload == Apply(CalibrateMap(c))
           && op.inverse.ApplyV2? && op.inverse.prior.CalibrationAbsent?
           && op.inverse.prior.calibrationId == c.id && op.inverse.prior.ofMap == c.mapId
       }
  }

  /** What an intent still needs from the project once its identity is fresh. */
  predicate Prerequisites(project: Project, task: Task)
    requires task.IsIntent()
  {
    match task {
      case ImportIntent(_, asset) => asset.floorId in project.floorFrame
      case CalibrateIntent(_, c) => c.mapId in project.maps && c.mapId in project.active
    }
  }

  function Build(task: Task, project: Project, ctx: Context): (op: Operation)
    requires task.IsIntent() && Prerequisites(project, task)
    ensures Matches(project.id, task, op) && CarriesContext(op, ctx) && op.id == task.Id()
  {
    var a := task.authority;
    match task {
      case ImportIntent(_, asset) =>
        Operation(a.operationId, project.id, a.actorId, a.deviceId, ctx.logicalTime, ctx.causalDepth, ctx.parents,
                  V3, Apply(ImportMap(asset)), ApplyV2(MapAbsent(asset.id)))
      case CalibrateIntent(_, c) =>
        Operation(a.operationId, project.id, a.actorId, a.deviceId, ctx.logicalTime, ctx.causalDepth, ctx.parents,
                  V3, Apply(CalibrateMap(c)), ApplyV2(CalibrationAbsent(c.id, c.mapId, project.active[c.mapId])))
    }
  }

  // ----- Sessions as step machines -----

  datatype Reply = Ok(id: OperationId, revision: nat, readback: bool) | Err

  datatype Pc =
    | Start
    | SetRead
    | Retry(existing: Operation)
    | Commit(op: Operation, expected: nat)
    | AboutToAppend(op: Operation, expected: nat)
    | Readback(id: OperationId, revision: nat)
    | Done(reply: Reply)

  /**
    `base` is the log the operation set was read from, `validated` the log whose
    extension was materialized, `appendedAt` the index of the operation this very
    call appended.
   */
  datatype Session = Session(task: Task, pc: Pc, base: Log, validated: Log, appendedAt: Option<nat>)

  /** Cancellation, an exhausted budget, a failed check or an I/O error before the append. */
  ghost predicate FailStep(s: Session, s': Session) {
    && !s.pc.Done? && !s.pc.Readback?
    && s' == s.(pc := Done(Err))
  }

  ghost predicate StartStep(env: Env, log: Log, s: Session, s': Session) {
    && s.pc.Start?
    && if s.task.IsIntent() then
         s.task.authority.utcMs >= 0 && env.baselineId.Some? && s' == s.(pc := SetRead, base := log)
       else
         env.baselineId.Some? && s' == s.(pc := Commit(s.task.operation, s.task.expected))
  }

  /** The state read after the set must agree with it, and so must the materialized project. */
  ghost predicate CanonicalState(env: Env, log: Log, base: Log) {
    && env.baselineId == Some(env.projectId)
    && |SetOf(base)| == |log|
    && env.materialize(SetOf(base)).Some?
    && env.materialize(SetOf(base)).value.revision == |log|
    && env.materialize(SetOf(base)).value.id == env.projectId
  }

  ghost predicate DecideStep(env: Env, log: Log, s: Session, s': Session) {
    && s.pc.SetRead? && s.task.IsIntent()
    && CanonicalState(env, log, s.base)
    && var project := env.materialize(SetOf(s.base)).value;
       && (s.task.CalibrateIntent? ==> CalibrationFits(project, s.task.calibration))
       && if s.task.Id() in SetOf(s.base) then
            var existing := SetOf(s.base)[s.task.Id()];
            Matches(env.projectId, s.task, existing) && s' == s.(pc := Retry(existing))
          else
            && Prerequisites(project, s.task)
            && s'.pc.Commit?
            && var op := s'.pc.op;
               var ctx := Context(op.logicalTime, op.causalDepth, op.parents);
               && IsContext(SetOf(s.base), ctx)
               && op == Build(s.task, project, ctx)
               && s' == s.(pc := Commit(op, |log|))
  }

  /** The set the operation was validated against: the log read at this moment plus the candidate. */
  ghost predicate Validated(env: Env, log: Log, op: Operation) {
    && |log| < MAX_OPERATION_COUNT
    && (op.id in SetOf(log) ==> SetOf(log)[op.id] == op)
    && WellFormed(SetOf(log)[op.id := op])
    && env.materialize(SetOf(log)[op.id := op]).Some?
  }

  ghost predicate ValidateStep(env: Env, log: Log, s: Session, s': Session) {
    && s.pc.Commit?
    && Validated(env, log, s.pc.op)
    && s' == s.(pc := AboutToAppend(s.pc.op, s.pc.expected), validated := log)
  }

  ghost predicate AppendStep(env: Env, log: Log, s: Session, log': Log, s': Session, r: AppendOutcome) {
    && s.pc.AboutToAppend?
    && AppendIfRevision(env.projectId, log, s.pc.op, Some(s.pc.expected), log', r)
    && s' == match r {
         case Appended(revision) => s.(pc := Readback(s.pc.op.id, revision), appendedAt := Some(|log|))
         case Duplicate(revision) => s.(pc := Readback(s.pc.op.id, revision))
         case NotAppended => s.(pc := Done(Err))
       }
  }

  /** A retry appends without a revision and treats an actual append as a conflict. */
  ghost predicate RetryStep(env: Env, log: Log, s: Session, log': Log, s': Session, r: AppendOutcome) {
    && s.pc.Retry?
    && AppendIfRevision(env.projectId, log, s.pc.existing, None, log', r)
    && s' == match r {
         case Duplicate(revision) => s.(pc := Readback(s.pc.existing.id, revision))
         case Appended(_) => s.(pc := Done(Err), appendedAt := Some(|log|))
         case NotAppended => s.(pc := Done(Err))
       }
  }

  /** After a durable append, an intent answers Ok whatever the readback did; a request does not. */
  ghost predicate ReadbackStep(s: Session, s': Session, readback: bool) {
    && s.pc.Readback?
    && s' == s.(pc := Done(
         if s.task.IsIntent() || readback then Ok(s.pc.id, s.pc.revision, readback) else Err))
  }

  ghost predicate SessionStep(env: Env, log: Log, s: Session, log': Log, s': Session) {
    || (log' == log && FailStep(s, s'))
    || (log' == log && StartStep(env, log, s, s'))
    || (log' == log && DecideStep(env, log, s, s'))
    || (log' == log && ValidateStep(env, log, s, s'))
    || (log' == log && exists readback :: ReadbackStep(s, s', readback))
    || (exists r :: AppendStep(env, log, s, log', s', r))
    || (exists r :: RetryStep(env, log, s, log', s', r))
  }

  // ----- The system -----

  datatype State = State(log: Log, sessions: seq<Session>)

  ghost predicate Init(st: State) {
    && ValidLog(st.log)
    && forall i | 0 <= i < |st.sessions| :: st.sessions[i] == Session(st.sessions[i].task, Start, [], [], None)
  }

  ghost predicate SessionMoves(env: Env, st: State, st': State, i: nat) {
    && i < |st.sessions| && |st'.sessions| == |st.sessions|
    && SessionStep(env, st.log, st.sessions[i], st'.log, st'.sessions[i])
    && forall j | 0 <= j < |st.sessions| && j != i :: st'.sessions[j] == st.sessions[j]
  }

  ghost predicate OtherWriterMoves(env: Env, st: State, st': State, op: Operation, expected: Option<nat>, r: AppendOutcome) {
    && AppendIfRevision(env.projectId, st.log, op, expected, st'.log, r)
    && st'.sessions == st.sessions
  }

  ghost predicate Step(env: Env, st: State, st': State) {
    || (exists i :: SessionMoves(env, st, st', i))
    || (exists op, expected, r :: OtherWriterMoves(env, st, st', op, expected, r))
  }

  ghost predicate StepAt(env: Env, run: seq<State>, t: nat) {
    0 < t < |run| ==> Step(env, run[t - 1], run[t])
  }

  ghost predicate IsRun(env: Env, run: seq<State>) {
    && |run| > 0 && Init(run[0])
    && forall t: nat {:trigger StepAt(env, run, t)} :: StepAt(env, run, t)
  }

  // ----- The invariant -----

  /** `op` is what the intent derives from `base`. */
  ghost predicate DerivedFrom(env: Env, task: Task, base: Log, op: Operation)
    requires task.IsIntent()
  {
    && CanonicalState(env, base, base)
    && task.Id() !in SetOf(base)
    && Prerequisites(env.materialize(SetOf(base)).value, task)
    && (task.CalibrateIntent? ==> CalibrationFits(env.materialize(SetOf(base)).value, task.calibration))
    && var ctx := Context(op.logicalTime, op.causalDepth, op.parents);
       && IsContext(SetOf(base), ctx)
       && op == Build(task, env.materialize(SetOf(base)).value, ctx)
  }

  ghost predicate Committing(env: Env, log: Log, s: Session, op: Operation, expected: nat) {
    if s.task.IsIntent() then DerivedFrom(env, s.task, s.base, op) && expected == |s.base|
    else op == s.task.operation && expected == s.task.expected
  }

  ghost predicate InLog(env: Env, log: Log, s: Session, id: OperationId) {
    && id == s.task.Id() && id in SetOf(log)
    && if s.task.IsIntent() then Matches(env.projectId, s.task, SetOf(log)[id])
       else SetOf(log)[id] == s.task.operation
  }

  ghost predicate PcInv(env: Env, log: Log, s: Session) {
    match s.pc {
      case Start => s.appendedAt.None?
      case SetRead => s.appendedAt.None? && s.task.IsIntent()
      case Retry(existing) =>
        && s.appendedAt.None? && s.task.IsIntent()
        && s.task.Id() in SetOf(s.base) && SetOf(s.base)[s.task.Id()] == existing
        && Matches(env.projectId, s.task, existing)
      case Commit(op, expected) => s.appendedAt.None? && Committing(env, log, s, op, expected)
      case AboutToAppend(op, expected) =>
        s.appendedAt.None? && Committing(env, log, s, op, expected) && Validated(env, s.validated, op)
      case Readback(id, _) => InLog(env, log, s, id)
      case Done(Ok(id, _, _)) => InLog(env, log, s, id)
      case Done(Err) => s.task.IsIntent() ==> s.appendedAt.None?
    }
  }

  ghost predicate AppendInv(env: Env, log: Log, s: Session) {
    s.appendedAt.Some? ==>
      var k := s.appendedAt.value;
      && k < |log| && k < MAX_OPERATION_COUNT && log[k].id == s.task.Id() && log[k].projectId == env.projectId
      && Validated(env, s.validated, log[k])
      && if s.task.IsIntent() then
           log[..k] == s.base && s.validated == s.base && DerivedFrom(env, s.task, s.base, log[k])
         else
           log[k] == s.task.operation && k == s.task.expected && s.validated <= log[..k]
  }

  ghost predicate SessionInv(env: Env, log: Log, s: Session) {
    && s.base <= log && s.validated <= log && WellFormed(SetOf(s.base))
    && PcInv(env, log, s)
    && AppendInv(env, log, s)
    && (s.pc.AboutToAppend? && s.task.IsIntent() ==> s.base <= s.validated)
  }

  ghost predicate SessionOk(env: Env, st: State, i: nat) {
    i < |st.sessions| ==> SessionInv(env, st.log, st.sessions[i])
  }

  ghost predicate Inv(env: Env, st: State) {
    ValidLog(st.log) && forall i: nat {:trigger SessionOk(env, st, i)} :: SessionOk(env, st, i)
  }

  lemma {:induction false} GrowthKeepsSession(env: Env, log: Log, log': Log, s: Session)
    requires ValidLog(log') && log <= log' && SessionInv(env, log, s)
    ensures SessionInv(env, log', s)
  {
    if s.appendedAt.Some? {
      var k := s.appendedAt.value;
      assert log'[..k] == log[..k];
    }
    if s.pc.Readback? || (s.pc.Done? && s.pc.reply.Ok?) {
      SetOfPrefix(log, log', s.task.Id());
    }
  }

  lemma {:induction false} DecideKeepsSession(env: Env, log: Log, s: Session, s': Session)
    requires ValidLog(log) && SessionInv(env, log, s) && DecideStep(env, log, s, s')
    ensures SessionInv(env, log, s')
  {
    assert DistinctIds(s.base);
    SetOfSize(s.base);
    assert s.base == log;
    if s.task.Id() in SetOf(s.base) {
      SetOfContents(s.base, s.task.Id());
    }
  }

  lemma {:induction false} AppendKeepsSession(env: Env, log: Log, s: Session, log': Log, s': Session, r: AppendOutcome)
    requires ValidLog(log) && SessionInv(env, log, s) && AppendStep(env, log, s, log', s', r)
    ensures ValidLog(log') && log <= log' && SessionInv(env, log', s')
  {
    AppendKeepsValid(env.projectId, log, s.pc.op, Some(s.pc.expected), log', r);
    var op := s.pc.op;
    if r.Appended? {
      SetOfAppend(log, op);
      if s.task.IsIntent() {
        assert s.base == log && s.validated == log;
      }
    }
  }

  lemma {:induction false} RetryKeepsSession(env: Env, log: Log, s: Session, log': Log, s': Session, r: AppendOutcome)
    requires ValidLog(log) && SessionInv(env, log, s) && RetryStep(env, log, s, log', s', r)
    ensures ValidLog(log') && log <= log' && SessionInv(env, log', s')
  {
    AppendKeepsValid(env.projectId, log, s.pc.existing, None, log', r);
    SetOfPrefix(s.base, log, s.task.Id());
    SetOfContents(s.base, s.task.Id());
  }

  lemma {:induction false} SessionStepKeepsSession(env: Env, log: Log, s: Session, log': Log, s': Session)
    requires ValidLog(log) && SessionInv(env, log, s) && SessionStep(env, log, s, log', s')
    ensures ValidLog(log') && log <= log' && SessionInv(env, log', s')
  {
    if r :| AppendStep(env, log, s, log', s', r) {
      AppendKeepsSession(env, log, s, log', s', r);
    } else if r :| RetryStep(env, log, s, log', s', r) {
      RetryKeepsSession(env, log, s, log', s', r);
    } else if DecideStep(env, log, s, s') {
      DecideKeepsSession(env, log, s, s');
    }
  }

  lemma {:induction false} InitEstablishesInv(env: Env, st: State)
    requires Init(st)
    ensures Inv(env, st)
  {
    forall i: nat ensures SessionOk(env, st, i) {
      if i < |st.sessions| {
        assert st.sessions[i] == Session(st.sessions[i].task, Start, [], [], None);
      }
    }
  }

  ghost predicate Extends(st: State, st': State) {
    && st.log <= st'.log && |st'.sessions| == |st.sessions|
    && forall i | 0 <= i < |st.sessions| :: st'.sessions[i].task == st.sessions[i].task
  }

  lemma {:induction false} SessionMoveKeepsInv(env: Env, st: State, st': State, i: nat)
    requires Inv(env, st) && SessionMoves(env, st, st', i)
    ensures Inv(env, st') && Extends(st, st')
  {
    assert SessionOk(env, st, i);
    SessionStepKeepsSession(env, st.log, st.sessions[i], st'.log, st'.sessions[i]);
    assert st'.sessions[i].task == st.sessions[i].task;
    forall j: nat ensures SessionOk(env, st', j) {
      if j < |st.sessions| && j != i {
        assert SessionOk(env, st, j);
        GrowthKeepsSession(env, st.log, st'.log, st.sessions[j]);
      }
    }
  }

  lemma {:induction false} OtherWriterKeepsInv(env: Env, st: State, st': State, op: Operation, expected: Option<nat>, r: AppendOutcome)
    requires Inv(env, st) && OtherWriterMoves(env, st, st', op, expected, r)
    ensures Inv(env, st') && Extends(st, st')
  {
    AppendKeepsValid(env.projectId, st.log, op, expected, st'.log, r);
    forall j: nat ensures SessionOk(env, st', j) {
      if j < |st.sessions| {
        assert SessionOk(env, st, j);
        GrowthKeepsSession(env, st.log, st'.log, st.sessions[j]);
      }
    }
  }

  lemma {:induction false} StepKeepsInv(env: Env, st: State, st': State)
    requires Inv(env, st) && Step(env, st, st')
    ensures Inv(env, st') && Extends(st, st')
  {
    if i :| SessionMoves(env, st, st', i) {
      SessionMoveKeepsInv(env, st, st', i);
    } else {
      var op, expected, r :| OtherWriterMoves(env, st, st', op, expected, r);
      OtherWriterKeepsInv(env, st, st', op, expected, r);
    }
  }

  lemma {:induction false} RunKeepsInv(env: Env, run: seq<State>, t: nat)
    requires IsRun(env, run) && t < |run|
    ensures Inv(env, run[t])
  {
    if t == 0 {
      InitEstablishesInv(env, run[0]);
    } else {
      RunKeepsInv(env, run, t - 1);
      assert StepAt(env, run, t);
      StepKeepsInv(env, run[t - 1], run[t]);
    }
  }

  lemma {:induction false} ExtendsTransitive(a: State, b: State, c: State)
    requires Extends(a, b) && Extends(b, c)
    ensures Extends(a, c)
  {
    forall i | 0 <= i < |a.sessions| ensures c.sessions[i].task == a.sessions[i].task {
      assert b.sessions[i].task == a.sessions[i].task;
    }
  }

  lemma {:induction false} StepExtends(env: Env, run: seq<State>, t: nat)
    requires IsRun(env, run) && 0 < t < |run|
    ensures Extends(run[t - 1], run[t])
  {
    RunKeepsInv(env, run, t - 1);
    assert StepAt(env, run, t);
    StepKeepsInv(env, run[t - 1], run[t]);
  }

  /** The log only grows, and sessions keep their task. */
  lemma {:induction false} RunGrows(env: Env, run: seq<State>, t: nat, u: nat)
    requires IsRun(env, run) && t <= u < |run|
    ensures Extends(run[t], run[u])
    decreases u
  {
    if t < u {
      RunGrows(env, run, t, u - 1);
      StepExtends(env, run, u);
      ExtendsTransitive(run[t], run[u - 1], run[u]);
    }
  }

  // ----- What holds of every run -----

  ghost predicate PointInside(p: PixelPoint, width: nat, height: nat) {
    p.x >= 0.0 && p.y >= 0.0 && p.x < width as real && p.y < height as real
  }

  /** An operation that imports `asset`: its undo is the absence of that map, on a floor the project has. */
  ghost predicate RecordsImport(project: Project, asset: MapAsset, op: Operation) {
    && op.payload == Apply(ImportMap(asset))
    && op.inverse == ApplyV2(MapAbsent(asset.id))
    && asset.floorId in project.floorFrame
  }

  /**
    An operation that calibrates a map of the project, between its own image frame
    and the frame of its floor, with both control points on the image; its undo is
    what was active for that map before.
   */
  ghost predicate RecordsCalibration(project: Project, c: Calibration, op: Operation) {
    && op.payload == Apply(CalibrateMap(c))
    && c.mapId in project.maps && c.mapId in project.active
    && op.inverse.ApplyV2? && op.inverse.prior.CalibrationAbsent?
    && op.inverse.prior.calibrationId == c.id
    && op.inverse.prior.ofMap == c.mapId
    && op.inverse.prior.active == project.active[c.mapId]
    && var asset := project.maps[c.mapId];
       && c.sourceFrame == asset.imageFrame
       && asset.floorId in project.floorFrame && c.targetFrame == project.floorFrame[asset.floorId]
       && PointInside(c.first, asset.width, asset.height) && PointInside(c.second, asset.width, asset.height)
  }

  ghost predicate Records(project: Project, task: Task, op: Operation)
    requires task.IsIntent()
  {
    && op.id == task.authority.operationId && op.actorId == task.authority.actorId
    && op.deviceId == task.authority.deviceId && op.projectId == project.id && op.schema == V3
    && match task {
         case ImportIntent(_, asset) => RecordsImport(project, asset, op)
         case CalibrateIntent(_, c) => RecordsCalibration(project, c, op)
       }
  }

  lemma {:induction false} DerivedRecords(env: Env, task: Task, base: Log, op: Operation)
    requires task.IsIntent() && DerivedFrom(env, task, base, op)
    ensures Records(env.materialize(SetOf(base)).value, task, op) && op.projectId == env.projectId
  {
  }

  /**
    Whatever ran in between, an operation appended by an intent directly extends
    the log its parents, time and depth were derived from, says what the intent
    asked for and undoes to what the project of that very log had, that exact
    extended log materialized, and it became the only head.
   */
  lemma {:induction false} AppendedIntentExtendsItsBase(env: Env, run: seq<State>, t: nat, i: nat)
    requires IsRun(env, run) && t < |run| && i < |run[t].sessions|
    requires run[t].sessions[i].task.IsIntent() && run[t].sessions[i].appendedAt.Some?
    ensures
      var s, log := run[t].sessions[i], run[t].log;
      var k := s.appendedAt.value;
      && k < |log| && log[..k] == s.base
      && IsContext(SetOf(log[..k]), Context(log[k].logicalTime, log[k].causalDepth, log[k].parents))
      && env.materialize(SetOf(log[..k])).Some?
      && Records(env.materialize(SetOf(log[..k])).value, s.task, log[k]) && log[k].projectId == env.projectId
      && env.materialize(SetOf(log[..k + 1])).Some?
      && WellFormed(SetOf(log[..k + 1]))
      && Heads(SetOf(log[..k + 1])) == {log[k].id}
      && forall id | id in SetOf(log[..k]) ::
           && Ancestor(SetOf(log[..k + 1]), id, log[k].id)
           && SetOf(log[..k])[id].logicalTime < log[k].logicalTime
           && SetOf(log[..k])[id].causalDepth < log[k].causalDepth
  {
    RunKeepsInv(env, run, t);
    var s, log := run[t].sessions[i], run[t].log;
    assert SessionOk(env, run[t], i);
    var k := s.appendedAt.value;
    var op := log[k];
    assert log[..k + 1] == log[..k] + [op];
    SetOfAppend(log[..k], op);
    DerivedRecords(env, s.task, s.base, op);
    DerivedOperationExtendsDag(SetOf(log[..k]), Context(op.logicalTime, op.causalDepth, op.parents), op);
  }

  /** Ok is durable: from then on the log holds the operation the intent describes, readback or not. */
  lemma {:induction false} OkIsDurable(env: Env, run: seq<State>, t: nat, u: nat, i: nat)
    requires IsRun(env, run) && t <= u < |run| && i < |run[t].sessions|
    requires run[t].sessions[i].task.IsIntent()
    requires run[t].sessions[i].pc.Done? && run[t].sessions[i].pc.reply.Ok?
    ensures
      var task := run[t].sessions[i].task;
      && run[t].sessions[i].pc.reply.id == task.Id()
      && task.Id() in SetOf(run[u].log)
      && Matches(env.projectId, task, SetOf(run[u].log)[task.Id()])
  {
    RunKeepsInv(env, run, t);
    RunKeepsInv(env, run, u);
    RunGrows(env, run, t, u);
    assert SessionOk(env, run[t], i);
    SetOfPrefix(run[t].log, run[u].log, run[t].sessions[i].task.Id());
  }

  /** An intent that answers Err appended nothing. */
  lemma {:induction false} ErrAppendsNothing(env: Env, run: seq<State>, t: nat, i: nat)
    requires IsRun(env, run) && t < |run| && i < |run[t].sessions|
    requires run[t].sessions[i].task.IsIntent()
    requires run[t].sessions[i].pc == Done(Err)
    ensures run[t].sessions[i].appendedAt.None?
  {
    RunKeepsInv(env, run, t);
    assert SessionOk(env, run[t], i);
  }

  // ----- The revision answered -----

  /** Step `a` is the one in which the store told session `i` that its operation is in the log. */
  ghost predicate AnsweredAt(run: seq<State>, a: nat, i: nat, revision: nat) {
    && 0 < a < |run| && i < |run[a - 1].sessions| && i < |run[a].sessions|
    && (run[a - 1].sessions[i].pc.AboutToAppend? || run[a - 1].sessions[i].pc.Retry?)
    && run[a].sessions[i].pc.Readback?
    && revision == |run[a].log| && run[a].sessions[i].task.Id() in SetOf(run[a].log)
  }

  ghost predicate Answered(s: Session, revision: nat) {
    (s.pc.Readback? && s.pc.revision == revision) || (s.pc.Done? && s.pc.reply.Ok? && s.pc.reply.revision == revision)
  }

  ghost predicate WasAnswered(run: seq<State>, t: nat, i: nat, revision: nat) {
    exists a: nat :: a <= t && AnsweredAt(run, a, i, revision)
  }

  lemma {:induction false} AnswerStep(env: Env, log: Log, s: Session, log': Log, s': Session, revision: nat)
    requires ValidLog(log) && SessionInv(env, log, s) && SessionStep(env, log, s, log', s')
    requires Answered(s', revision) && !Answered(s, revision)
    ensures s.pc.AboutToAppend? || s.pc.Retry?
    ensures s'.pc.Readback? && revision == |log'|
    ensures s'.appendedAt.Some? ==> s'.appendedAt.value + 1 == revision
  {
    if r :| AppendStep(env, log, s, log', s', r) {
      AppendKeepsValid(env.projectId, log, s.pc.op, Some(s.pc.expected), log', r);
    } else if r :| RetryStep(env, log, s, log', s', r) {
      AppendKeepsValid(env.projectId, log, s.pc.existing, None, log', r);
    }
  }

  /** The state of one session before the last step of a run, and that it moved by a step of its own. */
  lemma {:induction false} MovedBySelf(env: Env, run: seq<State>, t: nat, i: nat)
    requires IsRun(env, run) && 0 < t < |run| && i < |run[t].sessions|
    ensures i < |run[t - 1].sessions| && ValidLog(run[t - 1].log)
    ensures SessionInv(env, run[t - 1].log, run[t - 1].sessions[i])
    ensures run[t].sessions[i] == run[t - 1].sessions[i]
         || SessionStep(env, run[t - 1].log, run[t - 1].sessions[i], run[t].log, run[t].sessions[i])
  {
    RunGrows(env, run, t - 1, t);
    RunKeepsInv(env, run, t - 1);
    assert SessionOk(env, run[t - 1], i);
    assert StepAt(env, run, t);
    if run[t].sessions[i] != run[t - 1].sessions[i] {
      var k :| SessionMoves(env, run[t - 1], run[t], k);
      assert k == i;
    }
  }

  /**
    The revision in an answer is the length of the log right after the store took
    the operation or found it there: for an operation this call appended, one more
    than its index.
   */
  lemma {:induction false} AnsweredRevision(env: Env, run: seq<State>, t: nat, i: nat, revision: nat)
    requires IsRun(env, run) && t < |run| && i < |run[t].sessions| && Answered(run[t].sessions[i], revision)
    ensures WasAnswered(run, t, i, revision)
    ensures run[t].sessions[i].appendedAt.Some? ==> run[t].sessions[i].appendedAt.value + 1 == revision
  {
    if t == 0 {
      InitAppendsNothing(run[0], i);
      assert false;
    }
    MovedBySelf(env, run, t, i);
    var s, s' := run[t - 1].sessions[i], run[t].sessions[i];
    RunKeepsInv(env, run, t);
    assert SessionOk(env, run[t], i);
    if Answered(s, revision) {
      AnsweredRevision(env, run, t - 1, i, revision);
      var a: nat :| a <= t - 1 && AnsweredAt(run, a, i, revision);
      assert a <= t;
      AppendStays(env, run[t - 1].log, s, run[t].log, s');
    } else {
      AnswerStep(env, run[t - 1].log, s, run[t].log, s', revision);
      assert AnsweredAt(run, t, i, revision);
    }
  }

  lemma {:induction false} AppendStays(env: Env, log: Log, s: Session, log': Log, s': Session)
    requires s' == s || SessionStep(env, log, s, log', s')
    requires s.pc.Readback? || s.pc.Done?
    ensures s'.appendedAt == s.appendedAt
  {
  }

  /** An intent dated before the epoch is refused before it reads anything. */
  lemma {:induction false} NegativeTimeIsRefused(env: Env, run: seq<State>, t: nat, i: nat)
    requires IsRun(env, run) && t < |run| && i < |run[t].sessions|
    requires run[t].sessions[i].task.IsIntent() && run[t].sessions[i].task.authority.utcMs < 0
    ensures run[t].sessions[i].pc.Start? || run[t].sessions[i].pc == Done(Err)
    ensures run[t].sessions[i].appendedAt.None?
  {
    if t == 0 {
      InitAppendsNothing(run[0], i);
    } else {
      MovedBySelf(env, run, t, i);
      RunGrows(env, run, t - 1, t);
      NegativeTimeIsRefused(env, run, t - 1, i);
    }
  }

  ghost predicate AppendsFrom(s: Session, floor: nat) {
    s.appendedAt.Some? ==> floor <= s.appendedAt.value
  }

  lemma {:induction false} StepAppendsFrom(env: Env, st: State, st': State, i: nat, floor: nat)
    requires Step(env, st, st') && i < |st.sessions| && i < |st'.sessions|
    requires AppendsFrom(st.sessions[i], floor) && floor <= |st.log|
    ensures AppendsFrom(st'.sessions[i], floor)
  {
  }

  /** A session that has not started yet can only append above the present log. */
  lemma {:induction false} LaterAppendsAreAbove(env: Env, run: seq<State>, t: nat, u: nat, i: nat)
    requires IsRun(env, run) && t <= u < |run| && i < |run[t].sessions|
    requires run[t].sessions[i].pc.Start?
    ensures i < |run[u].sessions| && AppendsFrom(run[u].sessions[i], |run[t].log|)
    decreases u
  {
    RunGrows(env, run, t, u);
    if t == u {
      RunKeepsInv(env, run, t);
      assert SessionOk(env, run[t], i);
    } else {
      LaterAppendsAreAbove(env, run, t, u - 1, i);
      RunGrows(env, run, t, u - 1);
      assert StepAt(env, run, u);
      StepAppendsFrom(env, run[u - 1], run[u], i, |run[t].log|);
    }
  }

  /** Repeating a committed identity never grows the log. */
  lemma {:induction false} RepeatNeverAppends(env: Env, run: seq<State>, t: nat, u: nat, i: nat)
    requires IsRun(env, run) && t <= u < |run| && i < |run[t].sessions|
    requires run[t].sessions[i].pc.Start?
    requires run[t].sessions[i].task.Id() in SetOf(run[t].log)
    ensures i < |run[u].sessions| && run[u].sessions[i].appendedAt.None?
  {
    LaterAppendsAreAbove(env, run, t, u, i);
    RunGrows(env, run, t, u);
    RunKeepsInv(env, run, u);
    assert SessionOk(env, run[u], i);
    var id := run[t].sessions[i].task.Id();
    SetOfContents(run[t].log, id);
    var k :| 0 <= k < |run[t].log| && run[t].log[k].id == id;
    assert run[u].log[k].id == id;
  }

  /** Reusing an identity for different content is never answered Ok. */
  lemma {:induction false} ReusedIdentityIsRefused(env: Env, run: seq<State>, t: nat, u: nat, i: nat)
    requires IsRun(env, run) && t <= u < |run| && i < |run[t].sessions|
    requires run[t].sessions[i].task.IsIntent()
    requires run[t].sessions[i].task.Id() in SetOf(run[t].log)
    requires !Matches(env.projectId, run[t].sessions[i].task, SetOf(run[t].log)[run[t].sessions[i].task.Id()])
    ensures i < |run[u].sessions| && !(run[u].sessions[i].pc.Done? && run[u].sessions[i].pc.reply.Ok?)
  {
    RunGrows(env, run, t, u);
    RunKeepsInv(env, run, u);
    assert SessionOk(env, run[u], i);
    SetOfPrefix(run[t].log, run[u].log, run[t].sessions[i].task.Id());
  }

  ghost predicate AppendsDiffer(st: State, i: nat, j: nat)
    requires i < |st.sessions| && j < |st.sessions|
  {
    st.sessions[i].appendedAt.Some? ==> st.sessions[i].appendedAt != st.sessions[j].appendedAt
  }

  lemma {:induction false} StepKeepsAppendsDiffer(env: Env, st: State, st': State, i: nat, j: nat)
    requires Step(env, st, st') && i < |st.sessions| && j < |st.sessions| && i != j
    requires |st'.sessions| == |st.sessions|
    requires AppendsDiffer(st, i, j)
    requires st.sessions[i].appendedAt.Some? ==> st.sessions[i].appendedAt.value < |st.log|
    requires st.sessions[j].appendedAt.Some? ==> st.sessions[j].appendedAt.value < |st.log|
    ensures AppendsDiffer(st', i, j)
  {
  }

  /** No two sessions appended the same log entry. */
  lemma {:induction false} AppendsAreDistinct(env: Env, run: seq<State>, t: nat, i: nat, j: nat)
    requires IsRun(env, run) && t < |run| && i < |run[t].sessions| && j < |run[t].sessions| && i != j
    ensures AppendsDiffer(run[t], i, j)
  {
    if t == 0 {
      RunKeepsInv(env, run, 0);
      assert SessionOk(env, run[0], i);
    } else {
      RunGrows(env, run, t - 1, t);
      AppendsAreDistinct(env, run, t - 1, i, j);
      RunKeepsInv(env, run, t - 1);
      assert SessionOk(env, run[t - 1], i);
      assert SessionOk(env, run[t - 1], j);
      assert StepAt(env, run, t);
      StepKeepsAppendsDiffer(env, run[t - 1], run[t], i, j);
    }
  }

  /**
    Two intents answered Ok under one identity asked for the same thing, and at
    most one of them appended.
   */
  lemma {:induction false} OkIntentsAgree(env: Env, run: seq<State>, t: nat, i: nat, j: nat)
    requires IsRun(env, run) && t < |run| && i < |run[t].sessions| && j < |run[t].sessions| && i != j
    requires run[t].sessions[i].task.IsIntent() && run[t].sessions[j].task.IsIntent()
    requires run[t].sessions[i].task.Id() == run[t].sessions[j].task.Id()
    requires run[t].sessions[i].pc.Done? && run[t].sessions[i].pc.reply.Ok?
    requires run[t].sessions[j].pc.Done? && run[t].sessions[j].pc.reply.Ok?
    ensures
      var a, b := run[t].sessions[i].task, run[t].sessions[j].task;
      && b.authority.(utcMs := a.authority.utcMs) == a.authority
      && (a.ImportIntent? <==> b.ImportIntent?)
      && (a.ImportIntent? ==> a.asset == b.asset)
      && (a.CalibrateIntent? ==> a.calibration == b.calibration)
    ensures run[t].sessions[i].appendedAt.None? || run[t].sessions[j].appendedAt.None?
  {
    RunKeepsInv(env, run, t);
    assert SessionOk(env, run[t], i);
    assert SessionOk(env, run[t], j);
    AppendsAreDistinct(env, run, t, i, j);
  }

  // ----- Requests that carry their own context -----

  /** Step `a` is the one in which session `i` appended its operation. */
  ghost predicate AppendsAt(run: seq<State>, a: nat, i: nat) {
    && 0 < a < |run| && i < |run[a - 1].sessions| && i < |run[a].sessions|
    && run[a - 1].sessions[i].appendedAt.None? && run[a].sessions[i].appendedAt.Some?
  }

  /** Step `b` is a failing readback of session `i`. */
  ghost predicate ReadbackFailsAt(run: seq<State>, b: nat, i: nat) {
    && 0 < b < |run| && i < |run[b - 1].sessions| && i < |run[b].sessions|
    && ReadbackStep(run[b - 1].sessions[i], run[b].sessions[i], false)
  }

  /** An append of session `i`, and after it a failing readback, by state `t`. */
  ghost predicate LostReceipt(run: seq<State>, t: nat, i: nat) {
    exists a: nat, b: nat :: a < b <= t && AppendsAt(run, a, i) && ReadbackFailsAt(run, b, i)
  }

  /** What one step can do to a request that is, or becomes, an Err with its operation appended. */
  lemma {:induction false} RequestStep(env: Env, log: Log, s: Session, log': Log, s': Session)
    requires SessionInv(env, log, s) && s.task.Request? && SessionStep(env, log, s, log', s')
    ensures s.pc.Done? ==> s' == s
    ensures s.appendedAt.Some? ==> s'.appendedAt == s.appendedAt
    ensures s'.pc == Done(Err) && s'.appendedAt.Some? && !s.pc.Done? ==> ReadbackStep(s, s', false) && s.appendedAt.Some?
  {
    if r :| AppendStep(env, log, s, log', s', r) {
    } else if readback :| ReadbackStep(s, s', readback) {
      assert s'.pc == Done(Err) ==> !readback;
    }
  }

  lemma {:induction false} RequestStepInRun(env: Env, run: seq<State>, t: nat, i: nat)
    requires IsRun(env, run) && 0 < t < |run| && i < |run[t].sessions| && run[t].sessions[i].task.Request?
    ensures i < |run[t - 1].sessions| && run[t - 1].sessions[i].task == run[t].sessions[i].task
    ensures
      var s, s' := run[t - 1].sessions[i], run[t].sessions[i];
      && (s.pc.Done? ==> s' == s)
      && (s.appendedAt.Some? ==> s'.appendedAt == s.appendedAt)
      && (s'.pc == Done(Err) && s'.appendedAt.Some? && !s.pc.Done? ==> ReadbackStep(s, s', false) && s.appendedAt.Some?)
  {
    RunGrows(env, run, t - 1, t);
    RunKeepsInv(env, run, t - 1);
    assert SessionOk(env, run[t - 1], i);
    assert StepAt(env, run, t);
    if run[t].sessions[i] != run[t - 1].sessions[i] {
      var k :| SessionMoves(env, run[t - 1], run[t], k);
      assert k == i;
      RequestStep(env, run[t - 1].log, run[t - 1].sessions[i], run[t].log, run[t].sessions[i]);
    }
  }

  /** A request that has appended did so in some earlier step. */
  lemma {:induction false} AppendHappened(env: Env, run: seq<State>, t: nat, i: nat) returns (a: nat)
    requires IsRun(env, run) && t < |run| && i < |run[t].sessions| && run[t].sessions[i].task.Request?
    requires run[t].sessions[i].appendedAt.Some?
    ensures a <= t && AppendsAt(run, a, i)
  {
    if t == 0 {
      InitAppendsNothing(run[0], i);
      assert false;
    }
    RequestStepInRun(env, run, t, i);
    if run[t - 1].sessions[i].appendedAt.Some? {
      a := AppendHappened(env, run, t - 1, i);
    } else {
      a := t;
    }
  }

  lemma {:induction false} InitAppendsNothing(st: State, i: nat)
    requires Init(st) && i < |st.sessions|
    ensures st.sessions[i].appendedAt.None? && st.sessions[i].pc.Start?
  {
    assert st.sessions[i] == Session(st.sessions[i].task, Start, [], [], None);
  }

  lemma {:induction false} LostReceiptExplained(env: Env, run: seq<State>, t: nat, i: nat)
    requires IsRun(env, run) && t < |run| && i < |run[t].sessions| && run[t].sessions[i].task.Request?
    requires run[t].sessions[i].pc == Done(Err) && run[t].sessions[i].appendedAt.Some?
    ensures LostReceipt(run, t, i)
  {
    if t == 0 {
      InitAppendsNothing(run[0], i);
    } else {
      RequestStepInRun(env, run, t, i);
      if run[t - 1].sessions[i].pc.Done? {
        LostReceiptExplained(env, run, t - 1, i);
        var a: nat, b: nat :| a < b <= t - 1 && AppendsAt(run, a, i) && ReadbackFailsAt(run, b, i);
        assert a < b <= t;
      } else {
        var a := AppendHappened(env, run, t - 1, i);
        assert ReadbackFailsAt(run, t, i);
        assert a < t;
      }
    }
  }

  /** An answered or appended request stays so. */
  lemma {:induction false} RequestStays(env: Env, run: seq<State>, t: nat, u: nat, i: nat)
    requires IsRun(env, run) && t <= u < |run| && i < |run[u].sessions| && run[u].sessions[i].task.Request?
    ensures i < |run[t].sessions| && run[t].sessions[i].task == run[u].sessions[i].task
    ensures run[t].sessions[i].pc.Done? ==> run[u].sessions[i] == run[t].sessions[i]
    ensures run[t].sessions[i].appendedAt.Some? ==> run[u].sessions[i].appendedAt == run[t].sessions[i].appendedAt
    decreases u
  {
    if t < u {
      RequestStepInRun(env, run, u, i);
      RequestStays(env, run, t, u - 1, i);
    }
  }

  /**
    In every run, a request has answered Err with its operation appended exactly
    when a step in which this very call appended was followed by its failing
    readback; every other Err appended nothing.
   */
  lemma {:induction false} RequestErrAfterAppend(env: Env, run: seq<State>, t: nat, i: nat)
    requires IsRun(env, run) && t < |run| && i < |run[t].sessions| && run[t].sessions[i].task.Request?
    ensures run[t].sessions[i].pc == Done(Err) && run[t].sessions[i].appendedAt.Some? <==> LostReceipt(run, t, i)
    ensures LostReceipt(run, t, i) ==>
      var k := run[t].sessions[i].appendedAt.value;
      k < |run[t].log| && run[t].log[k] == run[t].sessions[i].task.operation
  {
    RunKeepsInv(env, run, t);
    assert SessionOk(env, run[t], i);
    if LostReceipt(run, t, i) {
      var a: nat, b: nat :| a < b <= t && AppendsAt(run, a, i) && ReadbackFailsAt(run, b, i);
      RequestStays(env, run, b, t, i);
      RequestStays(env, run, a, t, i);
    }
    if run[t].sessions[i].pc == Done(Err) && run[t].sessions[i].appendedAt.Some? {
      LostReceiptExplained(env, run, t, i);
    }
  }

  /** The store takes a request only below the operation count and of its own project. */
  lemma {:induction false} RequestAppendable(env: Env, run: seq<State>, t: nat, i: nat)
    requires IsRun(env, run) && t < |run| && i < |run[t].sessions| && run[t].sessions[i].task.Request?
    requires run[t].sessions[i].appendedAt.Some?
    ensures
      var task := run[t].sessions[i].task;
      task.expected < MAX_OPERATION_COUNT && task.operation.projectId == env.projectId
  {
    RunKeepsInv(env, run, t);
    assert SessionOk(env, run[t], i);
  }

  /**
    A request whose expected revision is not ahead of the store when it starts is
    appended to exactly the log it was validated against.
   */
  lemma {:induction false} RequestValidatedExactly(env: Env, run: seq<State>, t: nat, u: nat, i: nat)
    requires IsRun(env, run) && t <= u < |run| && i < |run[t].sessions|
    requires run[t].sessions[i].task.Request? && run[t].sessions[i].pc.Start?
    requires run[t].sessions[i].task.expected <= |run[t].log|
    requires i < |run[u].sessions| && run[u].sessions[i].appendedAt.Some?
    ensures
      var s, log := run[u].sessions[i], run[u].log;
      var k := s.appendedAt.value;
      && k == run[t].sessions[i].task.expected && k < |log|
      && s.validated == log[..k]
      && env.materialize(SetOf(log[..k + 1])).Some?
  {
    RunGrows(env, run, t, u);
    RunKeepsInv(env, run, u);
    assert SessionOk(env, run[u], i);
    LaterAppendsAreAbove(env, run, t, u, i);
    LaterValidationsAreAbove(env, run, t, u, i);
    var s, log := run[u].sessions[i], run[u].log;
    var k := s.appendedAt.value;
    assert log[..k + 1] == log[..k] + [log[k]];
    SetOfAppend(log[..k], log[k]);
  }

  ghost predicate ValidatesFrom(s: Session, floor: nat) {
    s.pc.Start? || s.pc.Commit? || (s.pc == Done(Err) && s.appendedAt.None?) || floor <= |s.validated|
  }

  lemma {:induction false} LaterValidationsAreAbove(env: Env, run: seq<State>, t: nat, u: nat, i: nat)
    requires IsRun(env, run) && t <= u < |run| && i < |run[t].sessions|
    requires run[t].sessions[i].task.Request? && run[t].sessions[i].pc.Start?
    ensures i < |run[u].sessions| && ValidatesFrom(run[u].sessions[i], |run[t].log|)
    decreases u
  {
    RunGrows(env, run, t, u);
    if t < u {
      LaterValidationsAreAbove(env, run, t, u - 1, i);
      RunGrows(env, run, t, u - 1);
      RunKeepsInv(env, run, u - 1);
      assert SessionOk(env, run[u - 1], i);
      assert StepAt(env, run, u);
    }
  }

  // The condition is exact: any request ahead of the store can be overtaken.

  lemma {:induction false} FreshId(ids: set<nat>) returns (bound: nat)
    ensures forall x | x in ids :: x < bound
  {
    if ids == {} {
      bound := 0;
    } else {
      var x :| x in ids;
      bound := FreshId(ids - {x});
      assert forall y | y in ids :: y == x || y in ids - {x};
      if bound <= x { bound := x + 1; }
    }
  }

  /** An operation of the project that names no parent. */
  function Root(projectId: nat, id: OperationId): Operation {
    Operation(id, projectId, 0, 0, 1, 0, [], V1, OtherPayload(0), OtherInverse(0))
  }

  lemma {:induction false} AddRoot(projectId: nat, ops: OperationSet, id: OperationId)
    requires WellFormed(ops) && id !in ops
    ensures WellFormed(ops[id := Root(projectId, id)])
  {
    var more := ops[id := Root(projectId, id)];
    forall x ensures WellFormedAt(more, x) {
      if x in ops {
        OldOperationStaysWellFormed(ops, Root(projectId, id), x);
      }
    }
  }

  lemma {:induction false} RunExtend(env: Env, run: seq<State>, st: State)
    requires IsRun(env, run) && Step(env, run[|run| - 1], st)
    ensures IsRun(env, run + [st])
  {
    forall t: nat ensures StepAt(env, run + [st], t) {
      assert StepAt(env, run, t);
    }
  }

  ghost predicate Overtaken(env: Env, st: State, op: Operation, expected: nat, validated: Log) {
    && ValidLog(st.log) && |st.log| <= expected < MAX_OPERATION_COUNT && op.projectId == env.projectId
    && op.id !in SetOf(st.log) && WellFormed(SetOf(st.log)[op.id := op])
    && st.sessions == [Session(Request(op, expected), AboutToAppend(op, expected), [], validated, None)]
  }

  /** Other writers fill the log up to the expected revision, then the stale validation is appended. */
  lemma {:induction false} FillAndAppend(env: Env, run: seq<State>, op: Operation, expected: nat, validated: Log)
    returns (longer: seq<State>)
    requires IsRun(env, run) && Overtaken(env, run[|run| - 1], op, expected, validated)
    ensures IsRun(env, longer) && run <= longer
    ensures longer[|longer| - 1].sessions ==
            [Session(Request(op, expected), Readback(op.id, expected + 1), [], validated, Some(expected))]
    decreases expected - |run[|run| - 1].log|
  {
    var st := run[|run| - 1];
    if |st.log| == expected {
      SetOfAppend(st.log, op);
      var s' := Session(Request(op, expected), Readback(op.id, expected + 1), [], validated, Some(expected));
      var st' := State(st.log + [op], [s']);
      assert AppendStep(env, st.log, st.sessions[0], st'.log, s', Appended(expected + 1));
      assert SessionMoves(env, st, st', 0);
      RunExtend(env, run, st');
      longer := run + [st'];
    } else {
      var id := FreshId(SetOf(st.log).Keys + {op.id});
      var root := Root(env.projectId, id);
      var st' := State(st.log + [root], st.sessions);
      SetOfAppend(st.log, root);
      AddRoot(env.projectId, SetOf(st.log), id);
      AddRoot(env.projectId, SetOf(st.log)[op.id := op], id);
      assert SetOf(st.log)[op.id := op][id := root] == SetOf(st'.log)[op.id := op];
      assert OtherWriterMoves(env, st, st', root, None, Appended(|st.log| + 1));
      AppendKeepsValid(env.projectId, st.log, root, None, st'.log, Appended(|st.log| + 1));
      RunExtend(env, run, st');
      longer := FillAndAppend(env, run + [st'], op, expected, validated);
    }
  }

  /** A request read, checked and ready to be appended, with nothing in between. */
  lemma {:induction false} ValidatedRun(env: Env, log: Log, op: Operation, expected: nat) returns (run: seq<State>)
    requires ValidLog(log) && Validated(env, log, op) && env.baselineId.Some?
    ensures IsRun(env, run)
    ensures run[0] == State(log, [Session(Request(op, expected), Start, [], [], None)])
    ensures run[|run| - 1] ==
            State(log, [Session(Request(op, expected), AboutToAppend(op, expected), [], log, None)])
  {
    var s0 := Session(Request(op, expected), Start, [], [], None);
    var s1 := s0.(pc := Commit(op, expected));
    var s2 := s1.(pc := AboutToAppend(op, expected), validated := log);
    var st0, st1, st2 := State(log, [s0]), State(log, [s1]), State(log, [s2]);
    assert IsRun(env, [st0]);
    assert StartStep(env, log, s0, s1);
    assert SessionMoves(env, st0, st1, 0);
    RunExtend(env, [st0], st1);
    assert ValidateStep(env, log, s1, s2);
    assert SessionMoves(env, st1, st2, 0);
    RunExtend(env, [st0] + [st1], st2);
    run := [st0] + [st1] + [st2];
  }

  /**
    Conversely, whenever the expected revision of an operation of this project is
    ahead of the store and below the operation count, some run appends the request
    to a log it was never validated against.
   */
  lemma {:induction false} AheadRequestEscapesValidation(env: Env, log: Log, op: Operation, expected: nat)
    requires ValidLog(log) && op.id !in SetOf(log) && Validated(env, log, op)
    requires env.baselineId.Some? && op.projectId == env.projectId && |log| < expected < MAX_OPERATION_COUNT
    ensures exists run: seq<State>, s: Session ::
              && IsRun(env, run)
              && run[0] == State(log, [Session(Request(op, expected), Start, [], [], None)])
              && run[|run| - 1].sessions == [s]
              && s.appendedAt == Some(expected) && s.validated == log
  {
    var start := ValidatedRun(env, log, op, expected);
    var run := FillAndAppend(env, start, op, expected, log);
    assert run[0] == start[0];
  }

  /**
    Such a run exists from every valid log, for every fresh request that validates
    and expects the present revision.
   */
  lemma {:induction false} ReceiptCanBeLost(env: Env, log: Log, op: Operation)
    requires ValidLog(log) && op.id !in SetOf(log) && Validated(env, log, op)
    requires env.baselineId.Some? && op.projectId == env.projectId
    ensures exists run: seq<State>, s: Session ::
              && IsRun(env, run)
              && run[0] == State(log, [Session(Request(op, |log|), Start, [], [], None)])
              && run[|run| - 1] == State(log + [op], [s])
              && s.pc == Done(Err) && s.appendedAt == Some(|log|)
  {
    var run := ValidatedRun(env, log, op, |log|);
    var s2 := run[|run| - 1].sessions[0];
    var s3 := s2.(pc := Readback(op.id, |log| + 1), appendedAt := Some(|log|));
    var s4 := s3.(pc := Done(Err));
    var st3, st4 := State(log + [op], [s3]), State(log + [op], [s4]);
    SetOfAppend(log, op);
    assert AppendStep(env, log, s2, log + [op], s3, Appended(|log| + 1));
    assert SessionMoves(env, run[|run| - 1], st3, 0);
    RunExtend(env, run, st3);
    assert ReadbackStep(s3, s4, false);
    assert SessionMoves(env, st3, st4, 0);
    RunExtend(env, run + [st3], st4);
    var whole := run + [st3] + [st4];
    assert whole[0] == run[0] && whole[|whole| - 1] == st4;
  }

  // ----- Intents can succeed -----

  /** One step of the only session. */
  lemma {:induction false} Advance(env: Env, run: seq<State>, s: Session, log': Log, s': Session) returns (longer: seq<State>)
    requires IsRun(env, run) && run[|run| - 1].sessions == [s]
    requires SessionStep(env, run[|run| - 1].log, s, log', s')
    ensures IsRun(env, longer) && longer[0] == run[0] && longer[|longer| - 1] == State(log', [s'])
  {
    var st := State(log', [s']);
    assert SessionMoves(env, run[|run| - 1], st, 0);
    RunExtend(env, run, st);
    longer := run + [st];
  }

  /** An intent that has read the log and found the state in agreement. */
  lemma {:induction false} DecidedRun(env: Env, log: Log, task: Task) returns (run: seq<State>)
    requires ValidLog(log) && task.IsIntent() && task.authority.utcMs >= 0 && env.baselineId.Some?
    ensures IsRun(env, run)
    ensures run[0] == State(log, [Session(task, Start, [], [], None)])
    ensures run[|run| - 1] == State(log, [Session(task, SetRead, log, [], None)])
  {
    var s0 := Session(task, Start, [], [], None);
    assert StartStep(env, log, s0, s0.(pc := SetRead, base := log));
    run := Advance(env, [State(log, [s0])], s0, log, s0.(pc := SetRead, base := log));
  }

  /**
    From every valid log whose state agrees, an intent with a fresh identity, met
    prerequisites and a derivable context whose extension materializes can be
    appended and answered with the next revision.
   */
  lemma {:induction false} IntentCanSucceed(env: Env, log: Log, task: Task, op: Operation)
    requires ValidLog(log) && task.IsIntent() && task.authority.utcMs >= 0 && task.Id() !in SetOf(log)
    requires DerivedFrom(env, task, log, op) && Validated(env, log, op)
    ensures exists run: seq<State>, s: Session ::
              && IsRun(env, run) && run[0] == State(log, [Session(task, Start, [], [], None)])
              && run[|run| - 1] == State(log + [op], [s])
              && s.pc == Done(Ok(task.Id(), |log| + 1, true)) && s.appendedAt == Some(|log|)
  {
    SetOfSize(log);
    SetOfAppend(log, op);
    var run := DecidedRun(env, log, task);
    var s1 := Session(task, SetRead, log, [], None);
    var s2 := s1.(pc := Commit(op, |log|));
    assert DecideStep(env, log, s1, s2);
    run := Advance(env, run, s1, log, s2);
    var s3 := s2.(pc := AboutToAppend(op, |log|), validated := log);
    assert ValidateStep(env, log, s2, s3);
    run := Advance(env, run, s2, log, s3);
    var s4 := s3.(pc := Readback(op.id, |log| + 1), appendedAt := Some(|log|));
    assert AppendStep(env, log, s3, log + [op], s4, Appended(|log| + 1));
    run := Advance(env, run, s3, log + [op], s4);
    var s5 := s4.(pc := Done(Ok(op.id, |log| + 1, true)));
    assert ReadbackStep(s4, s5, true);
    run := Advance(env, run, s4, log + [op], s5);
  }

  /** Repeating an intent whose operation is in the log can be answered Ok at the present revision, changing nothing. */
  lemma {:induction false} RepeatCanSucceed(env: Env, log: Log, task: Task)
    requires ValidLog(log) && task.IsIntent() && task.authority.utcMs >= 0 && CanonicalState(env, log, log)
    requires task.Id() in SetOf(log) && Matches(env.projectId, task, SetOf(log)[task.Id()])
    requires task.CalibrateIntent? ==> CalibrationFits(env.materialize(SetOf(log)).value, task.calibration)
    ensures exists run: seq<State>, s: Session ::
              && IsRun(env, run) && run[0] == State(log, [Session(task, Start, [], [], None)])
              && run[|run| - 1] == State(log, [s])
              && s.pc == Done(Ok(task.Id(), |log|, true)) && s.appendedAt.None?
  {
    var existing := SetOf(log)[task.Id()];
    SetOfContents(log, task.Id());
    var run := DecidedRun(env, log, task);
    var s1 := Session(task, SetRead, log, [], None);
    var s2 := s1.(pc := Retry(existing));
    assert DecideStep(env, log, s1, s2);
    run := Advance(env, run, s1, log, s2);
    var s3 := s2.(pc := Readback(existing.id, |log|));
    assert RetryStep(env, log, s2, log, s3, Duplicate(|log|));
    run := Advance(env, run, s2, log, s3);
    var s4 := s3.(pc := Done(Ok(existing.id, |log|, true)));
    assert ReadbackStep(s3, s4, true);
    run := Advance(env, run, s3, log, s4);
  }

  /** An intent overtaken by the very operation it describes is not refused: the store's duplicate is an Ok. */
  lemma {:induction false} OvertakenCanSucceed(env: Env, log: Log, task: Task, op: Operation)
    requires ValidLog(log) && task.IsIntent() && task.authority.utcMs >= 0 && task.Id() !in SetOf(log)
    requires DerivedFrom(env, task, log, op) && Validated(env, log, op)
    ensures exists run: seq<State>, s: Session ::
              && IsRun(env, run) && run[0] == State(log, [Session(task, Start, [], [], None)])
              && run[|run| - 1] == State(log + [op], [s])
              && s.pc == Done(Ok(task.Id(), |log| + 1, true)) && s.appendedAt.None?
  {
    SetOfSize(log);
    SetOfAppend(log, op);
    var run := DecidedRun(env, log, task);
    var s1 := Session(task, SetRead, log, [], None);
    var s2 := s1.(pc := Commit(op, |log|));
    assert DecideStep(env, log, s1, s2);
    run := Advance(env, run, s1, log, s2);
    var s3 := s2.(pc := AboutToAppend(op, |log|), validated := log);
    assert ValidateStep(env, log, s2, s3);
    run := Advance(env, run, s2, log, s3);
    var st := State(log + [op], [s3]);
    assert OtherWriterMoves(env, run[|run| - 1], st, op, None, Appended(|log| + 1));
    RunExtend(env, run, st);
    run := run + [st];
    var s4 := s3.(pc := Readback(op.id, |log| + 1));
    assert AppendStep(env, log + [op], s3, log + [op], s4, Duplicate(|log| + 1));
    run := Advance(env, run, s3, log + [op], s4);
    var s5 := s4.(pc := Done(Ok(op.id, |log| + 1, true)));
    assert ReadbackStep(s4, s5, true);
    run := Advance(env, run, s4, log + [op], s5);
  }
}
