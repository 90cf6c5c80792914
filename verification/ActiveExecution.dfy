/**
  Executing a schedule against a clock, a connector and a cancellation flag that
  answer as they please.
 */
module ActiveExecution {
  import opened ActiveSchedule

  datatype Outcome = Success | Refused | Timeout | Unreachable | PermissionDenied | Failed | Cancelled

  datatype ConnectResult = Connected | GotRefused | GotTimeout | GotUnreachable | GotDenied | GotError | GotCancelled

  datatype Timing = Unknown | NotMeasured | Known(nanos: nat)

  datatype Sample = Sample(
    id: nat, endpoint: nat, ordinal: nat, started: nat, finished: nat, outcome: Outcome, timing: Timing)

  /**
    The connector call made for a sample, if any: when the clock was read, how long
    was slept, when it began.  `tick` is the number of the call, or of port calls made
    when it was clear that there would be none.
   */
  datatype Call =
    | NoCall(tick: nat)
    | Call(tick: nat, address: nat, asked: nat, slept: nat, started: nat, timeout: nat, result: ConnectResult)

  datatype ExecutionError = ScheduleMismatch | ClockRegression | InvalidResult

  /** Whatever the ports answer, by the number of the call. */
  datatype Ports = Ports(now: nat -> u64, cancelled: nat -> bool, sleepCancelled: nat -> bool, connect: nat -> ConnectResult)

  /** The fixed data of one execution. */
  datatype Frame = Frame(start: nat, origin: nat, deadline: nat, timeout: nat)

  /** `tick` numbers the port calls made so far. */
  datatype Exec = Exec(tick: nat, lastNow: nat, cancelled: bool, taken: seq<Sample>, calls: seq<Call>)

  function At(f: Frame, now: nat): int { f.start + now - f.origin }

  function Stamp(f: Frame, now: nat): Result<nat, ExecutionError> {
    if now < f.origin || At(f, now) >= U64 then Err(ClockRegression) else Ok(At(f, now))
  }

  function OutcomeOf(result: ConnectResult, late: bool): Outcome {
    if late then Timeout
    else match result
      case Connected => Success
      case GotRefused => Refused
      case GotTimeout => Timeout
      case GotUnreachable => Unreachable
      case GotDenied => PermissionDenied
      case GotError => Failed
      case GotCancelled => Cancelled
  }

  function TimingOf(outcome: Outcome, elapsed: nat): Timing {
    if outcome == Success then Known(elapsed) else if outcome == Cancelled then NotMeasured else Unknown
  }

  // ----- Clocks -----

  /** Some later reading is smaller than an earlier one. */
  ghost predicate RunsBackwards(ports: Ports) {
    exists j: nat, k: nat :: j < k && ports.now(k) < ports.now(j)
  }

  /** Some reading would be stamped beyond 64 bits. */
  ghost predicate Overflows(ports: Ports, f: Frame) { exists k: nat :: At(f, ports.now(k)) >= U64 }

  ghost predicate ClockFault(ports: Ports, f: Frame) { RunsBackwards(ports) || Overflows(ports, f) }

  /** The value was read from the clock before call `tick`. */
  ghost predicate WasRead(ports: Ports, tick: nat, now: nat) { exists k: nat :: k < tick && ports.now(k) == now }

  lemma {:induction false} BackwardsFault(ports: Ports, f: Frame, tick: nat, before: nat)
    requires WasRead(ports, tick, before) && ports.now(tick) < before
    ensures ClockFault(ports, f)
  {
    var k: nat :| k < tick && ports.now(k) == before;
    assert ports.now(tick) < ports.now(k);
  }

  lemma {:induction false} StampFault(ports: Ports, f: Frame, tick: nat, now: nat)
    requires WasRead(ports, tick, now) && f.origin <= now && Stamp(f, now).Err?
    ensures ClockFault(ports, f)
  {
    var k: nat :| k < tick && ports.now(k) == now;
    assert At(f, ports.now(k)) >= U64;
  }

  // ----- What one sample promises -----

  ghost predicate Matches(s: Sample, p: Scheduled) {
    s.id == p.id && s.endpoint == p.endpoint.id && s.ordinal == p.ordinal
  }

  /** The timing evidence a sample must carry. */
  ghost predicate TimingOk(s: Sample) {
    match s.outcome
    case Success => s.timing.Known? && s.started + s.timing.nanos == s.finished
    case Cancelled => s.timing == NotMeasured
    case _ => s.timing == Unknown
  }

  /** The clock reading at which a sample is due. */
  function Target(f: Frame, p: Scheduled): nat { if f.origin + p.offset < U64 then f.origin + p.offset else U64 - 1 }

  function Later(a: nat, b: nat): nat { if a < b then b else a }

  function Earlier(a: nat, b: nat): nat { if a < b then a else b }

  /** The stamp `at` is at or past the end of the interval. */
  ghost predicate Reached(f: Frame, at: nat) { at + f.origin >= f.start + f.deadline }

  /** Some port call before `tick` has told of a cancellation. */
  ghost predicate CancelSeen(ports: Ports, tick: nat) {
    exists k: nat :: k < tick && (ports.cancelled(k) || ports.sleepCancelled(k) || ports.connect(k) == GotCancelled)
  }

  /** Each answer of the connector has its own outcome. */
  ghost predicate Speaks(outcome: Outcome, result: ConnectResult) {
    && (outcome == Success <==> result == Connected)
    && (outcome == Refused <==> result == GotRefused)
    && (outcome == Timeout <==> result == GotTimeout)
    && (outcome == Unreachable <==> result == GotUnreachable)
    && (outcome == PermissionDenied <==> result == GotDenied)
    && (outcome == Failed <==> result == GotError)
    && (outcome == Cancelled <==> result == GotCancelled)
  }

  /**
    A call is made unless the deadline is reached or a cancellation was seen: when the
    sample is due or after sleeping exactly until then, with the attempt's timeout or
    what is left until the deadline.  Its sample ends when the clock is read after it,
    and tells the connector's answer, unless by then the deadline is reached or a
    cancellation is seen.
   */
  ghost predicate CallOk(ports: Ports, f: Frame, p: Scheduled, s: Sample, c: Call) {
    match c
    case NoCall(tick) =>
      && s.started == s.finished
      && if Reached(f, s.finished) then s.outcome == Timeout || (s.outcome == Cancelled && CancelSeen(ports, tick))
         else s.outcome == Cancelled && CancelSeen(ports, tick)
    case Call(tick, address, asked, slept, started, timeout, result) =>
      && address == p.endpoint.address && asked <= started < f.deadline && s.started + f.origin == f.start + started
      && asked + slept == Later(asked, Earlier(f.origin + p.offset, U64 - 1))
      && timeout <= f.timeout && started + timeout <= f.deadline
      && (timeout == f.timeout || started + timeout == f.deadline)
      && result == ports.connect(tick) && s.finished + f.origin == f.start + ports.now(tick + 1)
      && if Reached(f, s.finished) then s.outcome == Timeout
         else if ports.cancelled(tick + 2) then s.outcome == Cancelled
         else Speaks(s.outcome, result)
  }

  ghost predicate SampleOk(ports: Ports, f: Frame, p: Scheduled, s: Sample, c: Call) {
    Matches(s, p) && s.started <= s.finished < U64 && TimingOk(s) && CallOk(ports, f, p, s, c)
  }

  /** One sample taken: in time order, cancelled without a call if an earlier one was cancelled. */
  ghost predicate Takes(ports: Ports, f: Frame, p: Scheduled, a: Exec, b: Exec, s: Sample, c: Call) {
    && b.taken == a.taken + [s] && b.calls == a.calls + [c] && SampleOk(ports, f, p, s, c)
    && At(f, a.lastNow) <= s.started && s.finished <= At(f, b.lastNow) && a.lastNow <= b.lastNow
    && a.tick <= c.tick <= b.tick
    && (a.cancelled ==> s.outcome == Cancelled && c.NoCall?)
    && (b.cancelled <==> a.cancelled || s.outcome == Cancelled)
    && (b.cancelled ==> CancelSeen(ports, b.tick))
  }

  ghost predicate TakesOne(ports: Ports, f: Frame, p: Scheduled, a: Exec, b: Exec) {
    exists s, c :: Takes(ports, f, p, a, b, s, c)
  }

  // ----- One sample -----

  method Instant(ghost ports: Ports, f: Frame, p: Scheduled, a: Exec, now: nat, tick: nat, outcome: Outcome)
    returns (r: Result<Exec, ExecutionError>)
    requires f.origin <= a.lastNow <= now && (outcome == Cancelled || (outcome == Timeout && !a.cancelled))
    requires WasRead(ports, tick, now) && a.tick <= tick
    requires if outcome == Cancelled then CancelSeen(ports, tick) else now >= f.deadline
    ensures r.Ok? ==> TakesOne(ports, f, p, a, r.value)
    ensures r.Ok? ==> r.value.lastNow == now && WasRead(ports, r.value.tick, r.value.lastNow)
    ensures r.Err? ==> r.error == ClockRegression && ClockFault(ports, f)
  {
    var at := Stamp(f, now);
    if at.Err? {
      StampFault(ports, f, tick, now);
      return Err(at.error);
    }
    var s := Sample(p.id, p.endpoint.id, p.ordinal, at.value, at.value, outcome, TimingOf(outcome, 0));
    var b := Exec(tick, now, a.cancelled || outcome == Cancelled, a.taken + [s], a.calls + [NoCall(tick)]);
    assert Takes(ports, f, p, a, b, s, NoCall(tick));
    return Ok(b);
  }

  method ExecuteOne(ports: Ports, f: Frame, p: Scheduled, a: Exec, asked: nat, slept: nat, now: nat, tick: nat)
    returns (r: Result<Exec, ExecutionError>)
    requires f.origin <= a.lastNow <= asked <= now && !a.cancelled
    requires asked + slept == if asked < Target(f, p) then Target(f, p) else asked
    requires WasRead(ports, tick, now) && a.tick <= tick
    ensures r.Ok? ==> TakesOne(ports, f, p, a, r.value)
    ensures r.Ok? ==> r.value.lastNow >= now && WasRead(ports, r.value.tick, r.value.lastNow)
    ensures r.Err? ==> r.error == ClockRegression && ClockFault(ports, f)
  {
    if now >= f.deadline {
      r := Instant(ports, f, p, a, now, tick, Timeout);
      return;
    }
    if ports.cancelled(tick) {
      ReadStays(ports, tick, tick + 1, now);
      r := Instant(ports, f, p, a, now, tick + 1, Cancelled);
      return;
    }
    var remaining := f.deadline - now;
    var timeout := if f.timeout < remaining then f.timeout else remaining;
    var got := ports.connect(tick + 1);
    var after: nat := ports.now(tick + 2);
    ReadStays(ports, tick, tick + 2, now);
    ReadNow(ports, tick + 2, tick + 4);
    if after < now {
      BackwardsFault(ports, f, tick + 2, now);
      return Err(ClockRegression);
    }
    var finished := Stamp(f, after);
    if finished.Err? {
      StampFault(ports, f, tick + 4, after);
      return Err(ClockRegression);
    }
    var result := if ports.cancelled(tick + 3) then GotCancelled else got;
    var outcome := OutcomeOf(result, after >= f.deadline);
    var started := Stamp(f, now);
    if started.Err? {
      StampFault(ports, f, tick, now);
      return Err(ClockRegression);
    }
    var s := Sample(p.id, p.endpoint.id, p.ordinal, started.value, finished.value, outcome, TimingOf(outcome, after - now));
    var c := Call(tick + 1, p.endpoint.address, asked, slept, now, timeout, got);
    var b := Exec(tick + 4, after, outcome == Cancelled, a.taken + [s], a.calls + [c]);
    OutcomeSpeaks(got);
    CallTells(ports, f, p, s, c, after);
    assert Takes(ports, f, p, a, b, s, c);
    return Ok(b);
  }

  lemma {:induction false} OutcomeSpeaks(result: ConnectResult)
    ensures Speaks(OutcomeOf(result, false), result)
    ensures OutcomeOf(GotCancelled, false) == Cancelled && OutcomeOf(result, true) == OutcomeOf(GotCancelled, true) == Timeout
  {
  }

  /** A call and its sample, as they are recorded. */
  lemma {:induction false} CallTells(ports: Ports, f: Frame, p: Scheduled, s: Sample, c: Call, after: nat)
    requires c.Call? && c.address == p.endpoint.address && f.origin <= c.asked <= c.started < f.deadline && c.started <= after
    requires c.asked + c.slept == if c.asked < Target(f, p) then Target(f, p) else c.asked
    requires c.timeout == (if f.timeout < f.deadline - c.started then f.timeout else f.deadline - c.started)
    requires c.result == ports.connect(c.tick) && after == ports.now(c.tick + 1)
    requires s.started == At(f, c.started) && s.finished == At(f, after)
    requires s.outcome == OutcomeOf(if ports.cancelled(c.tick + 2) then GotCancelled else c.result, after >= f.deadline)
    ensures CallOk(ports, f, p, s, c)
  {
    OutcomeSpeaks(c.result);
  }

  lemma {:induction false} ReadStays(ports: Ports, tick: nat, later: nat, now: nat)
    requires WasRead(ports, tick, now) && tick <= later
    ensures WasRead(ports, later, now)
  {
  }

  lemma {:induction false} ReadNow(ports: Ports, tick: nat, later: nat)
    requires tick < later
    ensures WasRead(ports, later, ports.now(tick))
  {
  }

  /** The body of the loop over the schedule. */
  method TakeSample(ports: Ports, f: Frame, p: Scheduled, a: Exec) returns (r: Result<Exec, ExecutionError>)
    requires f.origin <= a.lastNow && WasRead(ports, a.tick, a.lastNow) && (a.cancelled ==> CancelSeen(ports, a.tick))
    ensures r.Ok? ==> TakesOne(ports, f, p, a, r.value) && WasRead(ports, r.value.tick, r.value.lastNow)
    ensures r.Err? ==> r.error == ClockRegression && ClockFault(ports, f)
  {
    var now: nat := ports.now(a.tick);
    if now < a.lastNow {
      BackwardsFault(ports, f, a.tick, a.lastNow);
      return Err(ClockRegression);
    }
    ReadNow(ports, a.tick, a.tick + 1);
    if Stamp(f, now).Err? {
      StampFault(ports, f, a.tick + 1, now);
      return Err(ClockRegression);
    }
    ReadStays(ports, a.tick + 1, a.tick + 2, now);
    ReadStays(ports, a.tick + 1, a.tick + 3, now);
    if a.cancelled || ports.cancelled(a.tick + 1) {
      r := Instant(ports, f, p, a, now, a.tick + 2, Cancelled);
      return;
    }
    var target := Target(f, p);
    if now < target {
      r := SleepThenTake(ports, f, p, a, now, a.tick + 2);
    } else if now >= f.deadline {
      r := Instant(ports, f, p, a, now, a.tick + 2, Timeout);
    } else if ports.cancelled(a.tick + 2) {
      r := Instant(ports, f, p, a, now, a.tick + 3, Cancelled);
    } else {
      r := ExecuteOne(ports, f, p, a, now, 0, now, a.tick + 3);
    }
  }

  /** Sleeping until the sample is due, unless cancelled meanwhile. */
  method SleepThenTake(ports: Ports, f: Frame, p: Scheduled, a: Exec, now: nat, tick: nat)
    returns (r: Result<Exec, ExecutionError>)
    requires f.origin <= a.lastNow <= now < Target(f, p) && !a.cancelled && WasRead(ports, tick, now) && a.tick <= tick
    ensures r.Ok? ==> TakesOne(ports, f, p, a, r.value) && WasRead(ports, r.value.tick, r.value.lastNow)
    ensures r.Err? ==> r.error == ClockRegression && ClockFault(ports, f)
  {
    var interrupted := ports.sleepCancelled(tick);
    var later: nat := ports.now(tick + 1);
    ReadStays(ports, tick, tick + 1, now);
    ReadNow(ports, tick + 1, tick + 3);
    if later < now {
      BackwardsFault(ports, f, tick + 1, now);
      return Err(ClockRegression);
    }
    if interrupted || ports.cancelled(tick + 2) {
      r := Instant(ports, f, p, a, later, tick + 3, Cancelled);
    } else {
      r := ExecuteOne(ports, f, p, a, now, Target(f, p) - now, later, tick + 3);
    }
  }

  // ----- The whole schedule -----

  ghost predicate TakenAt(ports: Ports, f: Frame, plan: seq<Scheduled>, e: Exec, i: int) {
    0 <= i < |plan| && i < |e.taken| && i < |e.calls| && SampleOk(ports, f, plan[i], e.taken[i], e.calls[i])
  }

  /** Samples follow each other in time, and after a cancelled one all are cancelled without a call. */
  ghost predicate Follows(e: Exec, i: int, j: int) {
    && 0 <= i < j < |e.taken| == |e.calls| && e.taken[i].finished <= e.taken[j].started
    && (e.taken[i].outcome == Cancelled ==> e.taken[j].outcome == Cancelled && e.calls[j].NoCall?)
    && e.calls[i].tick <= e.calls[j].tick
  }

  ghost predicate TraceOk(ports: Ports, f: Frame, plan: seq<Scheduled>, e: Exec) {
    && |e.taken| == |e.calls| <= |plan| && f.origin <= e.lastNow
    && (forall i {:trigger TakenAt(ports, f, plan, e, i)} | 0 <= i < |e.taken| :: TakenAt(ports, f, plan, e, i))
    && (forall i, j {:trigger Follows(e, i, j)} | 0 <= i < j < |e.taken| :: Follows(e, i, j))
    && Until(f, e) && (e.cancelled ==> CancelSeen(ports, e.tick))
  }

  ghost predicate Until(f: Frame, e: Exec) {
    forall i | 0 <= i < |e.taken| ::
      && e.taken[i].finished <= At(f, e.lastNow) && (e.taken[i].outcome == Cancelled ==> e.cancelled)
      && i < |e.calls| && e.calls[i].tick <= e.tick
  }

  lemma {:induction false} TakeKeepsTrace(ports: Ports, f: Frame, plan: seq<Scheduled>, a: Exec, b: Exec, s: Sample, c: Call)
    requires TraceOk(ports, f, plan, a) && |a.taken| < |plan| && Takes(ports, f, plan[|a.taken|], a, b, s, c)
    ensures TraceOk(ports, f, plan, b)
  {
    var n := |a.taken|;
    forall i | 0 <= i < n + 1 ensures TakenAt(ports, f, plan, b, i) {
      assert i < n ==> TakenAt(ports, f, plan, a, i);
    }
    forall i, j | 0 <= i < j < n + 1 ensures Follows(b, i, j) {
      assert j < n ==> Follows(a, i, j);
    }
  }

  method TakeAll(ports: Ports, f: Frame, plan: seq<Scheduled>) returns (r: Result<Exec, ExecutionError>)
    requires f.origin == ports.now(0)
    ensures r.Ok? ==> TraceOk(ports, f, plan, r.value) && |r.value.taken| == |plan|
    ensures r.Ok? ==> WasRead(ports, r.value.tick, r.value.lastNow)
    ensures r.Err? ==> r.error == ClockRegression && ClockFault(ports, f)
  {
    var e := Exec(1, f.origin, false, [], []);
    ReadNow(ports, 0, 1);
    for i := 0 to |plan|
      invariant TraceOk(ports, f, plan, e) && |e.taken| == i && WasRead(ports, e.tick, e.lastNow)
    {
      var next := TakeSample(ports, f, plan[i], e);
      if next.Err? { return next; }
      ghost var s, c :| Takes(ports, f, plan[i], e, next.value, s, c);
      TakeKeepsTrace(ports, f, plan, e, next.value, s, c);
      e := next.value;
    }
    return Ok(e);
  }

  // ----- Results by endpoint -----

  datatype EndpointResult = EndpointResult(endpoint: nat, samples: seq<Sample>)

  datatype Report = Report(started: nat, finished: nat, results: seq<EndpointResult>)

  function ForEndpoint(taken: seq<Sample>, id: nat): seq<Sample> {
    if taken == [] then []
    else ForEndpoint(taken[..|taken| - 1], id) + if taken[|taken| - 1].endpoint == id then [taken[|taken| - 1]] else []
  }

  ghost predicate AllMatch(taken: seq<Sample>, plan: seq<Scheduled>) {
    |taken| == |plan| && forall i | 0 <= i < |plan| :: Matches(taken[i], plan[i])
  }

  lemma {:induction false} ForEndpointAll(taken: seq<Sample>, id: nat)
    requires forall s | s in taken :: s.endpoint == id
    ensures ForEndpoint(taken, id) == taken
  {
    if taken != [] {
      ForEndpointAll(taken[..|taken| - 1], id);
      assert taken == taken[..|taken| - 1] + [taken[|taken| - 1]];
    }
  }

  lemma {:induction false} ForEndpointNone(taken: seq<Sample>, id: nat)
    requires forall s | s in taken :: s.endpoint != id
    ensures ForEndpoint(taken, id) == []
  {
    if taken != [] {
      ForEndpointNone(taken[..|taken| - 1], id);
    }
  }

  lemma {:induction false} ForEndpointAppend(a: seq<Sample>, b: seq<Sample>, id: nat)
    ensures ForEndpoint(a + b, id) == ForEndpoint(a, id) + ForEndpoint(b, id)
  {
    if b == [] {
      assert a + b == a;
    } else {
      ForEndpointAppend(a, b[..|b| - 1], id);
      assert (a + b)[..|a + b| - 1] == a + b[..|b| - 1];
    }
  }

  ghost predicate DistinctEndpoints(es: seq<Endpoint>) { forall i, j | 0 <= i < j < |es| :: es[i].id != es[j].id }

  lemma {:induction false} PlanEndpointIn(p: Pace, es: seq<Endpoint>, from: nat, k: nat)
    requires k < |Plan(p, es, from)|
    ensures Plan(p, es, from)[k].endpoint in es
  {
    var first, rest := PlanFor(p, es[0], from, p.count), Plan(p, es[1..], from + p.count);
    if k < p.count {
      assert (first + rest)[k] == first[k] == SampleAt(p, es[0], k, from + k);
    } else {
      PlanEndpointIn(p, es[1..], from + p.count, k - p.count);
      assert (first + rest)[k] == rest[k - p.count];
    }
  }

  /** An endpoint's samples are one per ordinal, in order. */
  ghost predicate OneEach(samples: seq<Sample>, id: nat, count: nat) {
    |samples| == count && forall o | 0 <= o < count :: samples[o].endpoint == id && samples[o].ordinal == o
  }

  /** The head of the plan belongs to the first endpoint, the rest to the others. */
  lemma {:induction false} HeadAndRest(p: Pace, es: seq<Endpoint>, from: nat, taken: seq<Sample>)
    requires DistinctEndpoints(es) && es != [] && AllMatch(taken, Plan(p, es, from))
    ensures p.count <= |taken| && OneEach(taken[..p.count], es[0].id, p.count)
    ensures AllMatch(taken[p.count..], Plan(p, es[1..], from + p.count))
    ensures forall s | s in taken[p.count..] :: exists e :: e in es[1..] && e.id == s.endpoint
  {
    var n := p.count;
    var first, rest := PlanFor(p, es[0], from, n), Plan(p, es[1..], from + n);
    assert Plan(p, es, from) == first + rest;
    forall o | 0 <= o < n ensures taken[..n][o].endpoint == es[0].id && taken[..n][o].ordinal == o {
      assert (first + rest)[o] == first[o] == SampleAt(p, es[0], o, from + o);
      assert Matches(taken[o], (first + rest)[o]);
    }
    forall i | 0 <= i < |rest| ensures Matches(taken[n..][i], rest[i]) {
      assert Matches(taken[n + i], (first + rest)[n + i]);
    }
    forall s | s in taken[n..] ensures exists e :: e in es[1..] && e.id == s.endpoint {
      var i :| 0 <= i < |taken[n..]| && taken[n..][i] == s;
      PlanEndpointIn(p, es[1..], from + n, i);
      assert Matches(taken[n..][i], rest[i]);
      assert rest[i].endpoint in es[1..];
    }
  }

  lemma {:induction false} FirstEndpoint(es: seq<Endpoint>, head: seq<Sample>, rest: seq<Sample>)
    requires DistinctEndpoints(es) && es != [] && OneEach(head, es[0].id, |head|)
    requires forall s | s in rest :: exists e :: e in es[1..] && e.id == s.endpoint
    ensures ForEndpoint(head + rest, es[0].id) == head
    ensures forall i | 1 <= i < |es| :: ForEndpoint(head + rest, es[i].id) == ForEndpoint(rest, es[i].id)
  {
    ForEndpointAppend(head, rest, es[0].id);
    forall s | s in rest ensures s.endpoint != es[0].id {
      var e :| e in es[1..] && e.id == s.endpoint;
      var j :| 0 <= j < |es[1..]| && es[1..][j] == e;
      assert es[1 + j] == e;
    }
    ForEndpointAll(head, es[0].id);
    ForEndpointNone(rest, es[0].id);
    forall i | 1 <= i < |es| ensures ForEndpoint(head + rest, es[i].id) == ForEndpoint(rest, es[i].id) {
      ForEndpointAppend(head, rest, es[i].id);
      ForEndpointNone(head, es[i].id);
    }
  }

  function Gather(taken: seq<Sample>, es: seq<Endpoint>): seq<Sample> {
    if es == [] then [] else ForEndpoint(taken, es[0].id) + Gather(taken, es[1..])
  }

  lemma {:induction false} GatherSkips(head: seq<Sample>, rest: seq<Sample>, es: seq<Endpoint>)
    requires forall i | 0 <= i < |es| :: ForEndpoint(head + rest, es[i].id) == ForEndpoint(rest, es[i].id)
    ensures Gather(head + rest, es) == Gather(rest, es)
  {
    if es != [] {
      forall i | 0 <= i < |es[1..]| ensures ForEndpoint(head + rest, es[1..][i].id) == ForEndpoint(rest, es[1..][i].id) {
        assert es[1..][i] == es[i + 1];
      }
      GatherSkips(head, rest, es[1..]);
    }
  }

  ghost predicate AllGrouped(es: seq<Endpoint>, taken: seq<Sample>, count: nat) {
    forall i | 0 <= i < |es| :: OneEach(ForEndpoint(taken, es[i].id), es[i].id, count)
  }

  lemma {:induction false} GroupsJoin(es: seq<Endpoint>, head: seq<Sample>, rest: seq<Sample>, count: nat)
    requires es != [] && OneEach(head, es[0].id, count) && AllGrouped(es[1..], rest, count)
    requires ForEndpoint(head + rest, es[0].id) == head
    requires forall i | 1 <= i < |es| :: ForEndpoint(head + rest, es[i].id) == ForEndpoint(rest, es[i].id)
    ensures AllGrouped(es, head + rest, count)
  {
    forall i | 1 <= i < |es| ensures OneEach(ForEndpoint(head + rest, es[i].id), es[i].id, count) {
      assert es[i] == es[1..][i - 1];
    }
  }

  /** The samples of the first endpoint and those of the others. */
  lemma {:induction false} Parts(p: Pace, es: seq<Endpoint>, from: nat, taken: seq<Sample>)
    returns (head: seq<Sample>, rest: seq<Sample>)
    requires DistinctEndpoints(es) && es != [] && AllMatch(taken, Plan(p, es, from))
    ensures taken == head + rest && OneEach(head, es[0].id, p.count)
    ensures DistinctEndpoints(es[1..]) && AllMatch(rest, Plan(p, es[1..], from + p.count))
    ensures ForEndpoint(taken, es[0].id) == head
    ensures forall i | 1 <= i < |es| :: ForEndpoint(taken, es[i].id) == ForEndpoint(rest, es[i].id)
  {
    HeadAndRest(p, es, from, taken);
    head, rest := taken[..p.count], taken[p.count..];
    assert taken == head + rest;
    FirstEndpoint(es, head, rest);
  }

  /** Grouping by endpoint gives each its ordinals in order. */
  lemma {:induction false} GroupsTile(p: Pace, es: seq<Endpoint>, from: nat, taken: seq<Sample>)
    requires DistinctEndpoints(es) && AllMatch(taken, Plan(p, es, from))
    ensures AllGrouped(es, taken, p.count)
    decreases |es|
  {
    if es != [] {
      var head, rest := Parts(p, es, from, taken);
      GroupsTile(p, es[1..], from + p.count, rest);
      GroupsJoin(es, head, rest, p.count);
    }
  }

  /** Grouping loses and repeats nothing. */
  lemma {:induction false} GathersAll(p: Pace, es: seq<Endpoint>, from: nat, taken: seq<Sample>)
    requires DistinctEndpoints(es) && AllMatch(taken, Plan(p, es, from))
    ensures Gather(taken, es) == taken
    decreases |es|
  {
    if es != [] {
      var head, rest := Parts(p, es, from, taken);
      GathersAll(p, es[1..], from + p.count, rest);
      forall i | 0 <= i < |es[1..]| ensures ForEndpoint(head + rest, es[1..][i].id) == ForEndpoint(rest, es[1..][i].id) {
        assert es[1..][i] == es[i + 1];
      }
      GatherSkips(head, rest, es[1..]);
    }
  }

  // ----- Execution -----

  function Get(m: map<nat, seq<Sample>>, id: nat): seq<Sample> { if id in m then m[id] else [] }

  method GroupByEndpoint(taken: seq<Sample>) returns (m: map<nat, seq<Sample>>)
    ensures forall id :: Get(m, id) == ForEndpoint(taken, id)
  {
    m := map[];
    for i := 0 to |taken|
      invariant forall id :: Get(m, id) == ForEndpoint(taken[..i], id)
    {
      assert taken[..i + 1][..i] == taken[..i];
      var id := taken[i].endpoint;
      m := m[id := Get(m, id) + [taken[i]]];
    }
    assert taken[..|taken|] == taken;
  }

  /** A result needs samples of its endpoint, one for each ordinal from zero. */
  method ResultOf(endpoint: Endpoint, samples: seq<Sample>) returns (r: Result<EndpointResult, ExecutionError>)
    ensures r.Ok? <==> 0 < |samples| <= MAX_ACTIVE_SAMPLES && OneEach(samples, endpoint.id, |samples|)
    ensures r.Ok? ==> r.value == EndpointResult(endpoint.id, samples)
    ensures r.Err? ==> r.error == InvalidResult
  {
    if |samples| == 0 || |samples| > MAX_ACTIVE_SAMPLES { return Err(InvalidResult); }
    for o := 0 to |samples|
      invariant forall x | 0 <= x < o :: samples[x].endpoint == endpoint.id && samples[x].ordinal == x
    {
      if samples[o].endpoint != endpoint.id || samples[o].ordinal != o { return Err(InvalidResult); }
    }
    return Ok(EndpointResult(endpoint.id, samples));
  }

  ghost predicate ResultsOk(es: seq<Endpoint>, taken: seq<Sample>, count: nat, results: seq<EndpointResult>) {
    |results| == |es| && forall i | 0 <= i < |es| :: ResultOk(es[i], taken, count, results[i])
  }

  ghost predicate ResultOk(e: Endpoint, taken: seq<Sample>, count: nat, result: EndpointResult) {
    result == EndpointResult(e.id, ForEndpoint(taken, e.id)) && OneEach(result.samples, e.id, count)
  }

  method BuildResults(es: seq<Endpoint>, taken: seq<Sample>, count: nat) returns (r: Result<seq<EndpointResult>, ExecutionError>)
    requires es != [] ==> count <= MAX_ACTIVE_SAMPLES
    requires AllGrouped(es, taken, count)
    ensures r.Ok? <==> count > 0 || es == []
    ensures r.Ok? ==> ResultsOk(es, taken, count, r.value)
    ensures r.Err? ==> r.error == InvalidResult
  {
    var groups := GroupByEndpoint(taken);
    var results: seq<EndpointResult> := [];
    for i := 0 to |es|
      invariant |results| == i && (count > 0 || i == 0)
      invariant forall j | 0 <= j < i :: ResultOk(es[j], taken, count, results[j])
    {
      var result := ResultOf(es[i], Get(groups, es[i].id));
      if result.Err? { return Err(result.error); }
      results := results + [result.value];
    }
    return Ok(results);
  }

  /** What a finished execution reports: every scheduled sample once, by endpoint and ordinal, in time. */
  ghost predicate Completed(
    ports: Ports, sampleId: SampleId, run: Run, interval: Interval, f: Frame, e: Exec, report: Report)
  {
    var plan, es := Samples(sampleId, run, interval), SortById(run.endpoints);
    && Schedulable(sampleId, run, interval)
    && f.start == interval.start && f.timeout == run.timeout && f.deadline == f.origin + (interval.end - interval.start)
    && TraceOk(ports, f, plan, e) && |e.taken| == |plan|
    && ResultsOk(es, e.taken, interval.samplesPerEndpoint, report.results)
    && Gather(e.taken, es) == e.taken
    && report.started == interval.start && report.finished == At(f, e.lastNow)
    && forall s | s in e.taken :: s.finished <= report.finished
  }

  lemma {:induction false} SortedDistinct(es: seq<Endpoint>)
    requires DistinctEndpoints(es)
    ensures DistinctEndpoints(SortById(es))
  {
    if es != [] {
      var n := |es| - 1;
      SortedDistinct(es[..n]);
      SortByIdSorts(es[..n]);
      forall e | e in SortById(es[..n]) ensures e.id != es[n].id {
        assert e in multiset(SortById(es[..n]));
        assert e in es[..n];
      }
      InsertDistinct(es[n], SortById(es[..n]));
    }
  }

  lemma {:induction false} InsertDistinct(e: Endpoint, es: seq<Endpoint>)
    requires DistinctEndpoints(es) && forall x | x in es :: x.id != e.id
    ensures DistinctEndpoints(Insert(e, es))
  {
    if es != [] && es[0].id <= e.id {
      InsertDistinct(e, es[1..]);
      InsertKeeps(e, es[1..]);
      var r := Insert(e, es[1..]);
      forall j | 0 <= j < |r| ensures r[j].id != es[0].id {
        assert r[j] in multiset(r);
        if r[j] != e {
          assert r[j] in es[1..];
        }
      }
    }
  }

  lemma {:induction false} TraceMatches(ports: Ports, f: Frame, plan: seq<Scheduled>, e: Exec)
    requires TraceOk(ports, f, plan, e) && |e.taken| == |plan|
    ensures AllMatch(e.taken, plan)
  {
    forall i | 0 <= i < |plan| ensures Matches(e.taken[i], plan[i]) {
      assert TakenAt(ports, f, plan, e, i);
    }
  }

  /** The fixed data of an execution whose first clock reading is `origin`. */
  function FrameOf(schedule: Schedule, origin: nat): Frame {
    Frame(schedule.start, origin, origin + schedule.duration, schedule.timeout)
  }

  function ScheduleOf(sampleId: SampleId, run: Run, interval: Interval): Schedule
    requires interval.start <= interval.end
  {
    Schedule(run.id, interval.id, interval.start, interval.end - interval.start, run.timeout, Samples(sampleId, run, interval))
  }

  /** The given schedule is the one that would be built. */
  ghost predicate Agreed(sampleId: SampleId, run: Run, interval: Interval, schedule: Schedule) {
    Schedulable(sampleId, run, interval) && schedule == ScheduleOf(sampleId, run, interval)
  }

  /**
    A mismatch, a clock fault or an interval without samples, and nothing else, keeps
    an execution from completing: with a clock that neither runs backwards nor leaves
    64 bits every agreed schedule is executed to its end.
   */
  method Execute(sampleId: SampleId, run: Run, interval: Interval, schedule: Schedule, ports: Ports)
    returns (r: Result<Report, ExecutionError>, ghost f: Frame, ghost e: Exec)
    requires DistinctEndpoints(run.endpoints)
    ensures r.Ok? ==> Completed(ports, sampleId, run, interval, f, e, r.value) && f == FrameOf(schedule, ports.now(0))
    ensures r == Err(ScheduleMismatch) <==> !Agreed(sampleId, run, interval, schedule)
    ensures r == Err(ClockRegression) ==>
      var frame := FrameOf(schedule, ports.now(0));
      frame.deadline >= U64 || ClockFault(ports, frame)
    ensures r == Err(InvalidResult) ==> interval.samplesPerEndpoint == 0 && run.endpoints != []
  {
    f, e := Frame(0, 0, 0, 0), Exec(0, 0, false, [], []);
    var expected := BuildSchedule(sampleId, run, interval);
    if expected.Err? || schedule != expected.value { return Err(ScheduleMismatch), f, e; }
    var origin: nat := ports.now(0);
    if origin + schedule.duration >= U64 { return Err(ClockRegression), f, e; }
    var frame := FrameOf(schedule, origin);
    var done := TakeAll(ports, frame, schedule.samples);
    if done.Err? { return Err(done.error), f, e; }
    f, e := frame, done.value;
    var finished := Stamp(frame, done.value.lastNow);
    if finished.Err? {
      StampFault(ports, frame, done.value.tick, done.value.lastNow);
      return Err(ClockRegression), f, e;
    }
    var endpoints := SortById(run.endpoints);
    Grouped(ports, sampleId, run, interval, f, e);
    var results := BuildResults(endpoints, done.value.taken, interval.samplesPerEndpoint);
    if results.Err? {
      SortByIdSorts(run.endpoints);
      SameLength(endpoints, run.endpoints);
      return Err(InvalidResult), f, e;
    }
    r := Ok(Report(schedule.start, finished.value, results.value));
  }

  lemma {:induction false} Grouped(ports: Ports, sampleId: SampleId, run: Run, interval: Interval, f: Frame, e: Exec)
    requires DistinctEndpoints(run.endpoints) && Schedulable(sampleId, run, interval)
    requires TraceOk(ports, f, Samples(sampleId, run, interval), e) && |e.taken| == |Samples(sampleId, run, interval)|
    ensures
      var es := SortById(run.endpoints);
      && AllGrouped(es, e.taken, interval.samplesPerEndpoint)
      && Gather(e.taken, es) == e.taken && (es != [] ==> interval.samplesPerEndpoint <= MAX_ACTIVE_SAMPLES)
    ensures forall s | s in e.taken :: s.finished <= At(f, e.lastNow)
  {
    var es := SortById(run.endpoints);
    SortedDistinct(run.endpoints);
    SortByIdSorts(run.endpoints);
    SameLength(es, run.endpoints);
    TraceMatches(ports, f, Samples(sampleId, run, interval), e);
    GroupsTile(PaceOf(sampleId, run, interval), es, 0, e.taken);
    GathersAll(PaceOf(sampleId, run, interval), es, 0, e.taken);
    Times(|es|, interval.samplesPerEndpoint);
  }

  lemma {:induction false} Times(n: nat, count: nat)
    ensures n > 0 ==> count <= n * count
  {
  }

  // ----- Consequences -----

  /** Once a sample ends at or past the deadline, it and all later ones are timeouts or cancelled. */
  lemma {:induction false} NothingPastDeadline(ports: Ports, f: Frame, plan: seq<Scheduled>, e: Exec, i: nat, j: nat)
    requires TraceOk(ports, f, plan, e) && i <= j < |e.taken| && Reached(f, e.taken[i].finished)
    ensures e.taken[j].outcome == Timeout || e.taken[j].outcome == Cancelled
  {
    assert TakenAt(ports, f, plan, e, i) && TakenAt(ports, f, plan, e, j);
    if i < j {
      assert Follows(e, i, j);
    }
  }

  /** After a cancelled sample every sample is cancelled and the connector is not called again. */
  lemma {:induction false} CancellationLasts(ports: Ports, f: Frame, plan: seq<Scheduled>, e: Exec, i: nat, j: nat)
    requires TraceOk(ports, f, plan, e) && i < j < |e.taken| && e.taken[i].outcome == Cancelled
    ensures e.taken[j].outcome == Cancelled && e.calls[j].NoCall?
  {
    assert Follows(e, i, j);
  }

  /** Connector calls never overlap, never run past the deadline, and alone bring success. */
  lemma {:induction false} CallsAreSerial(ports: Ports, f: Frame, plan: seq<Scheduled>, e: Exec, i: nat, j: nat)
    requires TraceOk(ports, f, plan, e) && i < j < |e.taken| && e.calls[i].Call? && e.calls[j].Call?
    ensures e.taken[i].finished <= At(f, e.calls[j].started)
    ensures e.calls[i].started <= e.calls[j].started && e.calls[j].started + e.calls[j].timeout <= f.deadline
    ensures e.taken[j].outcome == Success ==> e.calls[j].result == Connected && !Reached(f, e.taken[j].finished)
  {
    assert TakenAt(ports, f, plan, e, i) && TakenAt(ports, f, plan, e, j) && Follows(e, i, j);
  }
}
