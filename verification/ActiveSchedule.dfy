/** Building the sample schedule of one interval of an active test run. */
module ActiveSchedule {
  const U64: nat := 0x1_0000_0000_0000_0000
  const MAX_ACTIVE_SAMPLES: nat := 4096

  type u64 = n: nat | n < U64

  datatype Endpoint = Endpoint(id: nat, address: nat)

  /** A clock reading: nanoseconds within an epoch. */
  datatype Interval = Interval(
    id: nat, runId: nat, epoch: nat, start: u64, end: u64, samplesPerEndpoint: nat, provenance: nat)

  datatype Run = Run(
    id: nat, epoch: nat, started: u64, deadline: u64, endpoints: seq<Endpoint>, intervals: seq<Interval>,
    maxSamples: nat, spacing: u64, timeout: u64, provenance: nat)

  datatype Scheduled = Scheduled(id: nat, endpoint: Endpoint, ordinal: nat, sequence: nat, offset: nat, plannedAt: nat)

  datatype Schedule = Schedule(
    runId: nat, intervalId: nat, start: nat, duration: nat, timeout: nat, samples: seq<Scheduled>)

  datatype ScheduleError = RunIntervalMismatch | IntervalOutsideRun | Invalid

  datatype Result<T, E> = Ok(value: T) | Err(error: E)

  /** The identity of a sample, by endpoint and ordinal. */
  type SampleId = (nat, nat) -> nat

  // ----- Sorting the endpoints -----

  function Insert(e: Endpoint, es: seq<Endpoint>): seq<Endpoint> {
    if es == [] then [e]
    else if es[0].id <= e.id then [es[0]] + Insert(e, es[1..])
    else [e] + es
  }

  function SortById(es: seq<Endpoint>): seq<Endpoint> {
    if es == [] then [] else Insert(es[|es| - 1], SortById(es[..|es| - 1]))
  }

  ghost predicate Sorted(es: seq<Endpoint>) { forall i, j | 0 <= i < j < |es| :: es[i].id <= es[j].id }

  lemma {:induction false} InsertKeeps(e: Endpoint, es: seq<Endpoint>)
    ensures multiset(Insert(e, es)) == multiset(es) + multiset{e}
  {
    if es != [] && es[0].id <= e.id {
      InsertKeeps(e, es[1..]);
      assert es == [es[0]] + es[1..];
    }
  }

  ghost predicate AllFrom(id: nat, es: seq<Endpoint>) { forall i | 0 <= i < |es| :: id <= es[i].id }

  lemma {:induction false} InsertAbove(id: nat, e: Endpoint, es: seq<Endpoint>)
    requires AllFrom(id, es) && id <= e.id
    ensures AllFrom(id, Insert(e, es))
  {
    if es != [] && es[0].id <= e.id {
      InsertAbove(id, e, es[1..]);
    }
  }

  lemma {:induction false} InsertSorts(e: Endpoint, es: seq<Endpoint>)
    requires Sorted(es)
    ensures Sorted(Insert(e, es))
  {
    if es != [] && es[0].id <= e.id {
      InsertSorts(e, es[1..]);
      InsertAbove(es[0].id, e, es[1..]);
    }
  }

  lemma {:induction false} SortByIdSorts(es: seq<Endpoint>)
    ensures Sorted(SortById(es)) && multiset(SortById(es)) == multiset(es)
  {
    if es != [] {
      SortByIdSorts(es[..|es| - 1]);
      InsertSorts(es[|es| - 1], SortById(es[..|es| - 1]));
      InsertKeeps(es[|es| - 1], SortById(es[..|es| - 1]));
      assert es == es[..|es| - 1] + [es[|es| - 1]];
    }
  }

  // ----- The planned samples -----

  datatype Pace = Pace(start: nat, spacing: nat, count: nat, sampleId: SampleId)

  function SampleAt(p: Pace, e: Endpoint, ordinal: nat, sequence: nat): Scheduled {
    Scheduled(p.sampleId(e.id, ordinal), e, ordinal, sequence, p.spacing * sequence, p.start + p.spacing * sequence)
  }

  function PlanFor(p: Pace, e: Endpoint, from: nat, count: nat): (r: seq<Scheduled>)
    ensures |r| == count
  {
    seq(count, ordinal requires 0 <= ordinal < count => SampleAt(p, e, ordinal, from + ordinal))
  }

  /** Endpoint by endpoint, ordinal by ordinal. */
  function Plan(p: Pace, es: seq<Endpoint>, from: nat): seq<Scheduled> {
    if es == [] then [] else PlanFor(p, es[0], from, p.count) + Plan(p, es[1..], from + p.count)
  }

  lemma {:induction false} PlanAppend(p: Pace, es: seq<Endpoint>, e: Endpoint, from: nat)
    ensures Plan(p, es + [e], from) == Plan(p, es, from) + PlanFor(p, e, from + |Plan(p, es, from)|, p.count)
  {
    if es == [] {
      assert es + [e] == [e] && [e][1..] == [];
      assert Plan(p, [e], from) == PlanFor(p, e, from, p.count) + Plan(p, [], from + p.count);
    } else {
      PlanAppend(p, es[1..], e, from + p.count);
      assert (es + [e])[0] == es[0] && (es + [e])[1..] == es[1..] + [e];
    }
  }

  lemma {:induction false} PlanLength(p: Pace, es: seq<Endpoint>, from: nat)
    ensures |Plan(p, es, from)| == |es| * p.count
  {
    if es != [] {
      PlanLength(p, es[1..], from + p.count);
      assert |es| * p.count == p.count + (|es| - 1) * p.count;
    }
  }

  lemma {:induction false} PlanSequence(p: Pace, es: seq<Endpoint>, from: nat, k: nat)
    requires k < |Plan(p, es, from)|
    ensures
      var s := Plan(p, es, from)[k];
      s.sequence == from + k && s.offset == p.spacing * (from + k) && s.plannedAt == p.start + s.offset
  {
    var first, rest := PlanFor(p, es[0], from, p.count), Plan(p, es[1..], from + p.count);
    assert Plan(p, es, from) == first + rest;
    if k < p.count {
      assert (first + rest)[k] == first[k] == SampleAt(p, es[0], k, from + k);
    } else {
      PlanSequence(p, es[1..], from + p.count, k - p.count);
      assert (first + rest)[k] == rest[k - p.count];
    }
  }

  ghost predicate DistinctIds(samples: seq<Scheduled>) {
    forall i, j | 0 <= i < j < |samples| :: samples[i].id != samples[j].id
  }

  // ----- Building -----

  function PaceOf(sampleId: SampleId, run: Run, interval: Interval): Pace {
    Pace(interval.start, run.spacing, interval.samplesPerEndpoint, sampleId)
  }

  function Samples(sampleId: SampleId, run: Run, interval: Interval): seq<Scheduled> {
    Plan(PaceOf(sampleId, run, interval), SortById(run.endpoints), 0)
  }

  function Count(run: Run, interval: Interval): nat { |run.endpoints| * interval.samplesPerEndpoint }

  function Minus1(n: nat): nat { if n == 0 then 0 else n - 1 }

  /** Every attempt, and one if there is none, ends with its timeout by the end of the interval. */
  ghost predicate AllFit(count: nat, spacing: nat, timeout: nat, duration: nat) {
    timeout <= duration && forall k: nat | k < count :: spacing * k + timeout <= duration
  }

  lemma {:induction false} LastFits(count: nat, spacing: nat, timeout: nat, duration: nat)
    ensures Minus1(count) * spacing + timeout <= duration <==> AllFit(count, spacing, timeout, duration)
  {
    var last := Minus1(count);
    if last * spacing + timeout <= duration {
      forall k: nat | k < count ensures spacing * k + timeout <= duration {
        Scale(spacing, k, last);
      }
    }
    if AllFit(count, spacing, timeout, duration) && count > 0 {
      assert spacing * last + timeout <= duration;
    }
  }

  /** When there is a schedule. */
  ghost predicate Schedulable(sampleId: SampleId, run: Run, interval: Interval) {
    && run.id == interval.runId && interval.epoch == run.epoch
    && run.started <= interval.start <= interval.end <= run.deadline
    && interval.provenance == run.provenance && interval in run.intervals
    && Count(run, interval) <= run.maxSamples && Count(run, interval) <= MAX_ACTIVE_SAMPLES
    && AllFit(Count(run, interval), run.spacing, run.timeout, interval.end - interval.start)
    && DistinctIds(Samples(sampleId, run, interval))
  }

  method BuildSchedule(sampleId: SampleId, run: Run, interval: Interval) returns (r: Result<Schedule, ScheduleError>)
    ensures r.Ok? <==> Schedulable(sampleId, run, interval)
    ensures r.Ok? ==>
      r.value == Schedule(run.id, interval.id, interval.start, interval.end - interval.start, run.timeout,
                          Samples(sampleId, run, interval))
  {
    if run.id != interval.runId { return Err(RunIntervalMismatch); }
    if interval.epoch != run.epoch || interval.start < run.started || interval.end > run.deadline {
      return Err(IntervalOutsideRun);
    }
    if interval.provenance != run.provenance { return Err(Invalid); }
    var total := |run.endpoints| * interval.samplesPerEndpoint;
    if total > run.maxSamples || total > MAX_ACTIVE_SAMPLES { return Err(Invalid); }
    if interval.end < interval.start { return Err(Invalid); }
    var duration := interval.end - interval.start;
    var required := Minus1(total) * run.spacing + run.timeout;
    LastFits(total, run.spacing, run.timeout, duration);
    if required >= U64 || required > duration { return Err(Invalid); }
    if interval !in run.intervals { return Err(RunIntervalMismatch); }
    var samples := PlanSamples(sampleId, run, interval);
    if samples.Err? { return Err(Invalid); }
    return Ok(Schedule(run.id, interval.id, interval.start, duration, run.timeout, samples.value));
  }

  ghost predicate IdsOf(samples: seq<Scheduled>, ids: set<nat>) {
    forall x :: x in ids <==> exists k :: 0 <= k < |samples| && samples[k].id == x
  }

  lemma {:induction false} AddId(samples: seq<Scheduled>, ids: set<nat>, s: Scheduled)
    requires IdsOf(samples, ids)
    ensures IdsOf(samples + [s], ids + {s.id})
    ensures DistinctIds(samples + [s]) <==> DistinctIds(samples) && s.id !in ids
  {
    var more := samples + [s];
    forall x ensures x in ids + {s.id} <==> exists k :: 0 <= k < |more| && more[k].id == x {
      if x == s.id {
        assert more[|samples|].id == x;
      } else if x in ids {
        var k :| 0 <= k < |samples| && samples[k].id == x;
        assert more[k].id == x;
      }
    }
    if DistinctIds(more) {
      assert forall k | 0 <= k < |samples| :: samples[k] == more[k] && more[k].id != more[|samples|].id;
    }
  }

  lemma {:induction false} DistinctPrefix(a: seq<Scheduled>, b: seq<Scheduled>)
    requires DistinctIds(a + b)
    ensures DistinctIds(a)
  {
    forall i, j | 0 <= i < j < |a| ensures a[i].id != a[j].id {
      assert (a + b)[i] == a[i] && (a + b)[j] == a[j];
    }
  }

  /** The nested loops, refusing a repeated sample identity. */
  method PlanSamples(sampleId: SampleId, run: Run, interval: Interval) returns (r: Result<seq<Scheduled>, ScheduleError>)
    ensures r.Ok? <==> DistinctIds(Samples(sampleId, run, interval))
    ensures r.Ok? ==> r.value == Samples(sampleId, run, interval)
  {
    var p := PaceOf(sampleId, run, interval);
    var endpoints := SortById(run.endpoints);
    var samples: seq<Scheduled> := [];
    var ids: set<nat> := {};
    for i := 0 to |endpoints|
      invariant samples == Plan(p, endpoints[..i], 0) && DistinctIds(samples) && IdsOf(samples, ids)
    {
      PlanAppend(p, endpoints[..i], endpoints[i], 0);
      assert endpoints[..i + 1] == endpoints[..i] + [endpoints[i]];
      var ok;
      ghost var before := samples;
      ok, samples, ids := PlanEndpoint(p, endpoints[i], samples, ids);
      if !ok {
        PlanPrefix(p, endpoints, i + 1);
        return Err(Invalid);
      }
    }
    assert endpoints[..|endpoints|] == endpoints;
    return Ok(samples);
  }

  lemma {:induction false} PlanPrefix(p: Pace, es: seq<Endpoint>, i: nat)
    requires i <= |es| && !DistinctIds(Plan(p, es[..i], 0))
    ensures !DistinctIds(Plan(p, es, 0))
    decreases |es| - i
  {
    if i == |es| {
      assert es[..i] == es;
    } else {
      PlanAppend(p, es[..i], es[i], 0);
      assert es[..i + 1] == es[..i] + [es[i]];
      if DistinctIds(Plan(p, es[..i + 1], 0)) {
        DistinctPrefix(Plan(p, es[..i], 0), PlanFor(p, es[i], |Plan(p, es[..i], 0)|, p.count));
      }
      PlanPrefix(p, es, i + 1);
    }
  }

  method PlanEndpoint(p: Pace, e: Endpoint, before: seq<Scheduled>, ids0: set<nat>)
    returns (ok: bool, samples: seq<Scheduled>, ids: set<nat>)
    requires DistinctIds(before) && IdsOf(before, ids0)
    ensures ok <==> DistinctIds(before + PlanFor(p, e, |before|, p.count))
    ensures ok ==> samples == before + PlanFor(p, e, |before|, p.count) && IdsOf(samples, ids)
  {
    samples, ids := before, ids0;
    ghost var next := PlanFor(p, e, |before|, p.count);
    var ordinal := 0;
    while ordinal < p.count
      invariant ordinal <= p.count && samples == before + next[..ordinal]
      invariant DistinctIds(samples) && IdsOf(samples, ids)
    {
      var sample := SampleAt(p, e, ordinal, |samples|);
      AddId(samples, ids, sample);
      assert next[..ordinal + 1] == next[..ordinal] + [sample];
      assert before + next[..ordinal + 1] == samples + [sample];
      if sample.id in ids {
        assert before + next == before + next[..ordinal + 1] + next[ordinal + 1..];
        if DistinctIds(before + next) {
          DistinctPrefix(before + next[..ordinal + 1], next[ordinal + 1..]);
        }
        return false, samples, ids;
      }
      samples, ids := samples + [sample], ids + {sample.id};
      ordinal := ordinal + 1;
    }
    assert next[..p.count] == next;
    ok := true;
  }

  // ----- What a schedule promises -----

  lemma {:induction false} SameLength(a: seq<Endpoint>, b: seq<Endpoint>)
    requires multiset(a) == multiset(b)
    ensures |a| == |b|
  {
    assert |multiset(a)| == |a| && |multiset(b)| == |b|;
  }

  lemma {:induction false} Scale(spacing: nat, k: nat, m: nat)
    requires k <= m
    ensures spacing * k <= m * spacing
  {
  }

  /** Sample `k` of a plan belongs to endpoint `i` with its own ordinal and identity. */
  ghost predicate Belongs(p: Pace, es: seq<Endpoint>, k: nat, s: Scheduled, i: nat) {
    && i < |es| && s.endpoint == es[i] && s.ordinal < p.count && k == i * p.count + s.ordinal
    && s.id == p.sampleId(es[i].id, s.ordinal)
  }

  lemma {:induction false} PlanBelongs(p: Pace, es: seq<Endpoint>, from: nat, k: nat) returns (i: nat)
    requires k < |Plan(p, es, from)|
    ensures Belongs(p, es, k, Plan(p, es, from)[k], i)
  {
    var first, rest := PlanFor(p, es[0], from, p.count), Plan(p, es[1..], from + p.count);
    assert Plan(p, es, from) == first + rest;
    if k < p.count {
      assert (first + rest)[k] == first[k] == SampleAt(p, es[0], k, from + k);
      i := 0;
    } else {
      var j := PlanBelongs(p, es[1..], from + p.count, k - p.count);
      assert (first + rest)[k] == rest[k - p.count];
      i := j + 1;
      assert i * p.count == j * p.count + p.count;
    }
  }

  /**
    Every planned attempt and its timeout lie within the interval, spaced as asked;
    the plan goes endpoint by endpoint in order of id, ordinal by ordinal, and every
    sample is identified by its endpoint and ordinal.
   */
  lemma {:induction false} AttemptsFit(sampleId: SampleId, run: Run, interval: Interval, k: nat)
    requires Schedulable(sampleId, run, interval) && k < |Samples(sampleId, run, interval)|
    ensures
      var s := Samples(sampleId, run, interval)[k];
      && s.sequence == k && interval.start <= s.plannedAt && s.plannedAt + run.timeout <= interval.end
      && s.offset == run.spacing * k && s.plannedAt == interval.start + s.offset
      && exists i: nat :: Planned(sampleId, run, interval, k, s, i)
    ensures |Samples(sampleId, run, interval)| == |run.endpoints| * interval.samplesPerEndpoint
  {
    var p, es := PaceOf(sampleId, run, interval), SortById(run.endpoints);
    SortByIdSorts(run.endpoints);
    SameLength(es, run.endpoints);
    PlanLength(p, es, 0);
    PlanSequence(p, es, 0, k);
    var i := PlanBelongs(p, es, 0, k);
    assert Planned(sampleId, run, interval, k, Samples(sampleId, run, interval)[k], i);
  }

  ghost predicate Planned(sampleId: SampleId, run: Run, interval: Interval, k: nat, s: Scheduled, i: nat) {
    var es, count := SortById(run.endpoints), interval.samplesPerEndpoint;
    && i < |es| && s.endpoint == es[i] && s.ordinal < count && k == i * count + s.ordinal
    && s.id == sampleId(es[i].id, s.ordinal)
  }
}
