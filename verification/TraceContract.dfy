/**
  The collector stream contract stated over whole traces, without any running
  state, and the proof that the one-pass validator decides exactly it.
 */
module TraceContract {
  import opened CollectorProtocol
  import opened StreamValidator

  // ----- Whole-trace clauses -----

  ghost predicate IsCapabilities(rs: seq<Record>, i: int) { 0 <= i < |rs| && rs[i].body.CapabilitiesBody? }
  ghost predicate IsAuthorization(rs: seq<Record>, i: int) { 0 <= i < |rs| && rs[i].body.AuthorizationBody? }
  ghost predicate IsStart(rs: seq<Record>, i: int) { 0 <= i < |rs| && rs[i].body.StartBody? }
  ghost predicate IsObservation(rs: seq<Record>, i: int) { 0 <= i < |rs| && rs[i].body.ObservationBody? }
  ghost predicate IsComplete(rs: seq<Record>, i: int) { 0 <= i < |rs| && rs[i].body.CompleteBody? }

  ghost function ObservationCount(rs: seq<Record>, n: nat): nat
    requires n <= |rs|
  {
    if n == 0 then 0 else ObservationCount(rs, n - 1) + (if rs[n - 1].body.ObservationBody? then 1 else 0)
  }

  ghost predicate HelloFirst(session: string, rs: seq<Record>) {
    && StartsWithHello(rs) && HelloOk(rs[0].body.hello, session)
    && forall i | 0 < i < |rs| :: !rs[i].body.HelloBody?
  }

  ghost predicate CompleteLast(rs: seq<Record>) {
    && IsComplete(rs, |rs| - 1)
    && forall i | 0 <= i < |rs| - 1 :: !IsComplete(rs, i)
  }

  ghost predicate ReceiptsMonotone(rs: seq<Record>) {
    forall i, j | 0 <= i <= j < |rs| :: rs[i].time <= rs[j].time
  }

  ghost predicate CapabilitiesOnce(h: Hello, session: string, rs: seq<Record>) {
    && (forall i, j | IsCapabilities(rs, i) && IsCapabilities(rs, j) :: i == j)
    && (forall i | IsCapabilities(rs, i) ::
          h.command != Authorize && CapabilitiesOk(rs[i].body.capabilities, h, session))
  }

  ghost predicate AuthorizationSecond(h: Hello, rs: seq<Record>) {
    forall i | IsAuthorization(rs, i) ::
      i == 1 && h.command == Authorize && AuthorizationOk(rs[i].body.authorization)
  }

  /** Some capability record before `n` offers scanning and lists this source as powered. */
  ghost predicate OfferedBefore(rs: seq<Record>, n: int, sourceId: string) {
    exists k, e :: 0 <= k < n && IsCapabilities(rs, k)
                   && rs[k].body.capabilities.nearbyScan.state == Available
                   && e in rs[k].body.capabilities.sources && e.source.sourceId == sourceId && e.powerOn
  }

  ghost predicate ScansPermitted(h: Hello, rs: seq<Record>) {
    && (forall i, j | IsStart(rs, i) && IsStart(rs, j) && rs[i].body.start.scanId == rs[j].body.start.scanId :: i == j)
    && (forall i | IsStart(rs, i) ::
          var b := rs[i].body.start;
          && h.command == Scan && UuidOk(b.scanId) && !b.includeHidden && b.apiStarted <= rs[i].time
          && OfferedBefore(rs, i, b.sourceId))
  }

  /** `k` starts the scan observed at `i`, of the same source and over the same window. */
  ghost predicate Tied(rs: seq<Record>, k: int, i: int)
    requires IsObservation(rs, i)
  {
    var o := rs[i].body.observation;
    && 0 <= k < i && IsStart(rs, k)
    && rs[k].body.start.scanId == o.scanId
    && rs[k].body.start.sourceId == o.source.sourceId
    && rs[k].body.start.apiStarted == o.windowStart <= o.windowEnd
    && rs[k].time <= o.windowEnd <= rs[i].time
  }

  ghost predicate ListedBefore(rs: seq<Record>, n: int, source: Source) {
    exists k, e :: 0 <= k < n && IsCapabilities(rs, k) && e in rs[k].body.capabilities.sources && e.source == source
  }

  ghost predicate ObservationsTied(h: Hello, session: string, rs: seq<Record>) {
    && (forall i, j | IsObservation(rs, i) && IsObservation(rs, j)
                      && rs[i].body.observation.observationId == rs[j].body.observation.observationId :: i == j)
    && (forall i | IsObservation(rs, i) ::
          && ObservationWellFormed(h, session, rs[i].body.observation)
          && (exists k :: Tied(rs, k, i))
          && ListedBefore(rs, i, rs[i].body.observation.source))
    && ObservationCount(rs, |rs|) <= h.maxObservations
  }

  /** All observations of one scan share its completion reading. */
  ghost predicate OneCompletionPerScan(rs: seq<Record>) {
    forall i, j | IsObservation(rs, i) && IsObservation(rs, j)
                  && rs[i].body.observation.scanId == rs[j].body.observation.scanId ::
      rs[i].body.observation.windowEnd == rs[j].body.observation.windowEnd
  }

  ghost predicate TerminalHonest(h: Hello, rs: seq<Record>, n: int)
    requires IsComplete(rs, n)
  {
    var c := rs[n].body.complete;
    && c.observationCount == ObservationCount(rs, n)
    && c.partial == (c.status != Ok && ObservationCount(rs, n) > 0)
    && (c.status == Ok ==>
          match h.command
          case Probe => exists k :: 0 <= k < n && IsCapabilities(rs, k)
          case Scan =>
            && (exists k :: 0 <= k < n && IsStart(rs, k))
            && (exists k :: 0 <= k < n && IsCapabilities(rs, k)
                            && rs[k].body.capabilities.nearbyScan.state == Available)
          case Authorize =>
            exists k :: 0 <= k < n && IsAuthorization(rs, k) && ConsentGiven(rs[k].body.authorization, c))
  }

  ghost predicate TraceOk(session: string, rs: seq<Record>) {
    && HelloFirst(session, rs)
    && CompleteLast(rs)
    && ReceiptsMonotone(rs)
    && var h := rs[0].body.hello;
       && CapabilitiesOnce(h, session, rs)
       && AuthorizationSecond(h, rs)
       && ScansPermitted(h, rs)
       && ObservationsTied(h, session, rs)
       && OneCompletionPerScan(rs)
       && TerminalOk(rs[|rs| - 1].body.complete, h) && TerminalHonest(h, rs, |rs| - 1)
  }

  // ----- The same clauses, record by record -----

  ghost predicate StartOkAt(h: Hello, rs: seq<Record>, i: int)
    requires IsStart(rs, i)
  {
    var b := rs[i].body.start;
    && h.command == Scan && UuidOk(b.scanId) && !b.includeHidden && b.apiStarted <= rs[i].time
    && OfferedBefore(rs, i, b.sourceId)
    && forall k | 0 <= k < i && IsStart(rs, k) :: rs[k].body.start.scanId != b.scanId
  }

  ghost predicate ObservationPlaced(h: Hello, rs: seq<Record>, i: int)
    requires IsObservation(rs, i)
  {
    var o := rs[i].body.observation;
    && (exists k :: Tied(rs, k, i))
    && ListedBefore(rs, i, o.source)
    && ObservationCount(rs, i) + 1 <= h.maxObservations
    && (forall k | 0 <= k < i && IsObservation(rs, k) ::
          && rs[k].body.observation.observationId != o.observationId
          && (rs[k].body.observation.scanId == o.scanId ==> rs[k].body.observation.windowEnd == o.windowEnd))
  }

  ghost predicate RecordOk(h: Hello, session: string, rs: seq<Record>, i: int)
    requires 0 <= i < |rs|
  {
    && (forall k | 0 <= k < i :: !IsComplete(rs, k))
    && (i > 0 ==> rs[i - 1].time <= rs[i].time)
    && BodyOk(h, session, rs, i)
  }

  ghost predicate BodyOk(h: Hello, session: string, rs: seq<Record>, i: int)
    requires 0 <= i < |rs|
  {
    match rs[i].body
    case HelloBody(x) => i == 0 && HelloOk(x, session)
    case CapabilitiesBody(c) =>
      && h.command != Authorize && CapabilitiesOk(c, h, session)
      && forall k | 0 <= k < i :: !IsCapabilities(rs, k)
    case AuthorizationBody(a) => i == 1 && h.command == Authorize && AuthorizationOk(a)
    case StartBody(b) => StartOkAt(h, rs, i)
    case ObservationBody(o) => ObservationWellFormed(h, session, o) && ObservationPlaced(h, rs, i)
    case CompleteBody(c) => TerminalOk(c, h) && TerminalHonest(h, rs, i)
  }

  // ----- What the running state means -----

  ghost predicate ScansMean(rs: seq<Record>, n: int, st: Progress) {
    && (forall k | 0 <= k < n && IsStart(rs, k) ::
          var b := rs[k].body.start;
          && b.scanId in st.scans
          && st.scans[b.scanId].source == b.sourceId && st.scans[b.scanId].started == b.apiStarted
          && st.scans[b.scanId].startReceipt == rs[k].time)
    && (forall id | id in st.scans :: StartedAs(rs, n, id))
  }

  ghost predicate CompletionsMean(rs: seq<Record>, n: int, st: Progress) {
    && (forall k | 0 <= k < n && IsObservation(rs, k) ::
          var o := rs[k].body.observation;
          o.scanId in st.scans && st.scans[o.scanId].completed == Some(o.windowEnd))
    && (forall id | id in st.scans && st.scans[id].completed.Some? ::
          exists k :: 0 <= k < n && IsObservation(rs, k) && rs[k].body.observation.scanId == id)
  }

  ghost predicate ObservationsMean(rs: seq<Record>, n: nat, st: Progress)
    requires n <= |rs|
  {
    && (forall k | 0 <= k < n && IsObservation(rs, k) :: rs[k].body.observation.observationId in st.observations)
    && (forall id | id in st.observations ::
          exists k :: 0 <= k < n && IsObservation(rs, k) && rs[k].body.observation.observationId == id)
    && |st.observations| == ObservationCount(rs, n)
  }

  ghost predicate CapsMean(rs: seq<Record>, n: int, st: Progress) {
    && (forall k | 0 <= k < n && IsCapabilities(rs, k) :: st.caps == Some(rs[k].body.capabilities))
    && (st.caps.Some? ==> exists k :: 0 <= k < n && IsCapabilities(rs, k))
    && (st.caps.Some? ==> DistinctSources(st.caps.value.sources) && st.sources == SourceMap(st.caps.value.sources))
    && (st.caps.None? ==> st.sources == map[])
    && (forall k | 0 <= k < n && IsAuthorization(rs, k) :: st.auth == Some(rs[k].body.authorization))
    && (st.auth.Some? ==> exists k :: 0 <= k < n && IsAuthorization(rs, k))
  }

  ghost predicate EndMeans(rs: seq<Record>, n: nat, st: Progress)
    requires n <= |rs|
  {
    && (st.ended <==> exists k :: 0 <= k < n && IsComplete(rs, k))
    && st.previous == (if n == 0 then 0 else rs[n - 1].time)
  }

  ghost predicate Means(rs: seq<Record>, n: nat, st: Progress)
    requires n <= |rs|
  {
    && EndMeans(rs, n, st)
    && CapsMean(rs, n, st) && ScansMean(rs, n, st) && CompletionsMean(rs, n, st) && ObservationsMean(rs, n, st)
  }

  lemma {:induction false} SourceMapContents(listed: seq<Listed>, id: string)
    requires DistinctSources(listed)
    ensures id in SourceMap(listed) <==> exists e :: e in listed && e.source.sourceId == id
    ensures id in SourceMap(listed) ==> SourceMap(listed)[id] in listed && SourceMap(listed)[id].source.sourceId == id
    ensures forall e | e in listed && e.source.sourceId == id :: id in SourceMap(listed) && SourceMap(listed)[id] == e
  {
    if listed != [] {
      var front, last := listed[..|listed| - 1], listed[|listed| - 1];
      assert listed == front + [last];
      SourceMapContents(front, id);
    }
  }

  /** The parts of acceptance that keep the state's meaning. */
  ghost predicate Consistent(st: Progress, i: nat, body: Body) {
    match body
    case HelloBody(_) => true
    case CapabilitiesBody(c) => st.caps.None? && DistinctSources(c.sources)
    case AuthorizationBody(_) => i == 1
    case StartBody(b) => b.scanId !in st.scans
    case ObservationBody(o) =>
      && o.scanId in st.scans && o.observationId !in st.observations
      && (st.scans[o.scanId].completed.None? || st.scans[o.scanId].completed.value == o.windowEnd)
    case CompleteBody(_) => !st.ended
  }

  lemma {:induction false} AcceptedIsConsistent(h: Hello, session: string, rs: seq<Record>, i: nat)
    requires i < |rs| && AcceptsAt(h, session, rs, i)
    ensures Consistent(After(rs, i), i, rs[i].body)
  {
  }

  lemma {:induction false} AdvanceEnd(rs: seq<Record>, i: nat)
    requires i < |rs| && EndMeans(rs, i, After(rs, i))
    ensures EndMeans(rs, i + 1, After(rs, i + 1))
  {
    assert rs[i].body.CompleteBody? ==> IsComplete(rs, i);
    if After(rs, i).ended {
      var k :| 0 <= k < i && IsComplete(rs, k);
      assert IsComplete(rs, k);
    }
  }

  lemma {:induction false} AdvanceMeans(rs: seq<Record>, i: nat)
    requires StartsWithHello(rs) && i < |rs| && Means(rs, i, After(rs, i))
    requires Consistent(After(rs, i), i, rs[i].body)
    ensures Means(rs, i + 1, After(rs, i + 1))
  {
    var st := After(rs, i);
    assert After(rs, i + 1) == Advance(st, rs[i]);
    AdvanceEnd(rs, i);
    AdvanceCaps(rs, i, st);
    AdvanceScans(rs, i, st);
    AdvanceCompletions(rs, i, st);
    AdvanceObservations(rs, i, st);
  }

  lemma {:induction false} AdvanceCaps(rs: seq<Record>, i: nat, st: Progress)
    requires StartsWithHello(rs) && i < |rs| && CapsMean(rs, i, st)
    requires rs[i].body.CapabilitiesBody? ==> st.caps.None? && DistinctSources(rs[i].body.capabilities.sources)
    requires rs[i].body.AuthorizationBody? ==> i == 1
    ensures CapsMean(rs, i + 1, Advance(st, rs[i]))
  {
    match rs[i].body
    case CapabilitiesBody(_) => CapsArrive(rs, i, st);
    case AuthorizationBody(_) => AuthArrives(rs, i, st);
    case _ => CapsStay(rs, i, st, Advance(st, rs[i]));
  }

  lemma {:induction false} CapsArrive(rs: seq<Record>, i: nat, st: Progress)
    requires i < |rs| && CapsMean(rs, i, st) && IsCapabilities(rs, i)
    requires st.caps.None? && DistinctSources(rs[i].body.capabilities.sources)
    ensures CapsMean(rs, i + 1, Advance(st, rs[i]))
  {
    AuthSeen(rs, i, st);
  }

  lemma {:induction false} AuthArrives(rs: seq<Record>, i: nat, st: Progress)
    requires StartsWithHello(rs) && i < |rs| && CapsMean(rs, i, st) && IsAuthorization(rs, i) && i == 1
    ensures CapsMean(rs, i + 1, Advance(st, rs[i]))
  {
    CapsSeen(rs, i, st);
  }

  lemma {:induction false} CapsStay(rs: seq<Record>, i: nat, st: Progress, st': Progress)
    requires i < |rs| && CapsMean(rs, i, st) && !IsCapabilities(rs, i) && !IsAuthorization(rs, i)
    requires st'.caps == st.caps && st'.sources == st.sources && st'.auth == st.auth
    ensures CapsMean(rs, i + 1, st')
  {
    CapsSeen(rs, i, st);
    AuthSeen(rs, i, st);
  }

  lemma {:induction false} CapsSeen(rs: seq<Record>, i: nat, st: Progress)
    requires CapsMean(rs, i, st)
    ensures st.caps.Some? ==> exists k :: 0 <= k < i + 1 && IsCapabilities(rs, k)
  {
    if st.caps.Some? {
      var k :| 0 <= k < i && IsCapabilities(rs, k);
      assert IsCapabilities(rs, k);
    }
  }

  lemma {:induction false} AuthSeen(rs: seq<Record>, i: nat, st: Progress)
    requires CapsMean(rs, i, st)
    ensures st.auth.Some? ==> exists k :: 0 <= k < i + 1 && IsAuthorization(rs, k)
  {
    if st.auth.Some? {
      var k :| 0 <= k < i && IsAuthorization(rs, k);
      assert IsAuthorization(rs, k);
    }
  }

  ghost predicate StartedAs(rs: seq<Record>, n: int, id: string) {
    exists k :: 0 <= k < n && IsStart(rs, k) && rs[k].body.start.scanId == id
  }

  lemma {:induction false} StartedLater(rs: seq<Record>, n: nat, id: string)
    requires StartedAs(rs, n, id)
    ensures StartedAs(rs, n + 1, id)
  {
    var k :| 0 <= k < n && IsStart(rs, k) && rs[k].body.start.scanId == id;
    assert IsStart(rs, k);
  }

  lemma {:induction false} ScanArrives(rs: seq<Record>, i: nat, st: Progress)
    requires i < |rs| && ScansMean(rs, i, st) && IsStart(rs, i) && rs[i].body.start.scanId !in st.scans
    ensures ScansMean(rs, i + 1, Advance(st, rs[i]))
  {
    var st' := Advance(st, rs[i]);
    assert StartedAs(rs, i + 1, rs[i].body.start.scanId);
    forall id | id in st'.scans ensures StartedAs(rs, i + 1, id) {
      if id != rs[i].body.start.scanId {
        assert StartedAs(rs, i, id);
        StartedLater(rs, i, id);
      }
    }
  }

  /** Records that start no scan keep what is known of how scans started. */
  lemma {:induction false} ScansStay(rs: seq<Record>, i: nat, st: Progress, st': Progress)
    requires i < |rs| && ScansMean(rs, i, st) && !IsStart(rs, i) && st'.scans.Keys == st.scans.Keys
    requires forall id | id in st.scans ::
      && st'.scans[id].source == st.scans[id].source && st'.scans[id].started == st.scans[id].started
      && st'.scans[id].startReceipt == st.scans[id].startReceipt
    ensures ScansMean(rs, i + 1, st')
  {
    forall id | id in st'.scans ensures StartedAs(rs, i + 1, id) {
      assert StartedAs(rs, i, id);
      StartedLater(rs, i, id);
    }
  }

  lemma {:induction false} AdvanceScans(rs: seq<Record>, i: nat, st: Progress)
    requires i < |rs| && ScansMean(rs, i, st)
    requires rs[i].body.StartBody? ==> rs[i].body.start.scanId !in st.scans
    ensures ScansMean(rs, i + 1, Advance(st, rs[i]))
  {
    if rs[i].body.StartBody? {
      ScanArrives(rs, i, st);
    } else {
      ScansStay(rs, i, st, Advance(st, rs[i]));
    }
  }

  lemma {:induction false} AdvanceCompletions(rs: seq<Record>, i: nat, st: Progress)
    requires i < |rs| && CompletionsMean(rs, i, st)
    requires rs[i].body.StartBody? ==> rs[i].body.start.scanId !in st.scans
    requires rs[i].body.ObservationBody? ==>
               var o := rs[i].body.observation;
               && o.scanId in st.scans
               && (var scan := st.scans[o.scanId];
                   scan.completed.None? || scan.completed.value == o.windowEnd)
    ensures CompletionsMean(rs, i + 1, Advance(st, rs[i]))
  {
    var st' := Advance(st, rs[i]);
    if rs[i].body.ObservationBody? {
      assert IsObservation(rs, i);
    }
    forall id | id in st'.scans && st'.scans[id].completed.Some?
      ensures exists k :: 0 <= k < i + 1 && IsObservation(rs, k) && rs[k].body.observation.scanId == id
    {
      if id in st.scans && st.scans[id].completed.Some? {
        var k :| 0 <= k < i && IsObservation(rs, k) && rs[k].body.observation.scanId == id;
        assert IsObservation(rs, k);
      }
    }
  }

  lemma {:induction false} AdvanceObservations(rs: seq<Record>, i: nat, st: Progress)
    requires i < |rs| && ObservationsMean(rs, i, st)
    requires rs[i].body.ObservationBody? ==>
               var o := rs[i].body.observation;
               o.scanId in st.scans && o.observationId !in st.observations
    ensures ObservationsMean(rs, i + 1, Advance(st, rs[i]))
  {
    var st' := Advance(st, rs[i]);
    if rs[i].body.ObservationBody? {
      assert IsObservation(rs, i);
    }
    forall id | id in st'.observations
      ensures exists k :: 0 <= k < i + 1 && IsObservation(rs, k) && rs[k].body.observation.observationId == id
    {
      if id in st.observations {
        var k :| 0 <= k < i && IsObservation(rs, k) && rs[k].body.observation.observationId == id;
        assert IsObservation(rs, k);
      }
    }
  }

  lemma {:induction false} FreshMeans(rs: seq<Record>)
    ensures Means(rs, 0, FRESH)
  {
  }

  ghost predicate ConsistentAt(rs: seq<Record>, i: nat) {
    i < |rs| ==> Consistent(After(rs, i), i, rs[i].body)
  }

  lemma {:induction false} ConsistentMeans(rs: seq<Record>, n: nat)
    requires StartsWithHello(rs) && n <= |rs|
    requires forall i: nat {:trigger ConsistentAt(rs, i)} | i < n :: ConsistentAt(rs, i)
    ensures Means(rs, n, After(rs, n))
  {
    if n == 0 {
      FreshMeans(rs);
    } else {
      var m := n - 1;
      ConsistentMeans(rs, m);
      assert ConsistentAt(rs, m);
      AdvanceMeans(rs, m);
    }
  }

  lemma {:induction false} PrefixMeans(session: string, rs: seq<Record>, n: nat)
    requires StartsWithHello(rs) && n <= |rs| && AcceptsPrefix(session, rs, n)
    ensures Means(rs, n, After(rs, n))
  {
    forall i: nat {:trigger ConsistentAt(rs, i)} | i < n ensures ConsistentAt(rs, i) {
      AcceptedIsConsistent(rs[0].body.hello, session, rs, i);
    }
    ConsistentMeans(rs, n);
  }

  // ----- Acceptance of a record is its clause -----

  lemma {:induction false} OfferMeans(rs: seq<Record>, i: nat, st: Progress, sourceId: string)
    requires i <= |rs| && CapsMean(rs, i, st)
    ensures OfferedBefore(rs, i, sourceId) <==>
            && st.caps.Some? && st.caps.value.nearbyScan.state == Available
            && sourceId in st.sources && st.sources[sourceId].powerOn
  {
    if st.caps.Some? {
      var k :| 0 <= k < i && IsCapabilities(rs, k);
      assert IsCapabilities(rs, k);
      SourceMapContents(st.caps.value.sources, sourceId);
      if st.caps.value.nearbyScan.state == Available && sourceId in st.sources && st.sources[sourceId].powerOn {
        var e := st.sources[sourceId];
        assert e in rs[k].body.capabilities.sources;
      }
    }
  }

  lemma {:induction false} ListingMeans(rs: seq<Record>, i: nat, st: Progress, source: Source)
    requires i <= |rs| && CapsMean(rs, i, st)
    ensures ListedBefore(rs, i, source) <==>
            source.sourceId in st.sources && st.sources[source.sourceId].source == source
  {
    if st.caps.Some? {
      var k :| 0 <= k < i && IsCapabilities(rs, k);
      assert IsCapabilities(rs, k);
      SourceMapContents(st.caps.value.sources, source.sourceId);
      if source.sourceId in st.sources && st.sources[source.sourceId].source == source {
        var e := st.sources[source.sourceId];
        assert e in rs[k].body.capabilities.sources;
      }
    }
  }

  lemma {:induction false} StartMeans(h: Hello, session: string, rs: seq<Record>, i: nat)
    requires i < |rs| && Means(rs, i, After(rs, i)) && IsStart(rs, i)
    ensures BodyAccepted(h, session, After(rs, i), i, rs[i]) <==> StartOkAt(h, rs, i)
  {
    OfferMeans(rs, i, After(rs, i), rs[i].body.start.sourceId);
    var b := rs[i].body.start;
    if b.scanId in After(rs, i).scans {
      assert StartedAs(rs, i, b.scanId);
      var k :| 0 <= k < i && IsStart(rs, k) && rs[k].body.start.scanId == b.scanId;
      assert IsStart(rs, k);
    }
  }

  lemma {:induction false} TieMeans(rs: seq<Record>, i: nat, st: Progress)
    requires i < |rs| && ScansMean(rs, i, st) && IsObservation(rs, i)
    ensures (exists k :: Tied(rs, k, i)) <==>
            var o := rs[i].body.observation;
            && o.scanId in st.scans
            && var scan := st.scans[o.scanId];
               && scan.source == o.source.sourceId && scan.started == o.windowStart
               && o.windowStart <= o.windowEnd && scan.startReceipt <= o.windowEnd <= rs[i].time
  {
    var o := rs[i].body.observation;
    if k :| Tied(rs, k, i) {
      assert IsStart(rs, k);
    }
    if o.scanId in st.scans {
      assert StartedAs(rs, i, o.scanId);
      var k :| 0 <= k < i && IsStart(rs, k) && rs[k].body.start.scanId == o.scanId;
      assert IsStart(rs, k);
      if && st.scans[o.scanId].source == o.source.sourceId && st.scans[o.scanId].started == o.windowStart
         && o.windowStart <= o.windowEnd && st.scans[o.scanId].startReceipt <= o.windowEnd <= rs[i].time {
        assert Tied(rs, k, i);
      }
    }
  }

  lemma {:induction false} PriorObservationsMean(rs: seq<Record>, i: nat, st: Progress)
    requires i < |rs| && IsObservation(rs, i) && ObservationsMean(rs, i, st) && CompletionsMean(rs, i, st)
    requires rs[i].body.observation.scanId in st.scans
    ensures
      var o := rs[i].body.observation;
      var scan := st.scans[o.scanId];
      (o.observationId !in st.observations && (scan.completed.None? || scan.completed.value == o.windowEnd))
      <==>
      forall k | 0 <= k < i && IsObservation(rs, k) ::
        && rs[k].body.observation.observationId != o.observationId
        && (rs[k].body.observation.scanId == o.scanId ==> rs[k].body.observation.windowEnd == o.windowEnd)
  {
    var o := rs[i].body.observation;
    var scan := st.scans[o.scanId];
    if o.observationId in st.observations {
      var k :| 0 <= k < i && IsObservation(rs, k) && rs[k].body.observation.observationId == o.observationId;
      assert IsObservation(rs, k);
    }
    if scan.completed.Some? {
      var k :| 0 <= k < i && IsObservation(rs, k) && rs[k].body.observation.scanId == o.scanId;
      assert IsObservation(rs, k);
    }
  }

  lemma {:induction false} ObservationMeans(h: Hello, rs: seq<Record>, i: nat)
    requires i < |rs| && Means(rs, i, After(rs, i)) && IsObservation(rs, i)
    ensures ObservationFollows(h, After(rs, i), rs[i].time, rs[i].body.observation) <==> ObservationPlaced(h, rs, i)
  {
    var st, o := After(rs, i), rs[i].body.observation;
    TieMeans(rs, i, st);
    ListingMeans(rs, i, st, o.source);
    if o.scanId in st.scans {
      PriorObservationsMean(rs, i, st);
    }
  }

  lemma {:induction false} ScansNonempty(rs: seq<Record>, i: nat, st: Progress)
    requires ScansMean(rs, i, st)
    ensures st.scans != map[] <==> exists k :: 0 <= k < i && IsStart(rs, k)
  {
    if st.scans != map[] {
      var id :| id in st.scans;
      assert StartedAs(rs, i, id);
      var k :| 0 <= k < i && IsStart(rs, k) && rs[k].body.start.scanId == id;
      assert IsStart(rs, k);
    }
  }

  lemma {:induction false} CapabilitiesMean(rs: seq<Record>, i: nat, st: Progress)
    requires CapsMean(rs, i, st)
    ensures st.caps.Some? <==> exists k :: 0 <= k < i && IsCapabilities(rs, k)
    ensures st.caps.Some? && st.caps.value.nearbyScan.state == Available <==>
            exists k :: 0 <= k < i && IsCapabilities(rs, k) && rs[k].body.capabilities.nearbyScan.state == Available
  {
    if st.caps.Some? {
      var k :| 0 <= k < i && IsCapabilities(rs, k);
      assert IsCapabilities(rs, k);
    }
  }

  lemma {:induction false} ConsentMeans(rs: seq<Record>, i: nat, st: Progress, c: Complete)
    requires CapsMean(rs, i, st)
    ensures st.auth.Some? && ConsentGiven(st.auth.value, c) <==>
            exists k :: 0 <= k < i && IsAuthorization(rs, k) && ConsentGiven(rs[k].body.authorization, c)
  {
    if st.auth.Some? {
      var k :| 0 <= k < i && IsAuthorization(rs, k);
      assert IsAuthorization(rs, k);
    }
  }

  lemma {:induction false} TerminalMeans(h: Hello, rs: seq<Record>, i: nat, st: Progress)
    requires i < |rs| && IsComplete(rs, i)
    requires CapsMean(rs, i, st) && ScansMean(rs, i, st) && |st.observations| == ObservationCount(rs, i)
    ensures CompleteFollows(h, st, rs[i].body.complete) <==> TerminalHonest(h, rs, i)
  {
    var c := rs[i].body.complete;
    assert (st.observations != {}) == (|st.observations| > 0);
    CapabilitiesMean(rs, i, st);
    ScansNonempty(rs, i, st);
    ConsentMeans(rs, i, st, c);
  }

  lemma {:induction false} EndMeansNone(rs: seq<Record>, i: nat, st: Progress)
    requires i < |rs| && EndMeans(rs, i, st)
    ensures !st.ended <==> forall k | 0 <= k < i :: !IsComplete(rs, k)
    ensures st.previous <= rs[i].time <==> (i > 0 ==> rs[i - 1].time <= rs[i].time)
  {
  }

  lemma {:induction false} FirstCapabilities(rs: seq<Record>, i: nat, st: Progress)
    requires CapsMean(rs, i, st)
    ensures st.caps.None? <==> forall k | 0 <= k < i :: !IsCapabilities(rs, k)
  {
    if st.caps.Some? {
      var k :| 0 <= k < i && IsCapabilities(rs, k);
      assert IsCapabilities(rs, k);
    }
  }

  lemma {:induction false} ObservationIsClause(h: Hello, session: string, rs: seq<Record>, i: nat, st: Progress)
    requires i < |rs| && IsObservation(rs, i)
    requires ObservationFollows(h, st, rs[i].time, rs[i].body.observation) <==> ObservationPlaced(h, rs, i)
    ensures BodyAccepted(h, session, st, i, rs[i]) <==> BodyOk(h, session, rs, i)
  {
  }

  lemma {:induction false} TerminalIsClause(h: Hello, session: string, rs: seq<Record>, i: nat, st: Progress)
    requires i < |rs| && IsComplete(rs, i)
    requires CompleteFollows(h, st, rs[i].body.complete) <==> TerminalHonest(h, rs, i)
    ensures BodyAccepted(h, session, st, i, rs[i]) <==> BodyOk(h, session, rs, i)
  {
  }

  lemma {:induction false} CapabilitiesIsClause(h: Hello, session: string, rs: seq<Record>, i: nat, st: Progress)
    requires i < |rs| && IsCapabilities(rs, i)
    requires st.caps.None? <==> forall k | 0 <= k < i :: !IsCapabilities(rs, k)
    ensures BodyAccepted(h, session, st, i, rs[i]) <==> BodyOk(h, session, rs, i)
  {
  }

  lemma {:induction false} StartIsClause(h: Hello, session: string, rs: seq<Record>, i: nat, st: Progress)
    requires i < |rs| && IsStart(rs, i)
    requires BodyAccepted(h, session, st, i, rs[i]) <==> StartOkAt(h, rs, i)
    ensures BodyAccepted(h, session, st, i, rs[i]) <==> BodyOk(h, session, rs, i)
  {
  }

  lemma {:induction false} PlainIsClause(h: Hello, session: string, rs: seq<Record>, i: nat, st: Progress)
    requires i < |rs| && (rs[i].body.HelloBody? || IsAuthorization(rs, i))
    ensures BodyAccepted(h, session, st, i, rs[i]) <==> BodyOk(h, session, rs, i)
  {
  }

  lemma {:induction false} BodyIsClause(h: Hello, session: string, rs: seq<Record>, i: nat)
    requires i < |rs| && Means(rs, i, After(rs, i))
    ensures BodyAccepted(h, session, After(rs, i), i, rs[i]) <==> BodyOk(h, session, rs, i)
  {
    var st := After(rs, i);
    match rs[i].body
    case CapabilitiesBody(_) =>
      FirstCapabilities(rs, i, st);
      CapabilitiesIsClause(h, session, rs, i, st);
    case ObservationBody(_) =>
      ObservationMeans(h, rs, i);
      ObservationIsClause(h, session, rs, i, st);
    case CompleteBody(_) =>
      TerminalMeans(h, rs, i, st);
      TerminalIsClause(h, session, rs, i, st);
    case StartBody(_) =>
      StartMeans(h, session, rs, i);
      StartIsClause(h, session, rs, i, st);
    case _ => PlainIsClause(h, session, rs, i, st);
  }

  lemma {:induction false} AcceptanceIsClause(session: string, rs: seq<Record>, i: nat)
    requires StartsWithHello(rs) && i < |rs| && AcceptsPrefix(session, rs, i)
    ensures AcceptsAt(rs[0].body.hello, session, rs, i) <==> RecordOk(rs[0].body.hello, session, rs, i)
  {
    var h, st := rs[0].body.hello, After(rs, i);
    PrefixMeans(session, rs, i);
    MeaningIsClause(h, session, rs, i);
  }

  lemma {:induction false} MeaningIsClause(h: Hello, session: string, rs: seq<Record>, i: nat)
    requires i < |rs| && Means(rs, i, After(rs, i))
    ensures AcceptsAt(h, session, rs, i) <==> RecordOk(h, session, rs, i)
  {
    EndMeansNone(rs, i, After(rs, i));
    BodyIsClause(h, session, rs, i);
  }

  ghost predicate RecordsOk(session: string, rs: seq<Record>, n: nat)
    requires StartsWithHello(rs) && n <= |rs|
  {
    forall i | 0 <= i < n :: RecordOk(rs[0].body.hello, session, rs, i)
  }

  lemma {:induction false} AcceptanceIsClauses(session: string, rs: seq<Record>, n: nat)
    requires StartsWithHello(rs) && n <= |rs|
    ensures AcceptsPrefix(session, rs, n) <==> RecordsOk(session, rs, n)
  {
    if n > 0 {
      AcceptanceIsClauses(session, rs, n - 1);
      if AcceptsPrefix(session, rs, n - 1) {
        AcceptanceIsClause(session, rs, n - 1);
        assert RecordsOk(session, rs, n) <==> RecordsOk(session, rs, n - 1) && RecordOk(rs[0].body.hello, session, rs, n - 1);
      }
    }
  }

  // ----- From records to the whole trace -----

  lemma {:induction false} AdjacentMonotone(rs: seq<Record>, i: nat, j: nat)
    requires i <= j < |rs|
    requires forall k | 0 < k <= j :: rs[k - 1].time <= rs[k].time
    ensures rs[i].time <= rs[j].time
    decreases j
  {
    if i < j {
      AdjacentMonotone(rs, i, j - 1);
    }
  }

  lemma {:induction false} CountGrows(rs: seq<Record>, i: nat, n: nat)
    requires i <= n <= |rs|
    ensures ObservationCount(rs, i) <= ObservationCount(rs, n)
    ensures i < n && rs[i].body.ObservationBody? ==> ObservationCount(rs, i) + 1 <= ObservationCount(rs, n)
    decreases n
  {
    if i < n {
      CountGrows(rs, i, n - 1);
    }
  }

  lemma {:induction false} CountBounded(session: string, rs: seq<Record>, n: nat)
    requires StartsWithHello(rs) && n <= |rs| && RecordsOk(session, rs, n) && rs[0].body.hello.maxObservations > 0
    ensures ObservationCount(rs, n) <= rs[0].body.hello.maxObservations
  {
    if n > 0 {
      CountBounded(session, rs, n - 1);
      assert RecordOk(rs[0].body.hello, session, rs, n - 1);
    }
  }

  lemma {:induction false} RecordsGiveShape(session: string, rs: seq<Record>)
    requires StartsWithHello(rs) && RecordsOk(session, rs, |rs|) && (exists k :: IsComplete(rs, k))
    ensures HelloFirst(session, rs) && CompleteLast(rs) && ReceiptsMonotone(rs)
    ensures TerminalOk(rs[|rs| - 1].body.complete, rs[0].body.hello)
    ensures TerminalHonest(rs[0].body.hello, rs, |rs| - 1)
  {
    var h := rs[0].body.hello;
    var last := |rs| - 1;
    var k :| IsComplete(rs, k);
    assert RecordOk(h, session, rs, last);
    assert IsComplete(rs, last);
    assert RecordOk(h, session, rs, 0);
    forall i | 0 < i < |rs| ensures !rs[i].body.HelloBody? {
      assert RecordOk(h, session, rs, i);
    }
    forall i, j | 0 <= i <= j < |rs| ensures rs[i].time <= rs[j].time {
      forall k | 0 < k <= j ensures rs[k - 1].time <= rs[k].time {
        assert RecordOk(h, session, rs, k);
      }
      AdjacentMonotone(rs, i, j);
    }
  }

  lemma {:induction false} RecordsGiveScans(session: string, rs: seq<Record>)
    requires StartsWithHello(rs) && RecordsOk(session, rs, |rs|)
    ensures ScansPermitted(rs[0].body.hello, rs)
  {
    var h := rs[0].body.hello;
    forall i | IsStart(rs, i) ensures StartOkAt(h, rs, i) {
      assert RecordOk(h, session, rs, i);
    }
    forall i, j | IsStart(rs, i) && IsStart(rs, j) && rs[i].body.start.scanId == rs[j].body.start.scanId
      ensures i == j
    {
      assert StartOkAt(h, rs, i) && StartOkAt(h, rs, j);
    }
  }

  lemma {:induction false} RecordsGiveObservations(session: string, rs: seq<Record>)
    requires StartsWithHello(rs) && RecordsOk(session, rs, |rs|) && rs[0].body.hello.maxObservations > 0
    ensures ObservationsTied(rs[0].body.hello, session, rs) && OneCompletionPerScan(rs)
  {
    var h := rs[0].body.hello;
    forall i | IsObservation(rs, i)
      ensures ObservationPlaced(h, rs, i) && ObservationWellFormed(h, session, rs[i].body.observation)
    {
      assert RecordOk(h, session, rs, i);
    }
    forall i, j | IsObservation(rs, i) && IsObservation(rs, j)
      ensures rs[i].body.observation.observationId == rs[j].body.observation.observationId ==> i == j
      ensures rs[i].body.observation.scanId == rs[j].body.observation.scanId ==>
              rs[i].body.observation.windowEnd == rs[j].body.observation.windowEnd
    {
      assert ObservationPlaced(h, rs, i) && ObservationPlaced(h, rs, j);
    }
    CountBounded(session, rs, |rs|);
  }

  lemma {:induction false} RecordsGiveRest(session: string, rs: seq<Record>)
    requires StartsWithHello(rs) && RecordsOk(session, rs, |rs|)
    ensures CapabilitiesOnce(rs[0].body.hello, session, rs) && AuthorizationSecond(rs[0].body.hello, rs)
  {
    var h := rs[0].body.hello;
    forall i | IsCapabilities(rs, i)
      ensures h.command != Authorize && CapabilitiesOk(rs[i].body.capabilities, h, session)
    {
      assert RecordOk(h, session, rs, i);
    }
    forall i | IsAuthorization(rs, i)
      ensures i == 1 && h.command == Authorize && AuthorizationOk(rs[i].body.authorization)
    {
      assert RecordOk(h, session, rs, i);
    }
    forall i, j | IsCapabilities(rs, i) && IsCapabilities(rs, j) ensures i == j {
      assert RecordOk(h, session, rs, i) && RecordOk(h, session, rs, j);
    }
  }

  lemma {:induction false} TraceGivesRecord(session: string, rs: seq<Record>, i: nat)
    requires TraceOk(session, rs) && i < |rs|
    ensures RecordOk(rs[0].body.hello, session, rs, i)
  {
    var h := rs[0].body.hello;
    match rs[i].body {
      case HelloBody(_) =>
      case CapabilitiesBody(_) => assert IsCapabilities(rs, i);
      case AuthorizationBody(_) => assert IsAuthorization(rs, i);
      case StartBody(_) =>
        assert IsStart(rs, i);
        assert StartOkAt(h, rs, i);
      case ObservationBody(_) =>
        assert IsObservation(rs, i);
        CountGrows(rs, i, |rs|);
        assert ObservationPlaced(h, rs, i);
      case CompleteBody(_) => assert IsComplete(rs, i);
    }
  }

  /** The one-pass validator accepts a record sequence exactly when the whole-trace contract holds. */
  lemma {:induction false} ValidatorDecidesContract(session: string, rs: seq<Record>)
    ensures Accepted(session, rs) <==> TraceOk(session, rs)
  {
    if StartsWithHello(rs) {
      AcceptanceIsClauses(session, rs, |rs|);
      if Accepted(session, rs) {
        PrefixMeans(session, rs, |rs|);
        var k :| 0 <= k < |rs| && IsComplete(rs, k);
        RecordsGiveShape(session, rs);
        RecordsGiveRest(session, rs);
        RecordsGiveScans(session, rs);
        RecordsGiveObservations(session, rs);
      }
      if TraceOk(session, rs) {
        forall i | 0 <= i < |rs| ensures RecordOk(rs[0].body.hello, session, rs, i) {
          TraceGivesRecord(session, rs, i);
        }
        assert AcceptsPrefix(session, rs, |rs|);
        assert After(rs, |rs|).ended;
      }
    }
  }
}
