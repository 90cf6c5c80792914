/**
  The defensive stream decoder of the collector package, and its relation to the
  capture adapter's validator: it accepts everything the validator accepts.
 */
module StreamDecoder {
  import opened CollectorProtocol
  import V = StreamValidator

  datatype Decoding = Decoding(
    hello: Option<Hello>, previousTime: u64, capabilities: Option<Capabilities>, sources: map<string, Listed>,
    scans: map<string, (string, u64)>, observations: set<string>, complete: bool,
    authorization: Option<Authorization>)

  const FRESH: Decoding := Decoding(None, 0, None, map[], map[], {}, false, None)

  // ----- Checks of one event; a missing value may carry any unknown reason -----

  predicate TextOk(s: string) { 0 < |s| <= 256 }

  predicate HelloOk(h: Hello, session: string) {
    && h.collector == Fixed
    && TextOk(h.collectorVersion) && TextOk(h.osVersion)
    && BuildHash(h.collectorBuild)
    && 1 <= h.maxObservations <= MAX_OBSERVATIONS
    && h.maxRecordBytes == MAX_RECORD_BYTES
    && 1 <= h.timeoutSeconds <= 60
    && h.clockEpoch == session
  }

  predicate SourceOk(s: Source, session: string, h: Hello) {
    && s.collector == h.collector && s.collectorVersion == h.collectorVersion
    && s.collectorBuild == h.collectorBuild && s.osVersion == h.osVersion
    && s.sourceKind == Fixed && s.sourceSchema == Fixed && s.sourceApi == Fixed && s.identityScope == Fixed
    && InterfaceName(s.interfaceName) && s.sourceId == SourceId(session, s.interfaceName)
    && TextOk(s.frameworkVersion)
  }

  predicate EntryOk(e: Listed, session: string, h: Hello) {
    SourceOk(e.source, session, h) && |e.bands| <= 256
  }

  predicate Scanning(c: Option<Capabilities>) {
    c.Some? && c.value.nearbyScan.state == Available
  }

  predicate OffersOk(c: Capabilities) {
    && c.rawPayloadPolicy == Fixed
    && (c.nearbyScan.state == Available || c.nearbyScan.state == NotAvailable) && TextOk(c.nearbyScan.condition)
    && c.nearbyScan.state == (if V.ScanAvailable(c) then Available else NotAvailable)
    && c.noiseDbm.state == Conditional && TextOk(c.noiseDbm.condition)
    && c.channelWidth.state == Conditional && TextOk(c.channelWidth.condition)
  }

  predicate ChannelOk(e: E<Channel>) {
    e.Known? ==>
      var c := e.value;
      && (c.number.Known? ==> 1 <= c.number.value)
      && (c.band.Known? ==> c.band.value in {Band24, Band5, Band6})
      && (c.width.Known? ==> c.width.value in {20, 40, 80, 160})
      && c.band.Value() == BandOf(c.rawBand)
      && c.width.Value() == WidthOf(c.rawWidth)
  }

  predicate PowerOk(e: E<int>) { e.Known? ==> -200 <= e.value <= -1 }

  predicate MeasurementOk(o: Observation, h: Hello) {
    && o.evidenceClass == Fixed
    && (o.bssid.Known? ==> HardwareAddress(o.bssid.value))
    && (o.ssid.Known? ==> NetworkName(o.ssid.value))
    && (h.policy == RedactedIdentifiers ==>
          o.bssid.Unknown? && o.ssid.Unknown? && o.bssid.reason == Redacted && o.ssid.reason == Redacted)
    && ChannelOk(o.channel) && PowerOk(o.rssi) && PowerOk(o.noise)
    && o.measurementMethod == Fixed && o.calibration == Fixed && o.quality == Fixed
  }

  predicate CauseOk(c: Cause) { c.OtherCause? ==> TextOk(c.text) }

  predicate ConsentRecorded(a: Authorization, c: Complete) {
    && a.locationServicesEnabled && c.reason == LocationAuthorized
    && (a.state == Authorized || a.promptRequested)
    && c.finalPermission == Some(Authorized) && c.finalLocationServices == Some(true)
  }

  // ----- The pass as a fold -----

  predicate ObservationFollows(h: Hello, st: Decoding, time: u64, o: Observation) {
    && o.scanId in st.scans
    && o.observationId !in st.observations && |st.observations| + 1 <= h.maxObservations
    && o.source.sourceId == st.scans[o.scanId].0
    && o.windowStart == st.scans[o.scanId].1 && o.windowStart <= o.windowEnd <= time
  }

  predicate CompleteFollows(h: Hello, st: Decoding, c: Complete) {
    && c.observationCount == |st.observations|
    && c.partial == (c.status != Ok && |st.observations| > 0)
    && (c.status == Ok ==>
          && (st.capabilities.Some? || h.command == Authorize)
          && (h.command == Scan ==> st.scans != map[] && Scanning(st.capabilities))
          && (h.command == Authorize ==> st.authorization.Some? && ConsentRecorded(st.authorization.value, c)))
  }

  predicate Accepts(session: string, st: Decoding, index: nat, r: Record) {
    && st.previousTime <= r.time && !st.complete
    && if r.body.HelloBody? then
         index == 0 && st.hello.None? && HelloOk(r.body.hello, session)
       else
         st.hello.Some? && AcceptsAfterHello(st.hello.value, session, st, index, r)
  }

  predicate AcceptsAfterHello(h: Hello, session: string, st: Decoding, index: nat, r: Record)
    requires !r.body.HelloBody?
  {
    match r.body
    case CapabilitiesBody(c) =>
      && st.capabilities.None? && h.command != Authorize && |c.sources| <= MAX_SOURCES
      && (forall e | e in c.sources :: EntryOk(e, session, h)) && V.DistinctSources(c.sources)
      && OffersOk(c)
    case AuthorizationBody(a) =>
      && h.command == Authorize && index == 1 && a.requestedByOperator
      && a.promptRequested == (a.locationServicesEnabled && a.state == NotDetermined)
    case StartBody(b) =>
      && h.command == Scan && Scanning(st.capabilities) && UuidShape(b.scanId)
      && b.scanId !in st.scans && b.sourceId in st.sources && st.sources[b.sourceId].powerOn
      && b.apiStarted <= r.time && !b.includeHidden
    case ObservationBody(o) =>
      && h.command == Scan && Scanning(st.capabilities) && UuidShape(o.scanId) && UuidShape(o.observationId)
      && SourceOk(o.source, session, h) && MeasurementOk(o, h)
      && ObservationFollows(h, st, r.time, o)
    case CompleteBody(c) => CauseOk(c.reason) && CompleteFollows(h, st, c)
  }

  function Advance(st: Decoding, r: Record): Decoding {
    var st := st.(previousTime := r.time);
    match r.body
    case HelloBody(h) => st.(hello := Some(h))
    case CapabilitiesBody(c) => st.(capabilities := Some(c), sources := V.SourceMap(c.sources))
    case AuthorizationBody(a) => st.(authorization := Some(a))
    case StartBody(b) => st.(scans := st.scans[b.scanId := (b.sourceId, b.apiStarted)])
    case ObservationBody(o) => st.(observations := st.observations + {o.observationId})
    case CompleteBody(_) => st.(complete := true)
  }

  function After(rs: seq<Record>, n: nat): Decoding
    requires n <= |rs|
  {
    if n == 0 then FRESH else Advance(After(rs, n - 1), rs[n - 1])
  }

  predicate AcceptsAt(session: string, rs: seq<Record>, i: nat)
    requires i < |rs|
  {
    Accepts(session, After(rs, i), i, rs[i])
  }

  predicate Accepted(session: string, rs: seq<Record>) {
    && 2 <= |rs| <= MAX_RECORDS
    && (forall i | 0 <= i < |rs| :: AcceptsAt(session, rs, i))
    && After(rs, |rs|).complete
  }

  // ----- The imperative pass -----

  method ListEntries(entries: seq<Listed>, session: string, h: Hello) returns (ok: bool, sources: map<string, Listed>)
    ensures ok <==> V.DistinctSources(entries) && forall e | e in entries :: EntryOk(e, session, h)
    ensures ok ==> sources == V.SourceMap(entries)
  {
    sources := map[];
    var i := 0;
    while i < |entries|
      invariant 0 <= i <= |entries|
      invariant V.DistinctSources(entries[..i])
      invariant forall e | e in entries[..i] :: EntryOk(e, session, h)
      invariant sources == V.SourceMap(entries[..i])
      invariant forall id :: id in sources <==> exists k | 0 <= k < i :: entries[k].source.sourceId == id
    {
      assert entries[i] in entries;
      assert entries[..i + 1][..i] == entries[..i];
      if !EntryOk(entries[i], session, h) || entries[i].source.sourceId in sources { return false, sources; }
      sources := sources[entries[i].source.sourceId := entries[i]];
      i := i + 1;
    }
    assert entries[..|entries|] == entries;
    return true, sources;
  }

  method CheckTerminal(h: Hello, st: Decoding, c: Complete) returns (ok: bool)
    ensures ok <==> CauseOk(c.reason) && CompleteFollows(h, st, c)
  {
    if !CauseOk(c.reason) || c.observationCount != |st.observations| { return false; }
    if c.partial != (c.status != Ok && |st.observations| > 0) { return false; }
    if c.status == Ok {
      if !(st.capabilities.Some? || h.command == Authorize) { return false; }
      if h.command == Scan && !(st.scans != map[] && Scanning(st.capabilities)) { return false; }
      if h.command == Authorize && !(st.authorization.Some? && ConsentRecorded(st.authorization.value, c)) {
        return false;
      }
    }
    return true;
  }

  method CheckObservation(h: Hello, session: string, st: Decoding, time: u64, o: Observation) returns (ok: bool)
    ensures ok <==>
      && h.command == Scan && Scanning(st.capabilities) && UuidShape(o.scanId) && UuidShape(o.observationId)
      && SourceOk(o.source, session, h) && MeasurementOk(o, h)
      && ObservationFollows(h, st, time, o)
  {
    if !(h.command == Scan && Scanning(st.capabilities) && UuidShape(o.scanId)) { return false; }
    if o.scanId !in st.scans || !UuidShape(o.observationId) || o.observationId in st.observations { return false; }
    var observations := st.observations + {o.observationId};
    if |observations| > h.maxObservations || !SourceOk(o.source, session, h) { return false; }
    if o.source.sourceId != st.scans[o.scanId].0 { return false; }
    if !(o.windowStart == st.scans[o.scanId].1 && o.windowStart <= o.windowEnd <= time) { return false; }
    return MeasurementOk(o, h);
  }

  /** The record dispatch after the hello. */
  method DecodeBody(h: Hello, session: string, st: Decoding, i: nat, r: Record) returns (ok: bool, st': Decoding)
    requires !r.body.HelloBody?
    ensures ok <==> AcceptsAfterHello(h, session, st, i, r)
    ensures ok ==> st' == Advance(st, r)
  {
    st' := st.(previousTime := r.time);
    match r.body {
      case CapabilitiesBody(c) =>
        if !(st.capabilities.None? && h.command != Authorize && |c.sources| <= MAX_SOURCES) { return false, st'; }
        var entriesOk, listing := ListEntries(c.sources, session, h);
        if !entriesOk || !OffersOk(c) { return false, st'; }
        st' := st'.(capabilities := Some(c), sources := listing);
      case AuthorizationBody(a) =>
        if !(h.command == Authorize && i == 1) { return false, st'; }
        if !(a.requestedByOperator
             && a.promptRequested == (a.locationServicesEnabled && a.state == NotDetermined)) { return false, st'; }
        st' := st'.(authorization := Some(a));
      case StartBody(b) =>
        if !(h.command == Scan && Scanning(st.capabilities) && UuidShape(b.scanId)) { return false, st'; }
        if !(b.scanId !in st.scans && b.sourceId in st.sources && st.sources[b.sourceId].powerOn) { return false, st'; }
        if !(b.apiStarted <= r.time && !b.includeHidden) { return false, st'; }
        st' := st'.(scans := st.scans[b.scanId := (b.sourceId, b.apiStarted)]);
      case ObservationBody(o) =>
        ok := CheckObservation(h, session, st, r.time, o);
        if !ok { return; }
        st' := st'.(observations := st.observations + {o.observationId});
      case CompleteBody(c) =>
        ok := CheckTerminal(h, st, c);
        if !ok { return; }
        st' := st'.(complete := true);
    }
    ok := true;
  }

  method DecodeStream(session: string, rs: seq<Record>) returns (ok: bool)
    ensures ok <==> Accepted(session, rs)
  {
    if !(2 <= |rs| <= MAX_RECORDS) { return false; }
    var st := FRESH;
    for i := 0 to |rs|
      invariant forall k | 0 <= k < i :: AcceptsAt(session, rs, k)
      invariant After(rs, i) == st
    {
      var r := rs[i];
      assert AcceptsAt(session, rs, i) <==> Accepts(session, st, i, r);
      if r.time < st.previousTime || st.complete { return false; }
      if r.body.HelloBody? {
        if !(i == 0 && st.hello.None? && HelloOk(r.body.hello, session)) { return false; }
        st := st.(previousTime := r.time, hello := Some(r.body.hello));
      } else {
        if st.hello.None? { return false; }
        var bodyOk, next := DecodeBody(st.hello.value, session, st, i, r);
        if !bodyOk { return false; }
        st := next;
      }
      assert After(rs, i + 1) == Advance(After(rs, i), r);
    }
    return st.complete;
  }

  // ----- Permission precedes observation -----

  /** Record `k` started this scan, of this source and at this reading. */
  ghost predicate StartedAs(rs: seq<Record>, n: int, id: string, scan: (string, u64)) {
    exists k :: 0 <= k < n && k < |rs| && rs[k].body.StartBody? && rs[k].body.start.scanId == id
                && rs[k].body.start.sourceId == scan.0 && rs[k].body.start.apiStarted == scan.1
  }

  ghost predicate ListedAs(rs: seq<Record>, n: int, c: Capabilities) {
    exists k :: 0 <= k < n && k < |rs| && rs[k].body == CapabilitiesBody(c)
  }

  /** What the decoder remembers was said by earlier records. */
  ghost predicate Remembers(rs: seq<Record>, n: int, st: Decoding) {
    && (forall id | id in st.scans :: StartedAs(rs, n, id, st.scans[id]))
    && (st.capabilities.Some? ==> ListedAs(rs, n, st.capabilities.value))
  }

  lemma {:induction false} RemembersStep(rs: seq<Record>, n: nat, st: Decoding)
    requires n < |rs| && Remembers(rs, n, st)
    ensures Remembers(rs, n + 1, Advance(st, rs[n]))
  {
    var st' := Advance(st, rs[n]);
    forall id | id in st'.scans ensures StartedAs(rs, n + 1, id, st'.scans[id]) {
      if rs[n].body.StartBody? && id == rs[n].body.start.scanId {
        assert rs[n].body.start.scanId == id;
      } else {
        assert StartedAs(rs, n, id, st.scans[id]);
      }
    }
    if st'.capabilities.Some? {
      if rs[n].body.CapabilitiesBody? {
        assert rs[n].body == CapabilitiesBody(st'.capabilities.value);
      } else {
        assert ListedAs(rs, n, st.capabilities.value);
      }
    }
  }

  lemma {:induction false} RemembersAll(rs: seq<Record>, n: nat)
    requires n <= |rs|
    ensures Remembers(rs, n, After(rs, n))
  {
    if n > 0 {
      RemembersAll(rs, n - 1);
      RemembersStep(rs, n - 1, After(rs, n - 1));
    }
  }

  /** A decoded observation follows a listing that offered scanning and a start of its own scan, source and window. */
  lemma {:induction false} DecodedObservationPermitted(session: string, rs: seq<Record>, i: nat)
    requires Accepted(session, rs) && i < |rs| && rs[i].body.ObservationBody?
    ensures
      var o := rs[i].body.observation;
      && StartedAs(rs, i, o.scanId, (o.source.sourceId, o.windowStart))
      && exists c :: ListedAs(rs, i, c) && c.nearbyScan.state == Available
  {
    RemembersAll(rs, i);
    assert AcceptsAt(session, rs, i);
    var st := After(rs, i);
    assert ListedAs(rs, i, st.capabilities.value);
  }

  // ----- The validator's acceptance implies this decoder's -----

  ghost predicate Simulates(h: Hello, i: nat, st: V.Progress, d: Decoding) {
    && (if i == 0 then d.hello.None? else d.hello == Some(h))
    && d.previousTime == st.previous && d.capabilities == st.caps && d.sources == st.sources
    && d.observations == st.observations && d.complete == st.ended && d.authorization == st.auth
    && d.scans.Keys == st.scans.Keys
    && (forall id | id in d.scans :: d.scans[id] == (st.scans[id].source, st.scans[id].started))
    // A started scan is the validator's only trace of the permission it was started under.
    && (st.scans != map[] ==> Scanning(st.caps))
  }

  lemma SameFields(h: Hello, session: string)
    ensures V.HelloOk(h, session) ==> HelloOk(h, session)
    ensures forall s {:trigger SourceOk(s, session, h)} :: V.SourceOk(s, h, session) ==> SourceOk(s, session, h)
    ensures forall o {:trigger MeasurementOk(o, h)} :: V.MeasurementOk(o, h) ==> MeasurementOk(o, h)
  {
  }

  lemma SameCapabilities(c: Capabilities, h: Hello, session: string)
    requires V.CapabilitiesOk(c, h, session)
    ensures (forall e | e in c.sources :: EntryOk(e, session, h)) && OffersOk(c)
  {
    forall e | e in c.sources ensures EntryOk(e, session, h) {
      assert V.ListedOk(e, h, session);
      SameFields(h, session);
    }
  }

  lemma {:induction false} AdvanceSimulates(h: Hello, st: V.Progress, d: Decoding, i: nat, r: Record)
    requires Simulates(h, i, st, d)
    requires i == 0 <==> r.body.HelloBody?
    requires i == 0 ==> r.body.hello == h
    requires r.body.CapabilitiesBody? ==> st.caps.None?
    requires r.body.StartBody? ==> Scanning(st.caps)
    requires r.body.ObservationBody? ==> r.body.observation.scanId in st.scans
    ensures Simulates(h, i + 1, V.Advance(st, r), Advance(d, r))
  {
  }

  lemma {:induction false} ObservationSimulates(h: Hello, st: V.Progress, d: Decoding, i: nat, time: u64, o: Observation)
    requires Simulates(h, i, st, d) && V.ObservationFollows(h, st, time, o)
    ensures Scanning(d.capabilities) && ObservationFollows(h, d, time, o)
  {
    assert o.scanId in st.scans.Keys;
  }

  lemma {:induction false} CompleteSimulates(h: Hello, st: V.Progress, d: Decoding, i: nat, c: Complete)
    requires Simulates(h, i, st, d) && V.CompleteFollows(h, st, c)
    ensures CompleteFollows(h, d, c)
  {
    assert d.scans == map[] <==> d.scans.Keys == {};
    assert st.scans == map[] <==> st.scans.Keys == {};
  }

  lemma {:induction false} StepSimulates(h: Hello, session: string, st: V.Progress, d: Decoding, i: nat, r: Record)
    requires Simulates(h, i, st, d) && V.Accepts(h, session, st, i, r)
    requires i == 0 <==> r.body.HelloBody?
    requires i == 0 ==> r.body.hello == h
    ensures Accepts(session, d, i, r)
  {
    match r.body {
      case HelloBody(_) => SameFields(h, session);
      case CapabilitiesBody(c) => SameCapabilities(c, h, session);
      case AuthorizationBody(_) =>
      case StartBody(_) =>
      case ObservationBody(o) =>
        SameFields(h, session);
        ObservationSimulates(h, st, d, i, r.time, o);
      case CompleteBody(c) => CompleteSimulates(h, st, d, i, c);
    }
  }

  lemma {:induction false} PrefixSimulates(session: string, rs: seq<Record>, n: nat)
    requires V.StartsWithHello(rs) && n <= |rs| && V.AcceptsPrefix(session, rs, n)
    ensures Simulates(rs[0].body.hello, n, V.After(rs, n), After(rs, n))
    ensures forall i | 0 <= i < n :: AcceptsAt(session, rs, i)
  {
    if n > 0 {
      PrefixSimulates(session, rs, n - 1);
      assert V.AcceptsAt(rs[0].body.hello, session, rs, n - 1);
      StepSimulates(rs[0].body.hello, session, V.After(rs, n - 1), After(rs, n - 1), n - 1, rs[n - 1]);
      AdvanceSimulates(rs[0].body.hello, V.After(rs, n - 1), After(rs, n - 1), n - 1, rs[n - 1]);
    }
  }

  /** Every stream of bounded length the validator accepts is accepted here too. */
  lemma {:induction false} ValidatedStreamDecodes(session: string, rs: seq<Record>)
    requires V.Accepted(session, rs) && |rs| <= MAX_RECORDS
    ensures Accepted(session, rs)
  {
    PrefixSimulates(session, rs, |rs|);
    assert V.After(rs, 1) == V.Advance(V.After(rs, 0), rs[0]);
  }
}
