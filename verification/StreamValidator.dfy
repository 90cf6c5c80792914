/**
  The one-pass stream validator of the capture adapter, and the whole-trace
  contract it decides.
 */
module StreamValidator {
  import opened CollectorProtocol

  datatype ScanState = ScanState(source: string, started: u64, startReceipt: u64, completed: Option<u64>)

  datatype Progress = Progress(
    caps: Option<Capabilities>, auth: Option<Authorization>, sources: map<string, Listed>,
    scans: map<string, ScanState>, observations: set<string>, ended: bool, previous: u64)

  const FRESH: Progress := Progress(None, None, map[], map[], {}, false, 0)

  // ----- Checks of one record -----

  predicate TextOk(s: string) {
    && 0 < |s| <= 256
    && (exists c | c in s :: c != ' ')
    && (forall c | c in s :: ' ' <= c && c != '\U{7F}')
  }

  predicate UuidOk(s: string) {
    UuidShape(s) && exists c | c in s :: c != '0' && c != '-'
  }

  predicate HelloOk(h: Hello, session: string) {
    && h.collector == Fixed && h.clockEpoch == session
    && BuildHash(h.collectorBuild)
    && TextOk(h.collectorVersion) && TextOk(h.osVersion)
    && 1 <= h.maxObservations <= MAX_OBSERVATIONS
    && h.maxRecordBytes == MAX_RECORD_BYTES
    && 1 <= h.timeoutSeconds <= 60
  }

  predicate SourceOk(s: Source, h: Hello, session: string) {
    && s.collector == h.collector && s.collectorVersion == h.collectorVersion
    && s.collectorBuild == h.collectorBuild && s.osVersion == h.osVersion
    && s.sourceKind == Fixed && s.sourceSchema == Fixed && s.sourceApi == Fixed && s.identityScope == Fixed
    && InterfaceName(s.interfaceName) && s.sourceId == SourceId(session, s.interfaceName)
    && TextOk(s.frameworkVersion)
    && s.physicalRadioId == SourceDidNotProvide && s.driverVersion == SourceDidNotProvide
    && s.firmwareVersion == SourceDidNotProvide
  }

  predicate ScanAvailable(c: Capabilities) {
    c.locationServicesEnabled && c.permission == Authorized && exists e | e in c.sources :: e.powerOn
  }

  predicate DistinctSources(listed: seq<Listed>) {
    forall i, j | 0 <= i < j < |listed| :: listed[i].source.sourceId != listed[j].source.sourceId
  }

  predicate ListedOk(e: Listed, h: Hello, session: string) {
    SourceOk(e.source, h, session) && |e.bands| <= 256
  }

  predicate CapabilitiesOk(c: Capabilities, h: Hello, session: string) {
    && |c.sources| <= MAX_SOURCES
    && (forall e | e in c.sources :: ListedOk(e, h, session))
    && DistinctSources(c.sources)
    && OffersOk(c)
  }

  predicate OffersOk(c: Capabilities) {
    && c.nearbyScan.state == (if ScanAvailable(c) then Available else NotAvailable)
    && TextOk(c.nearbyScan.condition) && TextOk(c.noiseDbm.condition) && TextOk(c.channelWidth.condition)
    && c.noiseDbm.state == Conditional && c.channelWidth.state == Conditional && c.rawPayloadPolicy == Fixed
    && c.monitorFrames == NotSupportedByCollector && c.channelHopping == NotSupportedByCollector
    && c.channelDwell == SourceDidNotProvide && c.perChainSignal == SourceDidNotProvide
    && c.captureTimestamp == SourceDidNotProvide
    && c.phyMetadata == NotImplementedByCollector && c.position == NotCollected
  }

  predicate AuthorizationOk(a: Authorization) {
    && a.requestedByOperator
    && a.promptRequested == (a.locationServicesEnabled && a.state == NotDetermined)
  }

  predicate ChannelOk(e: E<Channel>) {
    e.Known? ==>
      var c := e.value;
      && (c.number.Known? ==> c.number.value > 0)
      && c.band.Value() == BandOf(c.rawBand)
      && c.width.Value() == WidthOf(c.rawWidth)
      && c.frequency == SourceDidNotProvide && c.centerFrequency == SourceDidNotProvide
      && c.puncturing == SourceDidNotProvide
  }

  predicate PowerOk(e: E<int>) { e.Known? ==> -200 <= e.value <= -1 }

  predicate MeasurementOk(o: Observation, h: Hello) {
    && o.evidenceClass == Fixed && o.calibration == Fixed && o.measurementMethod == Fixed && o.quality == Fixed
    && (o.bssid.Known? ==> HardwareAddress(o.bssid.value))
    && (o.ssid.Known? ==> NetworkName(o.ssid.value))
    && (h.policy == RedactedIdentifiers ==> o.bssid == Unknown(Redacted) && o.ssid == Unknown(Redacted))
    && PowerOk(o.rssi) && PowerOk(o.noise) && ChannelOk(o.channel)
    && o.resultAge == SourceDidNotProvide && o.dwell == SourceDidNotProvide
    && o.phy == NotImplementedByCollector && o.position == NotCollected
    && o.informationElements == NotRetainedByCollector
  }

  predicate CauseOk(c: Cause) { c.OtherCause? ==> TextOk(c.text) }

  predicate TerminalOk(c: Complete, h: Hello) {
    && CauseOk(c.reason)
    && (c.nativeErrorDomain.Some? ==> TextOk(c.nativeErrorDomain.value))
    && c.nativeErrorDomain.Some? == c.nativeErrorCode.Some?
    && (c.nativeErrorCode.None? || c.status == Error)
    && c.finalPermission.Some? == c.finalLocationServices.Some?
    && (c.finalPermission.None? || h.command == Authorize)
  }

  predicate ConsentGiven(a: Authorization, c: Complete) {
    && a.locationServicesEnabled && (a.state == Authorized || a.promptRequested)
    && c.reason == LocationAuthorized
    && c.finalPermission == Some(Authorized) && c.finalLocationServices == Some(true)
  }

  // ----- The pass as a fold -----

  /** What an observation must say whatever came before it. */
  predicate ObservationWellFormed(h: Hello, session: string, o: Observation) {
    && h.command == Scan && UuidOk(o.scanId) && UuidOk(o.observationId)
    && SourceOk(o.source, h, session) && MeasurementOk(o, h)
  }

  /** What an observation must say about the records before it. */
  predicate ObservationFollows(h: Hello, st: Progress, time: u64, o: Observation) {
    && o.observationId !in st.observations && |st.observations| + 1 <= h.maxObservations
    && o.scanId in st.scans
    && (var scan := st.scans[o.scanId];
        && scan.source == o.source.sourceId && scan.started == o.windowStart
        && o.windowStart <= o.windowEnd && scan.startReceipt <= o.windowEnd <= time
        && (scan.completed.None? || scan.completed.value == o.windowEnd))
    && o.source.sourceId in st.sources && st.sources[o.source.sourceId].source == o.source
  }

  predicate CompleteFollows(h: Hello, st: Progress, c: Complete) {
    && c.observationCount == |st.observations|
    && c.partial == (c.status != Ok && st.observations != {})
    && (c.status == Ok ==>
          match h.command
          case Probe => st.caps.Some?
          case Scan => st.scans != map[] && st.caps.Some? && st.caps.value.nearbyScan.state == Available
          case Authorize => st.auth.Some? && ConsentGiven(st.auth.value, c))
  }

  predicate Accepts(h: Hello, session: string, st: Progress, index: nat, r: Record) {
    !st.ended && st.previous <= r.time && BodyAccepted(h, session, st, index, r)
  }

  predicate BodyAccepted(h: Hello, session: string, st: Progress, index: nat, r: Record) {
    match r.body
    case HelloBody(x) => index == 0 && HelloOk(x, session)
    case CapabilitiesBody(c) => st.caps.None? && h.command != Authorize && CapabilitiesOk(c, h, session)
    case AuthorizationBody(a) => h.command == Authorize && index == 1 && AuthorizationOk(a)
    case StartBody(b) =>
      && h.command == Scan && st.caps.Some? && st.caps.value.nearbyScan.state == Available
      && UuidOk(b.scanId) && b.sourceId in st.sources && st.sources[b.sourceId].powerOn
      && !b.includeHidden && b.apiStarted <= r.time && b.scanId !in st.scans
    case ObservationBody(o) => ObservationWellFormed(h, session, o) && ObservationFollows(h, st, r.time, o)
    case CompleteBody(c) => TerminalOk(c, h) && CompleteFollows(h, st, c)
  }

  function SourceMap(listed: seq<Listed>): map<string, Listed> {
    if listed == [] then map[]
    else SourceMap(listed[..|listed| - 1])[listed[|listed| - 1].source.sourceId := listed[|listed| - 1]]
  }

  function Advance(st: Progress, r: Record): Progress {
    var st := st.(previous := r.time);
    match r.body
    case HelloBody(_) => st
    case CapabilitiesBody(c) => st.(caps := Some(c), sources := SourceMap(c.sources))
    case AuthorizationBody(a) => st.(auth := Some(a))
    case StartBody(b) => st.(scans := st.scans[b.scanId := ScanState(b.sourceId, b.apiStarted, r.time, None)])
    case ObservationBody(o) =>
      if o.scanId in st.scans then
        st.(scans := st.scans[o.scanId := st.scans[o.scanId].(completed := Some(o.windowEnd))],
            observations := st.observations + {o.observationId})
      else st
    case CompleteBody(_) => st.(ended := true)
  }

  /** The state after the first `n` records, and whether all of them were accepted. */
  function After(rs: seq<Record>, n: nat): Progress
    requires n <= |rs|
  {
    if n == 0 then FRESH else Advance(After(rs, n - 1), rs[n - 1])
  }

  predicate AcceptsAt(h: Hello, session: string, rs: seq<Record>, i: nat)
    requires i < |rs|
  {
    Accepts(h, session, After(rs, i), i, rs[i])
  }

  predicate StartsWithHello(rs: seq<Record>) { |rs| > 0 && rs[0].body.HelloBody? }

  predicate AcceptsPrefix(session: string, rs: seq<Record>, n: nat)
    requires StartsWithHello(rs) && n <= |rs|
  {
    forall i | 0 <= i < n :: AcceptsAt(rs[0].body.hello, session, rs, i)
  }

  predicate Accepted(session: string, rs: seq<Record>) {
    StartsWithHello(rs) && AcceptsPrefix(session, rs, |rs|) && After(rs, |rs|).ended
  }

  // ----- The imperative pass -----

  method ListSources(listed: seq<Listed>, h: Hello, session: string)
    returns (ok: bool, sources: map<string, Listed>)
    ensures ok <==> DistinctSources(listed) && forall e | e in listed :: ListedOk(e, h, session)
    ensures ok ==> sources == SourceMap(listed)
  {
    sources := map[];
    for i := 0 to |listed|
      invariant DistinctSources(listed[..i])
      invariant forall e | e in listed[..i] :: ListedOk(e, h, session)
      invariant sources == SourceMap(listed[..i])
      invariant forall id :: id in sources <==> exists k | 0 <= k < i :: listed[k].source.sourceId == id
    {
      assert listed[i] in listed;
      assert listed[..i + 1][..i] == listed[..i];
      if !SourceOk(listed[i].source, h, session) { return false, sources; }
      if listed[i].source.sourceId in sources { return false, sources; }
      if |listed[i].bands| > 256 { return false, sources; }
      sources := sources[listed[i].source.sourceId := listed[i]];
    }
    assert listed[..|listed|] == listed;
    return true, sources;
  }

  /** The checks of the terminal record against everything before it. */
  method TerminalBad(h: Hello, st: Progress, c: Complete) returns (bad: bool)
    ensures bad <==> !(TerminalOk(c, h) && CompleteFollows(h, st, c))
  {
    if !(|st.observations| == c.observationCount && c.partial == (c.status != Ok && st.observations != {})) {
      return true;
    }
    if !TerminalOk(c, h) { return true; }
    if c.status != Ok { return false; }
    match h.command {
      case Probe => bad := st.caps.None?;
      case Scan => bad := st.scans == map[] || st.caps.None? || st.caps.value.nearbyScan.state != Available;
      case Authorize => bad := st.auth.None? || !ConsentGiven(st.auth.value, c);
    }
  }

  method Validate(session: string, rs: seq<Record>) returns (ok: bool)
    ensures ok <==> Accepted(session, rs)
  {
    if !(|rs| > 0 && rs[0].body.HelloBody?) { return false; }
    var h := rs[0].body.hello;
    var caps: Option<Capabilities> := None;
    var auth: Option<Authorization> := None;
    var sources: map<string, Listed> := map[];
    var scans: map<string, ScanState> := map[];
    var observations: set<string> := {};
    var ended := false;
    var previous: u64 := 0;
    for i := 0 to |rs|
      invariant AcceptsPrefix(session, rs, i)
      invariant After(rs, i) == Progress(caps, auth, sources, scans, observations, ended, previous)
    {
      var r := rs[i];
      ghost var st := After(rs, i);
      assert AcceptsAt(h, session, rs, i) <==> Accepts(h, session, st, i, r);
      var bad := false;
      if ended || r.time < previous { return false; }
      match r.body {
        case HelloBody(x) =>
          bad := !(i == 0 && HelloOk(x, session));
        case CapabilitiesBody(c) =>
          if caps.Some? || h.command == Authorize || |c.sources| > MAX_SOURCES { return false; }
          var listedOk, listing := ListSources(c.sources, h, session);
          if !listedOk || !OffersOk(c) { return false; }
          caps, sources := Some(c), listing;
        case AuthorizationBody(a) =>
          bad := !(h.command == Authorize && i == 1 && AuthorizationOk(a));
          auth := Some(a);
        case StartBody(b) =>
          if !(h.command == Scan && caps.Some? && caps.value.nearbyScan.state == Available) { return false; }
          if !UuidOk(b.scanId) { return false; }
          if !(b.sourceId in sources && sources[b.sourceId].powerOn) { return false; }
          bad := b.includeHidden || b.apiStarted > r.time || b.scanId in scans;
          scans := scans[b.scanId := ScanState(b.sourceId, b.apiStarted, r.time, None)];
        case ObservationBody(o) =>
          if !(h.command == Scan && UuidOk(o.scanId) && UuidOk(o.observationId)) { return false; }
          if o.observationId in observations { return false; }
          observations := observations + {o.observationId};
          if |observations| > h.maxObservations { return false; }
          if !SourceOk(o.source, h, session) || o.scanId !in scans { return false; }
          var scan := scans[o.scanId];
          if !(&& scan.source == o.source.sourceId && scan.started == o.windowStart
               && o.windowStart <= o.windowEnd && scan.startReceipt <= o.windowEnd <= r.time
               && (scan.completed.None? || scan.completed.value == o.windowEnd)) { return false; }
          scans := scans[o.scanId := scan.(completed := Some(o.windowEnd))];
          if !(o.source.sourceId in sources && sources[o.source.sourceId].source == o.source) { return false; }
          bad := !MeasurementOk(o, h);
        case CompleteBody(c) =>
          bad := TerminalBad(h, Progress(caps, auth, sources, scans, observations, ended, previous), c);
          ended := true;
      }
      if bad { return false; }
      previous := r.time;
      assert AcceptsAt(h, session, rs, i);
      assert After(rs, i + 1) == Advance(st, r);
    }
    return ended;
  }
}
