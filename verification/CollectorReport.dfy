/** What the records of a collector stream say about what the process was given. */
module CollectorReport {
  import opened CollectorProtocol
  import opened CollectorProcess
  import V = StreamValidator
  import T = TraceContract

  // ----- One observation and its network -----

  ghost predicate PowerSays(value: int, e: E<int>) {
    if -200 <= value < 0 then e == Known(value) else e == Unknown(InvalidOrUnavailableSourceValue)
  }

  ghost predicate BandSays(raw: u16, e: E<Band>) {
    && (raw == 1 ==> e == Known(Band24)) && (raw == 2 ==> e == Known(Band5)) && (raw == 3 ==> e == Known(Band6))
    && (raw !in {1, 2, 3} ==> e == Unknown(UnsupportedSourceEnum))
  }

  ghost predicate WidthSays(raw: u16, e: E<u16>) {
    && (raw == 1 ==> e == Known(20)) && (raw == 2 ==> e == Known(40)) && (raw == 3 ==> e == Known(80))
    && (raw == 4 ==> e == Known(160)) && (raw !in {1, 2, 3, 4} ==> e == Unknown(UnsupportedSourceEnum))
  }

  ghost predicate ChannelSays(raw: Option<RawChannel>, e: E<Channel>) {
    if raw.None? then e == Unknown(SourceDidNotProvide)
    else
      && e.Known? && e.value.rawBand == raw.value.band && e.value.rawWidth == raw.value.width
      && e.value.number == (if raw.value.number == 0 then Unknown(SourceDidNotProvide) else Known(raw.value.number))
      && BandSays(raw.value.band, e.value.band) && WidthSays(raw.value.width, e.value.width)
      && e.value.frequency == e.value.centerFrequency == e.value.puncturing == SourceDidNotProvide
  }

  /** Identifiers are told only when asked for; an address must be one of a single station. */
  ghost predicate AddressSays(included: bool, given: Option<seq<u8>>, e: E<seq<u8>>) {
    if !included then e == Unknown(Redacted)
    else if given.None? then e == Unknown(SourceDidNotProvide)
    else if |given.value| == 6 && given.value[0] % 2 == 0 && given.value != [0, 0, 0, 0, 0, 0] then e == Known(given.value)
    else e == Unknown(InvalidOrUnavailableSourceValue)
  }

  ghost predicate NameSays(included: bool, given: Option<seq<u8>>, e: E<seq<u8>>) {
    if !included then e == Unknown(Redacted)
    else if given.Some? && 0 < |given.value| < 33 then e == Known(given.value)
    else e == Unknown(SourceDidNotProvide)
  }

  ghost predicate SourceSays(cfg: Config, name: string, source: Source) {
    && source.sourceId == cfg.session + ":" + name && source.interfaceName == name
    && source.physicalRadioId == source.driverVersion == source.firmwareVersion == SourceDidNotProvide
    && source.collectorVersion == cfg.collectorVersion && source.collectorBuild == cfg.collectorBuild
    && source.frameworkVersion == cfg.frameworkVersion && source.osVersion == cfg.osVersion
    && source.identityScope == source.collector == source.sourceKind == source.sourceApi == source.sourceSchema == Fixed
  }

  /** The observation tells what the scan, given as the moment it returned, said of the network. */
  ghost predicate Says(cfg: Config, scan: Pc, n: Network, o: Observation)
    requires scan.Reporting?
  {
    && o.scanId == scan.scanId && o.windowStart == scan.begin && o.windowEnd == scan.end
    && scan.k < |Chosen(cfg)| && Chosen(cfg)[scan.k].name.Some? && SourceSays(cfg, Chosen(cfg)[scan.k].name.value, o.source)
    && PowerSays(n.rssi, o.rssi) && PowerSays(n.noise, o.noise) && ChannelSays(n.channel, o.channel)
    && AddressSays(cfg.includeIdentifiers, n.bssid, o.bssid) && NameSays(cfg.includeIdentifiers, n.ssid, o.ssid)
    && o.evidenceClass == o.measurementMethod == o.calibration == o.quality == Fixed
    && o.resultAge == o.dwell == SourceDidNotProvide && o.phy == NotImplementedByCollector
    && o.position == NotCollected && o.informationElements == NotRetainedByCollector
  }

  lemma {:induction false} AddressIs(octets: seq<u8>)
    ensures HardwareAddress(octets) <==> |octets| == 6 && octets[0] % 2 == 0 && octets != [0, 0, 0, 0, 0, 0]
  {
    if |octets| == 6 && octets != [0, 0, 0, 0, 0, 0] {
      assert exists i | 0 <= i < 6 :: octets[i] != 0;
    }
  }

  lemma {:induction false} ObservationSays(cfg: Config, scan: Pc, id: string, n: Network)
    requires scan.Reporting? && scan.k < |Chosen(cfg)|
    ensures Says(cfg, scan, n, ObservationOf(cfg, id, scan.scanId, NameAt(cfg, scan.k), scan.begin, scan.end, n))
  {
    assert Chosen(cfg)[scan.k] in Chosen(cfg);
    if n.bssid.Some? {
      AddressIs(n.bssid.value);
    }
  }

  // ----- The observations of one scan -----

  ghost function ObservationsOf(rs: seq<Record>, id: string): seq<Observation> {
    if rs == [] then []
    else
      var body := rs[|rs| - 1].body;
      ObservationsOf(rs[..|rs| - 1], id)
      + if body.ObservationBody? && body.observation.scanId == id then [body.observation] else []
  }

  lemma {:induction false} ObservationsAppend(rs: seq<Record>, r: Record, id: string)
    ensures ObservationsOf(rs + [r], id) ==
            ObservationsOf(rs, id)
            + if r.body.ObservationBody? && r.body.observation.scanId == id then [r.body.observation] else []
  {
    assert (rs + [r])[..|rs|] == rs;
  }

  ghost predicate Started(rs: seq<Record>, id: string) { exists k :: T.IsStart(rs, k) && rs[k].body.start.scanId == id }

  ghost predicate ObservationStarted(rs: seq<Record>, k: int) {
    T.IsObservation(rs, k) ==> Started(rs, rs[k].body.observation.scanId)
  }

  ghost predicate AllStarted(rs: seq<Record>) { forall k {:trigger ObservationStarted(rs, k)} :: ObservationStarted(rs, k) }

  lemma {:induction false} StartedStays(rs: seq<Record>, r: Record, id: string)
    ensures Started(rs, id) ==> Started(rs + [r], id)
    ensures r.body.StartBody? && r.body.start.scanId == id ==> Started(rs + [r], id)
    ensures Started(rs + [r], id) ==> Started(rs, id) || (r.body.StartBody? && r.body.start.scanId == id)
  {
    var more := rs + [r];
    if Started(rs, id) {
      var k :| T.IsStart(rs, k) && rs[k].body.start.scanId == id;
      assert T.IsStart(more, k);
    }
    if r.body.StartBody? && r.body.start.scanId == id {
      assert T.IsStart(more, |rs|);
    }
    if Started(more, id) {
      var k :| T.IsStart(more, k) && more[k].body.start.scanId == id;
      assert k < |rs| ==> T.IsStart(rs, k);
    }
  }

  lemma {:induction false} AllStartedStays(rs: seq<Record>, r: Record)
    requires AllStarted(rs) && (r.body.ObservationBody? ==> Started(rs, r.body.observation.scanId))
    ensures AllStarted(rs + [r])
  {
    var more := rs + [r];
    forall k ensures ObservationStarted(more, k) {
      if T.IsObservation(more, k) {
        assert ObservationStarted(rs, k);
        StartedStays(rs, r, more[k].body.observation.scanId);
      }
    }
  }

  /** A scan that has not been started has no observations. */
  lemma {:induction false} NothingBefore(rs: seq<Record>, id: string)
    requires AllStarted(rs) && !Started(rs, id)
    ensures ObservationsOf(rs, id) == []
  {
    NoObservations(rs, |rs|, id);
    assert rs[..|rs|] == rs;
  }

  lemma {:induction false} NoObservations(rs: seq<Record>, n: nat, id: string)
    requires AllStarted(rs) && !Started(rs, id) && n <= |rs|
    ensures ObservationsOf(rs[..n], id) == []
  {
    if n > 0 {
      NoObservations(rs, n - 1, id);
      assert rs[..n][..n - 1] == rs[..n - 1];
      assert ObservationStarted(rs, n - 1);
    }
  }

  // ----- What every step keeps -----

  ghost predicate StartOf(cfg: Config, rs: seq<Record>, j: int) {
    && 0 <= j < |Chosen(cfg)| && Chosen(cfg)[j].name.Some?
    && exists i :: T.IsStart(rs, i) && rs[i].body.start.sourceId == cfg.session + ":" + Chosen(cfg)[j].name.value
  }

  /** The first `k` selected interfaces have been scanned. */
  ghost predicate Scanned(cfg: Config, rs: seq<Record>, k: nat) {
    k <= |Chosen(cfg)| && forall j | 0 <= j < k :: StartOf(cfg, rs, j)
  }

  lemma {:induction false} ScannedStays(cfg: Config, rs: seq<Record>, r: Record, k: nat)
    requires Scanned(cfg, rs, k)
    ensures Scanned(cfg, rs + [r], k)
  {
    forall j | 0 <= j < k ensures StartOf(cfg, rs + [r], j) {
      assert StartOf(cfg, rs, j);
      var i :| T.IsStart(rs, i) && rs[i].body.start.sourceId == cfg.session + ":" + Chosen(cfg)[j].name.value;
      assert T.IsStart(rs + [r], i);
    }
  }

  /** The stream ends in a terminal record, and after a scan that ended well all selected interfaces were scanned. */
  ghost predicate EndKept(cfg: Config, rs: seq<Record>) {
    && rs != [] && rs[|rs| - 1].body.CompleteBody?
    && (cfg.command == Scan && rs[|rs| - 1].body.complete.status == Ok ==> Scanned(cfg, rs, |Chosen(cfg)|))
  }

  ghost predicate PcKept(cfg: Config, s: Process) {
    var rs, n := s.writer.records, s.writer.observations;
    match s.pc
    case BeforeHello => n == 0
    case AskPermission => n == 0 && cfg.command == Authorize
    case AnswerPermission(_, _) => n == 0 && cfg.command == Authorize
    case AwaitPermission => n == 0 && cfg.command == Authorize
    case Listing => n == 0 && cfg.command != Authorize
    case AfterListing(_, _) => n == 0 && cfg.command != Authorize
    case NextInterface(k, count) => count == n && Scanned(cfg, rs, k)
    case BeginScan(k, count, _) => count == n && Scanned(cfg, rs, k)
    case Scanning(k, count, _, id) =>
      count == n && Scanned(cfg, rs, k + 1) && Started(rs, id) && ObservationsOf(rs, id) == []
    case Reporting(k, count, _, _, id, _) => count == n && Scanned(cfg, rs, k + 1) && Started(rs, id)
    case Exited => false
  }

  ghost predicate Kept(cfg: Config, s: Process) {
    if s.writer.ended then EndKept(cfg, s.writer.records)
    else AllStarted(s.writer.records) && s.writer.observations <= cfg.limit && PcKept(cfg, s)
  }

  lemma {:induction false} OpeningKept(cfg: Config, s: Process, s': Process)
    requires Kept(cfg, s) && !s.writer.ended
    requires HelloStep(cfg, s, s') || (exists enabled, permission :: AskStep(s, s', enabled, permission))
             || (exists enabled, permission :: ListStep(cfg, s, s', enabled, permission))
    ensures Kept(cfg, s')
  {
    var r := s'.writer.records[|s.writer.records|];
    assert s'.writer.records == s.writer.records + [r];
    AllStartedStays(s.writer.records, r);
  }

  lemma {:induction false} StartKept(cfg: Config, s: Process, s': Process, id: string)
    requires Kept(cfg, s) && !s.writer.ended && FreshScan(s.writer, id) && StartStep(cfg, s, s', id)
    ensures Kept(cfg, s')
  {
    var rs, k := s.writer.records, s.pc.k;
    var r := s'.writer.records[|rs|];
    assert s'.writer.records == rs + [r];
    assert !Started(rs, id);
    NothingBefore(rs, id);
    ObservationsAppend(rs, r, id);
    StartedStays(rs, r, id);
    AllStartedStays(rs, r);
    ScannedStays(cfg, rs, r, k);
    assert Chosen(cfg)[k] in Chosen(cfg);
    assert T.IsStart(rs + [r], |rs|);
    assert StartOf(cfg, rs + [r], k);
  }

  lemma {:induction false} ReportKept(cfg: Config, s: Process, s': Process, id: string)
    requires Kept(cfg, s) && !s.writer.ended && ReportStep(cfg, s, s', id)
    ensures Kept(cfg, s')
  {
    var rs := s.writer.records;
    var r := s'.writer.records[|rs|];
    assert s'.writer.records == rs + [r];
    StartedStays(rs, r, s.pc.scanId);
    AllStartedStays(rs, r);
    ScannedStays(cfg, rs, r, s.pc.k + 1);
  }

  lemma {:induction false} FinishKept(cfg: Config, w: Writer, w': Writer, time: u64, t: Terminal)
    requires !w.ended && w.observations < 0x1_0000 && w' == FinishTo(w, time, t)
    requires cfg.command == Scan && t.status == Ok ==> Scanned(cfg, w.records, |Chosen(cfg)|)
    ensures w'.ended && EndKept(cfg, w'.records)
  {
    var r := w'.records[|w.records|];
    assert w'.records == w.records + [r];
    if cfg.command == Scan && t.status == Ok {
      ScannedStays(cfg, w.records, r, |Chosen(cfg)|);
    }
  }

  lemma {:induction false} ConcludeKept(cfg: Config, s: Process, s': Process, t: Terminal)
    requires Kept(cfg, s) && !s.writer.ended && ConcludeStep(cfg, s, s', t)
    ensures Kept(cfg, s')
  {
    FinishKept(cfg, s.writer, s'.writer, s.now, t);
  }

  lemma {:induction false} AnswerKept(cfg: Config, s: Process, s': Process, enabled: bool, permission: Permission, cause: Cause)
    requires Kept(cfg, s) && !s.writer.ended && AnswerStep(s, s', enabled, permission, cause)
    ensures Kept(cfg, s')
  {
    FinishKept(cfg, s.writer, s'.writer, s.now, PermissionTerminal(enabled, permission, cause));
  }

  lemma {:induction false} StepKept(cfg: Config, s: Process, s': Process)
    requires Kept(cfg, s) && Step(cfg, s, s')
    ensures Kept(cfg, s')
  {
    if s.writer.ended {
      EndedStaysEnded(cfg, s, s');
    } else if HelloStep(cfg, s, s') || (exists enabled, permission :: AskStep(s, s', enabled, permission))
           || (exists enabled, permission :: ListStep(cfg, s, s', enabled, permission)) {
      OpeningKept(cfg, s, s');
    } else if enabled, permission, cause :| AnswerStep(s, s', enabled, permission, cause) {
      AnswerKept(cfg, s, s', enabled, permission, cause);
    } else if id :| FreshScan(s.writer, id) && StartStep(cfg, s, s', id) {
      StartKept(cfg, s, s', id);
    } else if id :| FreshObservation(s.writer, id) && ReportStep(cfg, s, s', id) {
      ReportKept(cfg, s, s', id);
    } else if t :| ConcludeStep(cfg, s, s', t) {
      ConcludeKept(cfg, s, s', t);
    } else if status, cause :| TerminatorStep(s, s', status, cause) {
      FinishKept(cfg, s.writer, s'.writer, s.now, Plain(status, cause));
    }
  }

  lemma {:induction false} RunKept(cfg: Config, run: seq<Process>, t: nat)
    requires IsRun(cfg, run) && t < |run|
    ensures Kept(cfg, run[t])
  {
    if t > 0 {
      RunKept(cfg, run, t - 1);
      assert StepAt(cfg, run, t);
      StepKept(cfg, run[t - 1], run[t]);
    }
  }

  // ----- The scan that returned -----

  /** The stream ended before the scan was told in full: a limit reached, a permission lost, a deadline or a signal. */
  ghost predicate CutShort(cfg: Config, rs: seq<Record>) {
    && rs != [] && rs[|rs| - 1].body.CompleteBody?
    && var c := rs[|rs| - 1].body.complete;
       && c.status in {Partial, PermissionRequired, Timeout, Cancelled}
       && (c.status == Partial ==> c.observationCount == cfg.limit)
  }

  /** A prefix of the networks has been told, in order; all of them unless the scan is still being told or was cut short. */
  ghost predicate Tracks(cfg: Config, s: Process, scan: Pc)
    requires scan.Reporting?
  {
    var rs, ns := s.writer.records, scan.networks;
    var told := ObservationsOf(rs, scan.scanId);
    && |told| <= |ns| && (forall j | 0 <= j < |told| :: Says(cfg, scan, ns[j], told[j]))
    && if s.writer.ended then |told| == |ns| || CutShort(cfg, rs)
       else
         && Started(rs, scan.scanId) && scan.k < |Chosen(cfg)|
         && if Telling(s.pc, scan.scanId) then s.pc == scan.(count := s.pc.count, networks := ns[|told|..])
            else |told| == |ns| && !(s.pc.Scanning? && s.pc.scanId == scan.scanId)
  }

  predicate Telling(pc: Pc, id: string) { pc.Reporting? && pc.scanId == id }

  lemma {:induction false} OtherRecord(cfg: Config, s: Process, s': Process, scan: Pc, r: Record)
    requires scan.Reporting? && Tracks(cfg, s, scan) && !s.writer.ended && !s'.writer.ended
    requires s'.writer.records == s.writer.records + [r]
    requires !(r.body.ObservationBody? && r.body.observation.scanId == scan.scanId)
    requires !Telling(s.pc, scan.scanId) && !Telling(s'.pc, scan.scanId)
    requires !(s'.pc.Scanning? && s'.pc.scanId == scan.scanId)
    ensures Tracks(cfg, s', scan)
  {
    ObservationsAppend(s.writer.records, r, scan.scanId);
    StartedStays(s.writer.records, r, scan.scanId);
  }

  lemma {:induction false} StartTracks(cfg: Config, s: Process, s': Process, scan: Pc, id: string)
    requires scan.Reporting? && Tracks(cfg, s, scan) && !s.writer.ended
    requires FreshScan(s.writer, id) && StartStep(cfg, s, s', id)
    ensures Tracks(cfg, s', scan)
  {
    assert id != scan.scanId;
    var r := s'.writer.records[|s.writer.records|];
    OtherRecord(cfg, s, s', scan, r);
  }

  lemma {:induction false} ReportTracks(cfg: Config, s: Process, s': Process, scan: Pc, id: string)
    requires scan.Reporting? && Tracks(cfg, s, scan) && !s.writer.ended && ReportStep(cfg, s, s', id)
    ensures Tracks(cfg, s', scan)
  {
    var rs := s.writer.records;
    var r := s'.writer.records[|rs|];
    assert s'.writer.records == rs + [r];
    if s.pc.scanId == scan.scanId {
      var n := |ObservationsOf(rs, scan.scanId)|;
      ObservationsAppend(rs, r, scan.scanId);
      StartedStays(rs, r, scan.scanId);
      ObservationSays(cfg, scan, id, scan.networks[n]);
      assert s.pc.networks[0] == scan.networks[n] && s.pc.networks[1..] == scan.networks[n + 1..];
    } else {
      OtherRecord(cfg, s, s', scan, r);
    }
  }

  lemma {:induction false} FinishTracks(cfg: Config, s: Process, s': Process, scan: Pc, t: Terminal)
    requires scan.Reporting? && Tracks(cfg, s, scan) && !s.writer.ended && s.writer.observations < 0x1_0000
    requires s'.writer == FinishTo(s.writer, s.now, t)
    requires Telling(s.pc, scan.scanId) && s.pc.networks != [] ==>
               t.status in {Partial, PermissionRequired, Timeout, Cancelled}
               && (t.status == Partial ==> s.writer.observations == cfg.limit)
    ensures Tracks(cfg, s', scan)
  {
    var rs := s.writer.records;
    var r := s'.writer.records[|rs|];
    assert s'.writer.records == rs + [r];
    ObservationsAppend(rs, r, scan.scanId);
  }

  lemma {:induction false} ConcludeTracks(cfg: Config, s: Process, s': Process, scan: Pc, t: Terminal)
    requires scan.Reporting? && Kept(cfg, s) && Tracks(cfg, s, scan) && !s.writer.ended && ConcludeStep(cfg, s, s', t)
    ensures Tracks(cfg, s', scan)
  {
    FinishTracks(cfg, s, s', scan, t);
  }

  lemma {:induction false} QuietTracks(cfg: Config, s: Process, s': Process, scan: Pc)
    requires scan.Reporting? && Tracks(cfg, s, scan) && !s.writer.ended && s'.writer == s.writer
    requires TickStep(s, s') || EnterScanStep(cfg, s, s') || ReadClockStep(cfg, s, s') || NextStep(s, s')
             || exists returned :: ScanReturnsStep(s, s', returned)
    ensures Tracks(cfg, s', scan)
  {
  }

  lemma {:induction false} OpeningTracks(cfg: Config, s: Process, s': Process, scan: Pc)
    requires scan.Reporting? && Tracks(cfg, s, scan) && !s.writer.ended
    requires HelloStep(cfg, s, s') || (exists enabled, permission :: AskStep(s, s', enabled, permission))
             || (exists enabled, permission :: ListStep(cfg, s, s', enabled, permission))
    ensures Tracks(cfg, s', scan)
  {
    OtherRecord(cfg, s, s', scan, s'.writer.records[|s.writer.records|]);
  }

  lemma {:induction false} StepTracks(cfg: Config, s: Process, s': Process, scan: Pc)
    requires scan.Reporting? && Kept(cfg, s) && Tracks(cfg, s, scan) && Step(cfg, s, s')
    ensures Tracks(cfg, s', scan)
  {
    if s.writer.ended {
      EndedStaysEnded(cfg, s, s');
    } else if HelloStep(cfg, s, s') || (exists enabled, permission :: AskStep(s, s', enabled, permission))
           || (exists enabled, permission :: ListStep(cfg, s, s', enabled, permission)) {
      OpeningTracks(cfg, s, s', scan);
    } else if enabled, permission, cause :| AnswerStep(s, s', enabled, permission, cause) {
      FinishTracks(cfg, s, s', scan, PermissionTerminal(enabled, permission, cause));
    } else if id :| FreshScan(s.writer, id) && StartStep(cfg, s, s', id) {
      StartTracks(cfg, s, s', scan, id);
    } else if id :| FreshObservation(s.writer, id) && ReportStep(cfg, s, s', id) {
      ReportTracks(cfg, s, s', scan, id);
    } else if t :| ConcludeStep(cfg, s, s', t) {
      ConcludeTracks(cfg, s, s', scan, t);
    } else if status, cause :| TerminatorStep(s, s', status, cause) {
      FinishTracks(cfg, s, s', scan, Plain(status, cause));
    } else {
      QuietTracks(cfg, s, s', scan);
    }
  }

  /** Step `a` is the one in which a scan returned these networks. */
  ghost predicate ReturnedAt(run: seq<Process>, a: nat, returned: multiset<Network>) {
    0 < a < |run| && ScanReturnsStep(run[a - 1], run[a], returned) && !run[a].writer.ended
  }

  lemma {:induction false} ReturnedTracks(cfg: Config, run: seq<Process>, a: nat, returned: multiset<Network>)
    requires IsRun(cfg, run) && ReturnedAt(run, a, returned)
    ensures run[a].pc.Reporting? && Arranged(returned, run[a].pc.networks) && Tracks(cfg, run[a], run[a].pc)
  {
    RunKept(cfg, run, a - 1);
  }

  /**
    In every run, from the moment a scan returns: its observations are, in order, a
    start of the networks it returned with the strongest first, each told field by
    field, and all of them unless the scan is still being told or was cut short.
   */
  lemma {:induction false} ScanReported(cfg: Config, run: seq<Process>, a: nat, t: nat, returned: multiset<Network>)
    requires IsRun(cfg, run) && a <= t < |run| && ReturnedAt(run, a, returned)
    ensures run[a].pc.Reporting? && Arranged(returned, run[a].pc.networks) && Tracks(cfg, run[t], run[a].pc)
    decreases t
  {
    ReturnedTracks(cfg, run, a, returned);
    if t > a {
      ScanReported(cfg, run, a, t - 1, returned);
      RunKept(cfg, run, t - 1);
      assert StepAt(cfg, run, t);
      StepTracks(cfg, run[t - 1], run[t], run[a].pc);
    }
  }

  /** A scan command that ends well has scanned every selected interface and told every network each scan returned. */
  lemma {:induction false} OkTellsAll(cfg: Config, run: seq<Process>, t: nat)
    requires IsRun(cfg, run) && t < |run| && run[t].writer.ended && cfg.command == Scan
    requires
      var rs := run[t].writer.records;
      rs != [] && rs[|rs| - 1].body.CompleteBody? && rs[|rs| - 1].body.complete.status == Ok
    ensures Scanned(cfg, run[t].writer.records, |Chosen(cfg)|)
    ensures forall a: nat, returned | a <= t && ReturnedAt(run, a, returned) ::
              run[a].pc.Reporting? && |ObservationsOf(run[t].writer.records, run[a].pc.scanId)| == |returned|
  {
    RunKept(cfg, run, t);
    forall a: nat, returned | a <= t && ReturnedAt(run, a, returned)
      ensures run[a].pc.Reporting? && |ObservationsOf(run[t].writer.records, run[a].pc.scanId)| == |returned|
    {
      ScanReported(cfg, run, a, t, returned);
      assert |multiset(run[a].pc.networks)| == |run[a].pc.networks|;
    }
  }

  // ----- What the other records say -----

  ghost predicate Keeps(cfg: Config, i: Interface) {
    i.name.Some? && 1 <= |i.name.value| <= 64 && (cfg.requested.None? || cfg.requested.value == i.name.value)
  }

  /** `at` lists, in order, exactly the interfaces with a usable name that was asked for. */
  ghost predicate Picks(cfg: Config, interfaces: seq<Interface>, kept: seq<Interface>, at: seq<nat>) {
    && |at| == |kept| && (forall k | 0 <= k < |at| :: at[k] < |interfaces| && interfaces[at[k]] == kept[k])
    && (forall j, k | 0 <= j < k < |at| :: at[j] < at[k])
    && forall i: nat | i < |interfaces| :: Keeps(cfg, interfaces[i]) <==> i in at
  }

  lemma {:induction false} PickMore(cfg: Config, interfaces: seq<Interface>, kept: seq<Interface>, at: seq<nat>, x: Interface)
    requires Picks(cfg, interfaces, kept, at) && Keeps(cfg, x)
    ensures Picks(cfg, interfaces + [x], kept + [x], at + [|interfaces|])
  {
    var more, next := interfaces + [x], at + [|interfaces|];
    forall i: nat | i < |more| ensures Keeps(cfg, more[i]) <==> i in next {
      assert i < |interfaces| ==> more[i] == interfaces[i];
      assert next[|at|] == |interfaces|;
    }
  }

  lemma {:induction false} PickNone(cfg: Config, interfaces: seq<Interface>, kept: seq<Interface>, at: seq<nat>, x: Interface)
    requires Picks(cfg, interfaces, kept, at) && !Keeps(cfg, x)
    ensures Picks(cfg, interfaces + [x], kept, at)
  {
    var more := interfaces + [x];
    forall i: nat | i < |more| ensures Keeps(cfg, more[i]) <==> i in at {
      assert i < |interfaces| ==> more[i] == interfaces[i];
    }
  }

  lemma {:induction false} PickNext(cfg: Config, interfaces: seq<Interface>, kept: seq<Interface>, at: seq<nat>, x: Interface)
    returns (kept': seq<Interface>, at': seq<nat>)
    requires Picks(cfg, interfaces, kept, at)
    ensures kept' == (if Keeps(cfg, x) then kept + [x] else kept) && Picks(cfg, interfaces + [x], kept', at')
  {
    if Keeps(cfg, x) {
      PickMore(cfg, interfaces, kept, at, x);
      kept', at' := kept + [x], at + [|interfaces|];
    } else {
      PickNone(cfg, interfaces, kept, at, x);
      kept', at' := kept, at;
    }
  }

  lemma {:induction false} SelectionStep(cfg: Config, n: nat)
    requires 0 < n <= |cfg.interfaces|
    ensures
      var x := cfg.interfaces[n - 1];
      && cfg.interfaces[..n] == cfg.interfaces[..n - 1] + [x]
      && Selection(cfg, n) == if Keeps(cfg, x) then Selection(cfg, n - 1) + [x] else Selection(cfg, n - 1)
  {
    assert Selected(cfg, cfg.interfaces[n - 1]) <==> Keeps(cfg, cfg.interfaces[n - 1]);
  }

  lemma {:induction false} SelectionMeans(cfg: Config, n: nat) returns (at: seq<nat>)
    requires n <= |cfg.interfaces|
    ensures Picks(cfg, cfg.interfaces[..n], Selection(cfg, n), at)
  {
    if n == 0 {
      at := [];
    } else {
      var before := SelectionMeans(cfg, n - 1);
      SelectionStep(cfg, n);
      var kept;
      kept, at := PickNext(cfg, cfg.interfaces[..n - 1], Selection(cfg, n - 1), before, cfg.interfaces[n - 1]);
    }
  }

  /** The selected interfaces are, in order, those with a name of at most 64 characters that was asked for, if any was. */
  lemma {:induction false} ChosenMeans(cfg: Config)
    ensures exists at :: Picks(cfg, cfg.interfaces, Chosen(cfg), at)
  {
    var at := SelectionMeans(cfg, |cfg.interfaces|);
    assert cfg.interfaces[..|cfg.interfaces|] == cfg.interfaces;
    assert Picks(cfg, cfg.interfaces, Chosen(cfg), at);
  }

  ghost predicate HelloSays(cfg: Config, h: Hello) {
    && h.clockEpoch == cfg.session && h.collector == Fixed && h.command == cfg.command
    && h.collectorBuild == cfg.collectorBuild && h.collectorVersion == cfg.collectorVersion && h.osVersion == cfg.osVersion
    && h.maxObservations == cfg.limit && h.maxRecordBytes == 16384 && h.timeoutSeconds == cfg.timeoutSeconds
    && (h.policy == ExplicitUnredacted <==> cfg.includeIdentifiers)
  }

  ghost predicate ListedSays(cfg: Config, i: Interface, e: Listed) {
    && i.name.Some? && SourceSays(cfg, i.name.value, e.source)
    && e.powerOn == i.powerOn && e.supportedChannels == i.channels && e.bands == i.bands
  }

  ghost predicate CapabilitiesSay(cfg: Config, c: Capabilities) {
    && |c.sources| == |Chosen(cfg)| && (forall k | 0 <= k < |c.sources| :: ListedSays(cfg, Chosen(cfg)[k], c.sources[k]))
    && c.nearbyScan.state ==
       (if c.locationServicesEnabled && c.permission == Authorized && (exists k :: 0 <= k < |c.sources| && c.sources[k].powerOn)
        then Available else NotAvailable)
    && c.noiseDbm.state == c.channelWidth.state == Conditional
    && c.monitorFrames == c.channelHopping == NotSupportedByCollector && c.phyMetadata == NotImplementedByCollector
    && c.channelDwell == c.perChainSignal == c.captureTimestamp == SourceDidNotProvide && c.position == NotCollected
  }

  ghost predicate AuthorizationSays(a: Authorization) {
    a.requestedByOperator && (a.promptRequested <==> a.locationServicesEnabled && a.state == NotDetermined)
  }

  ghost predicate CompleteSays(rs: seq<Record>, c: Complete) {
    && (c.partial <==> c.status != Ok && c.observationCount > 0)
    && (c.finalPermission.Some? ==>
          (c.status == Ok <==> c.finalPermission == Some(Authorized) && c.finalLocationServices == Some(true)))
  }

  ghost predicate RecordSays(cfg: Config, rs: seq<Record>, k: int) {
    0 <= k < |rs| ==>
      match rs[k].body
      case HelloBody(h) => HelloSays(cfg, h)
      case CapabilitiesBody(c) => CapabilitiesSay(cfg, c)
      case AuthorizationBody(a) => AuthorizationSays(a)
      case StartBody(start) => !start.includeHidden && exists j :: 0 <= j < |Chosen(cfg)| && StartNames(cfg, j, start)
      case ObservationBody(o) => true
      case CompleteBody(c) => CompleteSays(rs, c)
  }

  ghost predicate StartNames(cfg: Config, j: int, start: Start) {
    0 <= j < |Chosen(cfg)| && Chosen(cfg)[j].name.Some? && Chosen(cfg)[j].powerOn
    && start.sourceId == cfg.session + ":" + Chosen(cfg)[j].name.value
  }

  ghost predicate AllSay(cfg: Config, rs: seq<Record>) { forall k {:trigger RecordSays(cfg, rs, k)} :: RecordSays(cfg, rs, k) }

  lemma {:induction false} CapabilitiesOfSay(cfg: Config, enabled: bool, permission: Permission)
    ensures CapabilitiesSay(cfg, CapabilitiesOf(cfg, enabled, permission))
  {
    var chosen, c := Chosen(cfg), CapabilitiesOf(cfg, enabled, permission);
    forall k | 0 <= k < |chosen| ensures ListedSays(cfg, chosen[k], c.sources[k]) {
      assert chosen[k] in chosen;
    }
    if i :| i in chosen && i.powerOn {
      var k :| 0 <= k < |chosen| && chosen[k] == i;
      assert c.sources[k].powerOn;
    }
    if k :| 0 <= k < |c.sources| && c.sources[k].powerOn {
      assert chosen[k] in chosen;
    }
  }

  /** Every record other than an observation says what the process was configured with or read. */
  ghost predicate Truthful(cfg: Config, s: Process) {
    && AllSay(cfg, s.writer.records)
    && (s.pc.BeginScan? ==> s.pc.k < |Chosen(cfg)| && Chosen(cfg)[s.pc.k].powerOn)
  }

  lemma {:induction false} AppendSays(cfg: Config, rs: seq<Record>, r: Record)
    requires AllSay(cfg, rs) && RecordSays(cfg, rs + [r], |rs|)
    ensures AllSay(cfg, rs + [r])
  {
    forall k ensures RecordSays(cfg, rs + [r], k) {
      assert RecordSays(cfg, rs, k);
      assert 0 <= k < |rs| ==> (rs + [r])[k] == rs[k];
    }
  }

  /** The record a step adds says what it should. */
  lemma {:induction false} NewRecordSays(cfg: Config, s: Process, s': Process)
    requires Truthful(cfg, s) && Step(cfg, s, s') && s'.writer.records != s.writer.records
    ensures
      var rs, rs' := s.writer.records, s'.writer.records;
      |rs'| == |rs| + 1 && rs' == rs + [rs'[|rs|]] && RecordSays(cfg, rs', |rs|)
  {
    if enabled, permission :| ListStep(cfg, s, s', enabled, permission) {
      CapabilitiesOfSay(cfg, enabled, permission);
    } else if id :| FreshScan(s.writer, id) && StartStep(cfg, s, s', id) {
      assert Chosen(cfg)[s.pc.k] in Chosen(cfg);
      assert StartNames(cfg, s.pc.k, s'.writer.records[|s.writer.records|].body.start);
    }
  }

  lemma {:induction false} StepTruthful(cfg: Config, s: Process, s': Process)
    requires Truthful(cfg, s) && Step(cfg, s, s')
    ensures Truthful(cfg, s')
  {
    if s'.writer.records != s.writer.records {
      NewRecordSays(cfg, s, s');
      AppendSays(cfg, s.writer.records, s'.writer.records[|s.writer.records|]);
    }
  }

  lemma {:induction false} RunTruthful(cfg: Config, run: seq<Process>, t: nat)
    requires IsRun(cfg, run) && t < |run|
    ensures AllSay(cfg, run[t].writer.records)
    ensures Truthful(cfg, run[t])
  {
    if t > 0 {
      RunTruthful(cfg, run, t - 1);
      assert StepAt(cfg, run, t);
      StepTruthful(cfg, run[t - 1], run[t]);
    }
  }

  // ----- The worker is never stuck -----

  ghost predicate GoesOn(cfg: Config, s: Process) { exists s' :: Step(cfg, s, s') && s'.pc != s.pc }

  lemma {:induction false} ConcludesWith(cfg: Config, s: Process, t: Terminal)
    requires s.writer.observations < 0x1_0000 && !s.pc.Exited?
    requires ConcludeStep(cfg, s, s.(writer := FinishTo(s.writer, s.now, t), pc := Exited), t)
    ensures GoesOn(cfg, s)
  {
    var s' := s.(writer := FinishTo(s.writer, s.now, t), pc := Exited);
    assert Step(cfg, s, s') && s'.pc != s.pc;
  }

  lemma {:induction false} OpeningGoesOn(cfg: Config, s: Process, cause: Cause)
    requires Kept(cfg, s) && !s.writer.ended && CauseText(cause)
    requires s.pc.BeforeHello? || s.pc.AskPermission? || s.pc.AnswerPermission? || s.pc.AwaitPermission? || s.pc.Listing?
    ensures GoesOn(cfg, s)
  {
    match s.pc
    case BeforeHello =>
      var pc := if cfg.command == Authorize then AskPermission else Listing;
      var s' := s.(writer := EmitTo(s.writer, s.now, HelloBody(HelloOf(cfg))), pc := pc);
      assert HelloStep(cfg, s, s');
    case AskPermission =>
      var a := Authorization(Denied, true, false, MayRequest(false, Denied));
      var s' := s.(writer := EmitTo(s.writer, s.now, AuthorizationBody(a)), pc := AnswerPermission(false, Denied));
      assert AskStep(s, s', false, Denied);
      assert Step(cfg, s, s');
    case AnswerPermission(enabled, permission) =>
      var t := PermissionTerminal(enabled, permission, cause);
      var s' := s.(writer := FinishTo(s.writer, s.now, t), pc := Exited);
      assert AnswerStep(s, s', enabled, permission, cause);
      assert Step(cfg, s, s');
    case AwaitPermission =>
      var s' := s.(writer := FinishTo(s.writer, s.now, PermissionTerminal(false, Denied, cause)), pc := Exited);
      assert AnswerStep(s, s', false, Denied, cause);
      assert Step(cfg, s, s');
    case Listing =>
      if |cfg.interfaces| <= MAX_SOURCES {
        var c := CapabilitiesOf(cfg, false, Denied);
        var s' := s.(writer := EmitTo(s.writer, s.now, CapabilitiesBody(c)), pc := AfterListing(false, Denied));
        assert ListStep(cfg, s, s', false, Denied);
        assert Step(cfg, s, s');
      } else {
        ConcludesWith(cfg, s, Plain(Error, cause));
      }
  }

  lemma {:induction false} ScanGoesOn(cfg: Config, s: Process, cause: Cause, scanId: string, id: string)
    requires Kept(cfg, s) && !s.writer.ended && CauseText(cause)
    requires FreshScan(s.writer, scanId) && FreshObservation(s.writer, id) && V.UuidOk(scanId) && V.UuidOk(id)
    requires s.pc.AfterListing? || s.pc.NextInterface? || s.pc.BeginScan? || s.pc.Scanning? || s.pc.Reporting?
    requires s.pc.BeginScan? ==> s.pc.k < |Chosen(cfg)|
    ensures GoesOn(cfg, s)
  {
    match s.pc
    case AfterListing(enabled, permission) =>
      if cfg.command == Probe {
        ConcludesWith(cfg, s, Plain(Ok, cause));
      } else if !MayScan(enabled, permission) {
        ConcludesWith(cfg, s, Plain(PermissionRequired, cause));
      } else if Chosen(cfg) == [] {
        ConcludesWith(cfg, s, Plain(Unsupported, cause));
      } else {
        assert EnterScanStep(cfg, s, s.(pc := NextInterface(0, 0)));
      }
    case NextInterface(k, count) =>
      if k == |Chosen(cfg)| {
        ConcludesWith(cfg, s, Plain(Ok, cause));
      } else if Chosen(cfg)[k].powerOn {
        assert ReadClockStep(cfg, s, s.(pc := BeginScan(k, count, s.now)));
      } else {
        ConcludesWith(cfg, s, Plain(Unavailable, cause));
      }
    case BeginScan(k, count, begin) =>
      var start := StartBody(Start(begin, false, scanId, SourceId(cfg.session, NameAt(cfg, k))));
      var s' := s.(writer := EmitTo(s.writer, s.now, start), pc := Scanning(k, count, begin, scanId));
      assert StartStep(cfg, s, s', scanId);
      assert Step(cfg, s, s');
    case Scanning(k, count, begin, open) =>
      var s' := s.(pc := Reporting(k, count, begin, s.now, open, []));
      assert ScanReturnsStep(s, s', multiset{});
      assert Step(cfg, s, s');
    case Reporting(k, count, begin, end, open, networks) =>
      ReportingGoesOn(cfg, s, cause, id);
  }

  lemma {:induction false} ReportingGoesOn(cfg: Config, s: Process, cause: Cause, id: string)
    requires Kept(cfg, s) && !s.writer.ended && CauseText(cause) && s.pc.Reporting?
    requires FreshObservation(s.writer, id) && V.UuidOk(id)
    ensures GoesOn(cfg, s)
  {
    var pc := s.pc;
    if pc.networks == [] {
      assert NextStep(s, s.(pc := NextInterface(pc.k + 1, pc.count)));
    } else if pc.count < cfg.limit {
      var o := ObservationOf(cfg, id, pc.scanId, NameAt(cfg, pc.k), pc.begin, pc.end, pc.networks[0]);
      var s' := s.(writer := EmitTo(s.writer, s.now, ObservationBody(o)),
                   pc := Reporting(pc.k, pc.count + 1, pc.begin, pc.end, pc.scanId, pc.networks[1..]));
      assert ReportStep(cfg, s, s', id);
      assert Step(cfg, s, s');
    } else {
      ConcludesWith(cfg, s, Plain(Partial, cause));
    }
  }

  /** In every run, until the stream has ended, the worker has a step to take. */
  lemma {:induction false} NeverStuck(cfg: Config, run: seq<Process>, t: nat, cause: Cause, scanId: string, id: string)
    requires IsRun(cfg, run) && t < |run| && !run[t].writer.ended && CauseText(cause)
    requires FreshScan(run[t].writer, scanId) && FreshObservation(run[t].writer, id) && V.UuidOk(scanId) && V.UuidOk(id)
    ensures GoesOn(cfg, run[t])
  {
    RunKept(cfg, run, t);
    RunTruthful(cfg, run, t);
    var pc := run[t].pc;
    if pc.BeforeHello? || pc.AskPermission? || pc.AnswerPermission? || pc.AwaitPermission? || pc.Listing? {
      OpeningGoesOn(cfg, run[t], cause);
    } else {
      ScanGoesOn(cfg, run[t], cause, scanId, id);
    }
  }
}
