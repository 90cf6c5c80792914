/**
  The native collector process: one serialized writer, one worker, and a deadline
  and two signals racing to end the stream.
 */
module CollectorProcess {
  import opened CollectorProtocol
  import V = StreamValidator
  import T = TraceContract

  // ----- The writer -----

  /** What the writer has put on the stream so far. */
  datatype Writer = Writer(records: seq<Record>, ended: bool, observations: nat)

  datatype Terminal = Terminal(
    status: Status, cause: Cause, finalPermission: Option<Permission>, finalLocationServices: Option<bool>,
    nativeErrorDomain: Option<string>, nativeErrorCode: Option<int>)

  function Plain(status: Status, cause: Cause): Terminal { Terminal(status, cause, None, None, None, None) }

  function EmitTo(w: Writer, time: u64, body: Body): Writer {
    if w.ended then w
    else Writer(w.records + [Record(time, body)], false, w.observations + (if body.ObservationBody? then 1 else 0))
  }

  function CompleteOf(w: Writer, t: Terminal): Complete
    requires w.observations < 0x1_0000
  {
    Complete(w.observations, t.status != Ok && w.observations > 0, t.cause, t.status,
             t.finalPermission, t.finalLocationServices, t.nativeErrorDomain, t.nativeErrorCode)
  }

  function FinishTo(w: Writer, time: u64, t: Terminal): Writer
    requires w.observations < 0x1_0000
  {
    if w.ended then w else Writer(w.records + [Record(time, CompleteBody(CompleteOf(w, t)))], true, w.observations)
  }

  /** The writer object; both public methods run under its lock. */
  class WireWriter {
    var sequence: nat
    var ended: bool
    var observations: nat
    var out: seq<(nat, Record)>

    /** Every record carries its own index as sequence number. */
    ghost predicate Valid() reads this {
      && sequence == |out|
      && forall i | 0 <= i < |out| :: out[i].0 == i
    }

    ghost function View(): Writer reads this {
      Writer(seq(|out|, i requires 0 <= i < |out| reads this => out[i].1), ended, observations)
    }

    constructor ()
      ensures Valid() && View() == Writer([], false, 0)
    {
      sequence, ended, observations, out := 0, false, 0, [];
    }

    method WriteLocked(time: u64, body: Body)
      requires Valid()
      modifies this
      ensures Valid() && ended == old(ended) && observations == old(observations)
      ensures out == old(out) + [(old(sequence), Record(time, body))]
    {
      out := out + [(sequence, Record(time, body))];
      sequence := sequence + 1;
    }

    method Emit(time: u64, body: Body)
      requires Valid()
      modifies this
      ensures Valid() && View() == EmitTo(old(View()), time, body)
    {
      if ended { return; }
      WriteLocked(time, body);
      if body.ObservationBody? { observations := observations + 1; }
      assert View().records == old(View()).records + [Record(time, body)];
    }

    method Finish(time: u64, t: Terminal)
      requires Valid() && observations < 0x1_0000
      modifies this
      ensures Valid() && View() == FinishTo(old(View()), time, t)
    {
      if !ended {
        ended := true;
        var complete := Complete(
          observations, t.status != Ok && observations > 0, t.cause, t.status,
          t.finalPermission, t.finalLocationServices, t.nativeErrorDomain, t.nativeErrorCode);
        WriteLocked(time, CompleteBody(complete));
        assert View().records == old(View()).records + [Record(time, CompleteBody(complete))];
      }
    }
  }

  // ----- Putting one record's bytes on a nonblocking descriptor -----

  datatype WriteResult = Wrote(count: nat) | Interrupted | WouldBlock(beforeDeadline: bool) | Failed

  /**
    Repeated partial writes.  The record is on the stream in full exactly when the
    process did not give up; giving up leaves a strict prefix of it.
   */
  method WriteAll(bytes: seq<u8>, results: seq<WriteResult>) returns (written: seq<u8>, complete: bool, used: nat)
    requires forall i | 0 <= i < |results| && results[i].Wrote? :: results[i].count <= |bytes|
    ensures written <= bytes
    ensures complete <==> written == bytes
    ensures !complete && used < |results| ==> results[used] in {Failed, WouldBlock(false), Wrote(0)}
    ensures used <= |results|
  {
    var offset: nat := 0;
    used := 0;
    while offset < |bytes| && used < |results|
      invariant offset <= |bytes| && used <= |results|
      decreases |results| - used
    {
      match results[used] {
        case Wrote(count) =>
          if count == 0 { return bytes[..offset], false, used; }
          // The kernel never reports more bytes than it was given.
          offset := if offset + count <= |bytes| then offset + count else |bytes|;
        case Interrupted =>
        case WouldBlock(before) =>
          if !before { return bytes[..offset], false, used; }
        case Failed => return bytes[..offset], false, used;
      }
      used := used + 1;
    }
    return bytes[..offset], offset == |bytes|, used;
  }

  // ----- What the process reads from its surroundings -----

  datatype Interface = Interface(name: Option<string>, powerOn: bool, channels: E<u16>, bands: seq<u16>)

  datatype RawChannel = RawChannel(number: u16, band: u16, width: u16)

  datatype Network = Network(
    bssid: Option<seq<u8>>, ssid: Option<seq<u8>>, channel: Option<RawChannel>, rssi: int, noise: int)

  datatype Config = Config(
    session: string, command: Command, timeoutSeconds: u8, limit: u16, requested: Option<string>,
    includeIdentifiers: bool, collectorVersion: string, collectorBuild: string, osVersion: string,
    frameworkVersion: string, condition: string, interfaces: seq<Interface>)

  function HelloOf(cfg: Config): Hello {
    Hello(cfg.session, Fixed, cfg.collectorBuild, cfg.collectorVersion, cfg.command,
          if cfg.includeIdentifiers then ExplicitUnredacted else RedactedIdentifiers,
          cfg.limit, MAX_RECORD_BYTES, cfg.osVersion, cfg.timeoutSeconds)
  }

  function SourceOf(cfg: Config, name: string): Source {
    Source(SourceId(cfg.session, name), name, Fixed, SourceDidNotProvide, SourceDidNotProvide, SourceDidNotProvide,
           Fixed, cfg.collectorVersion, cfg.collectorBuild, Fixed, Fixed, Fixed, cfg.frameworkVersion, cfg.osVersion)
  }

  predicate Selected(cfg: Config, i: Interface) {
    && i.name.Some? && 0 < |i.name.value| <= 64
    && (cfg.requested.Some? ==> i.name == cfg.requested)
  }

  /** The interfaces the collector keeps, in order. */
  function Selection(cfg: Config, n: nat): (r: seq<Interface>)
    requires n <= |cfg.interfaces|
    ensures |r| <= n
    ensures forall i | i in r :: Selected(cfg, i)
  {
    if n == 0 then []
    else if Selected(cfg, cfg.interfaces[n - 1]) then Selection(cfg, n - 1) + [cfg.interfaces[n - 1]]
    else Selection(cfg, n - 1)
  }

  function Chosen(cfg: Config): (r: seq<Interface>)
    ensures |r| <= |cfg.interfaces|
    ensures forall i | i in r :: Selected(cfg, i)
  {
    Selection(cfg, |cfg.interfaces|)
  }

  function NameAt(cfg: Config, k: nat): string
    requires k < |Chosen(cfg)|
  {
    assert Chosen(cfg)[k] in Chosen(cfg);
    Chosen(cfg)[k].name.value
  }

  function ListingOf(cfg: Config, i: Interface): Listed
    requires Selected(cfg, i)
  {
    Listed(SourceOf(cfg, i.name.value), i.powerOn, i.channels, i.bands)
  }

  predicate MayScan(enabled: bool, permission: Permission) { enabled && permission == Authorized }
  predicate MayRequest(enabled: bool, permission: Permission) { enabled && permission == NotDetermined }

  function CapabilitiesOf(cfg: Config, enabled: bool, permission: Permission): Capabilities {
    var chosen := Chosen(cfg);
    var available := MayScan(enabled, permission) && exists i | i in chosen :: i.powerOn;
    Capabilities(enabled, permission,
                 seq(|chosen|, k requires 0 <= k < |chosen| => ListingOf(cfg, chosen[k])),
                 Offer(if available then Available else NotAvailable, cfg.condition),
                 Offer(Conditional, cfg.condition), Offer(Conditional, cfg.condition),
                 NotSupportedByCollector, SourceDidNotProvide, NotSupportedByCollector, SourceDidNotProvide,
                 Fixed, NotImplementedByCollector, SourceDidNotProvide, NotCollected)
  }

  function MeasuredPower(value: int): E<int> {
    if -200 <= value <= -1 then Known(value) else Unknown(InvalidOrUnavailableSourceValue)
  }

  function ChannelOf(raw: Option<RawChannel>): E<Channel> {
    match raw
    case None => Unknown(SourceDidNotProvide)
    case Some(c) =>
      Known(Channel(
        if c.number > 0 then Known(c.number) else Unknown(SourceDidNotProvide),
        if BandOf(c.band).Some? then Known(BandOf(c.band).value) else Unknown(UnsupportedSourceEnum),
        if WidthOf(c.width).Some? then Known(WidthOf(c.width).value) else Unknown(UnsupportedSourceEnum),
        c.band, c.width, SourceDidNotProvide, SourceDidNotProvide, SourceDidNotProvide))
  }

  function IdentityOf(value: Option<seq<u8>>): E<seq<u8>> {
    match value
    case None => Unknown(SourceDidNotProvide)
    case Some(octets) => if HardwareAddress(octets) then Known(octets) else Unknown(InvalidOrUnavailableSourceValue)
  }

  function NameOf(value: Option<seq<u8>>): E<seq<u8>> {
    if value.Some? && 1 <= |value.value| <= 32 then Known(value.value) else Unknown(SourceDidNotProvide)
  }

  function ObservationOf(cfg: Config, id: string, scanId: string, name: string, begin: u64, end: u64, n: Network)
    : Observation
  {
    Observation(id, scanId, SourceOf(cfg, name), Fixed, begin, end,
                if cfg.includeIdentifiers then IdentityOf(n.bssid) else Unknown(Redacted),
                if cfg.includeIdentifiers then NameOf(n.ssid) else Unknown(Redacted),
                ChannelOf(n.channel), MeasuredPower(n.rssi), MeasuredPower(n.noise), Fixed, Fixed,
                SourceDidNotProvide, SourceDidNotProvide, NotImplementedByCollector, NotCollected,
                NotRetainedByCollector, Fixed)
  }

  /** What the operating system and the build are trusted to provide. */
  ghost predicate Trusted(cfg: Config) {
    && V.UuidOk(cfg.session) && BuildHash(cfg.collectorBuild)
    && V.TextOk(cfg.collectorVersion) && V.TextOk(cfg.osVersion) && V.TextOk(cfg.frameworkVersion)
    && V.TextOk(cfg.condition)
    && 1 <= cfg.timeoutSeconds <= 60 && 1 <= cfg.limit <= MAX_OBSERVATIONS
    && (forall i | i in Chosen(cfg) :: InterfaceName(i.name.value) && |i.bands| <= 256)
    && (forall a, b | 0 <= a < b < |Chosen(cfg)| :: Chosen(cfg)[a].name != Chosen(cfg)[b].name)
  }

  // ----- The worker as a step machine -----

  datatype Pc =
    | BeforeHello
    | AskPermission
    | AnswerPermission(enabled: bool, permission: Permission)
    | AwaitPermission
    | Listing
    | AfterListing(enabled: bool, permission: Permission)
    | NextInterface(k: nat, count: nat)
    | BeginScan(k: nat, count: nat, begin: u64)
    | Scanning(k: nat, count: nat, begin: u64, scanId: string)
    | Reporting(k: nat, count: nat, begin: u64, end: u64, scanId: string, networks: seq<Network>)
    | Exited

  datatype Process = Process(writer: Writer, now: u64, pc: Pc)

  ghost predicate Emits(s: Process, s': Process, body: Body, pc: Pc) {
    s' == s.(writer := EmitTo(s.writer, s.now, body), pc := pc)
  }

  ghost predicate Finishes(s: Process, s': Process, t: Terminal) {
    s.writer.observations < 0x1_0000 && s' == s.(writer := FinishTo(s.writer, s.now, t), pc := Exited)
  }

  ghost predicate CauseText(c: Cause) { V.CauseOk(c) && c.OtherCause? }

  function PermissionTerminal(enabled: bool, permission: Permission, cause: Cause): Terminal {
    Terminal(if MayScan(enabled, permission) then Ok else PermissionRequired,
             if MayScan(enabled, permission) then LocationAuthorized else cause,
             Some(permission), Some(enabled), None, None)
  }

  ghost predicate HelloStep(cfg: Config, s: Process, s': Process) {
    && s.pc.BeforeHello?
    && Emits(s, s', HelloBody(HelloOf(cfg)), if cfg.command == Authorize then AskPermission else Listing)
  }

  ghost predicate AskStep(s: Process, s': Process, enabled: bool, permission: Permission) {
    && s.pc.AskPermission?
    && Emits(s, s', AuthorizationBody(Authorization(permission, true, enabled, MayRequest(enabled, permission))),
             if MayRequest(enabled, permission) then AwaitPermission else AnswerPermission(enabled, permission))
  }

  ghost predicate AnswerStep(s: Process, s': Process, enabled: bool, permission: Permission, cause: Cause) {
    && CauseText(cause)
    && (s.pc == AnswerPermission(enabled, permission) || (s.pc.AwaitPermission? && permission != NotDetermined))
    && Finishes(s, s', PermissionTerminal(enabled, permission, cause))
  }

  ghost predicate ListStep(cfg: Config, s: Process, s': Process, enabled: bool, permission: Permission) {
    && s.pc.Listing? && |cfg.interfaces| <= MAX_SOURCES
    && Emits(s, s', CapabilitiesBody(CapabilitiesOf(cfg, enabled, permission)), AfterListing(enabled, permission))
  }

  ghost predicate EnterScanStep(cfg: Config, s: Process, s': Process) {
    && s.pc.AfterListing? && cfg.command == Scan && MayScan(s.pc.enabled, s.pc.permission) && Chosen(cfg) != []
    && s' == s.(pc := NextInterface(0, 0))
  }

  ghost predicate ReadClockStep(cfg: Config, s: Process, s': Process) {
    && s.pc.NextInterface? && s.pc.k < |Chosen(cfg)| && Chosen(cfg)[s.pc.k].powerOn
    && s' == s.(pc := BeginScan(s.pc.k, s.pc.count, s.now))
  }

  ghost predicate StartStep(cfg: Config, s: Process, s': Process, scanId: string) {
    && s.pc.BeginScan? && s.pc.k < |Chosen(cfg)| && V.UuidOk(scanId)
    && Emits(s, s', StartBody(Start(s.pc.begin, false, scanId, SourceId(cfg.session, NameAt(cfg, s.pc.k)))),
             Scanning(s.pc.k, s.pc.count, s.pc.begin, scanId))
  }

  /** The networks a scan returned, the strongest first. */
  ghost predicate Arranged(returned: multiset<Network>, networks: seq<Network>) {
    multiset(networks) == returned && forall i, j | 0 <= i < j < |networks| :: networks[i].rssi >= networks[j].rssi
  }

  ghost predicate ScanReturnsStep(s: Process, s': Process, returned: multiset<Network>) {
    && s.pc.Scanning? && s'.pc.Reporting? && Arranged(returned, s'.pc.networks)
    && s' == s.(pc := Reporting(s.pc.k, s.pc.count, s.pc.begin, s.now, s.pc.scanId, s'.pc.networks))
  }

  ghost predicate ReportStep(cfg: Config, s: Process, s': Process, id: string) {
    && s.pc.Reporting? && s.pc.networks != [] && s.pc.count < cfg.limit && V.UuidOk(id) && s.pc.k < |Chosen(cfg)|
    && var pc := s.pc;
       Emits(s, s',
             ObservationBody(ObservationOf(cfg, id, pc.scanId, NameAt(cfg, pc.k), pc.begin, pc.end, pc.networks[0])),
             Reporting(pc.k, pc.count + 1, pc.begin, pc.end, pc.scanId, pc.networks[1..]))
  }

  ghost predicate NextStep(s: Process, s': Process) {
    && s.pc.Reporting? && s.pc.networks == []
    && s' == s.(pc := NextInterface(s.pc.k + 1, s.pc.count))
  }

  /** The ways the scan worker may give up or conclude. */
  ghost predicate ConcludeStep(cfg: Config, s: Process, s': Process, t: Terminal) {
    && Finishes(s, s', t)
    && CauseText(t.cause) && t.finalPermission.None? && t.finalLocationServices.None?
    && match s.pc
       case Listing => |cfg.interfaces| > MAX_SOURCES && t == Plain(Error, t.cause)
       case AfterListing(enabled, permission) =>
         || (cfg.command == Probe && t == Plain(Ok, t.cause))
         || (cfg.command == Scan && !MayScan(enabled, permission) && t == Plain(PermissionRequired, t.cause))
         || (cfg.command == Scan && Chosen(cfg) == [] && t == Plain(Unsupported, t.cause))
       case NextInterface(k, _) =>
         || t == Plain(Unavailable, t.cause)
         || t == Plain(PermissionRequired, t.cause)
         || (k == |Chosen(cfg)| && t == Plain(Ok, t.cause))
       case Scanning(_, _, _, _) =>
         || t == Plain(PermissionRequired, t.cause)
         || (&& t.status == Error && t.nativeErrorDomain.Some? && t.nativeErrorCode.Some?
             && V.TextOk(t.nativeErrorDomain.value))
       case Reporting(_, count, _, _, _, networks) =>
         && networks != []
         && (t == Plain(PermissionRequired, t.cause) || (count >= cfg.limit && t == Plain(Partial, t.cause)))
       case _ => false
  }

  /** The deadline timer and the two signal sources, at any moment. */
  ghost predicate TerminatorStep(s: Process, s': Process, status: Status, cause: Cause) {
    && (status == Timeout || status == Cancelled) && CauseText(cause)
    && s.writer.observations < 0x1_0000
    && s' == s.(writer := FinishTo(s.writer, s.now, Plain(status, cause)))
  }

  ghost predicate TickStep(s: Process, s': Process) {
    s.now <= s'.now && s' == s.(now := s'.now)
  }

  /** Identifiers are fresh: no record so far uses them. */
  ghost predicate FreshScan(w: Writer, id: string) {
    forall k | T.IsStart(w.records, k) :: w.records[k].body.start.scanId != id
  }

  ghost predicate FreshObservation(w: Writer, id: string) {
    forall k | T.IsObservation(w.records, k) :: w.records[k].body.observation.observationId != id
  }

  ghost predicate Step(cfg: Config, s: Process, s': Process) {
    || TickStep(s, s')
    || HelloStep(cfg, s, s')
    || (exists enabled, permission :: AskStep(s, s', enabled, permission))
    || (exists enabled, permission, cause :: AnswerStep(s, s', enabled, permission, cause))
    || (exists enabled, permission :: ListStep(cfg, s, s', enabled, permission))
    || EnterScanStep(cfg, s, s')
    || ReadClockStep(cfg, s, s')
    || (exists id :: FreshScan(s.writer, id) && StartStep(cfg, s, s', id))
    || (exists returned :: ScanReturnsStep(s, s', returned))
    || (exists id :: FreshObservation(s.writer, id) && ReportStep(cfg, s, s', id))
    || NextStep(s, s')
    || (exists t :: ConcludeStep(cfg, s, s', t))
    || (exists status, cause :: TerminatorStep(s, s', status, cause))
  }

  ghost predicate StepAt(cfg: Config, run: seq<Process>, t: nat) {
    0 < t < |run| ==> Step(cfg, run[t - 1], run[t])
  }

  ghost predicate IsRun(cfg: Config, run: seq<Process>) {
    && |run| > 0 && run[0].writer == Writer([], false, 0) && run[0].pc == BeforeHello
    && forall t: nat {:trigger StepAt(cfg, run, t)} :: StepAt(cfg, run, t)
  }

  // ----- The invariant -----

  ghost predicate PcLive(cfg: Config, s: Process, st: V.Progress) {
    var n := |s.writer.records|;
    match s.pc
    case BeforeHello => false
    case AskPermission => cfg.command == Authorize && n == 1 && st == V.FRESH.(previous := st.previous)
    case AnswerPermission(enabled, permission) =>
      && cfg.command == Authorize && n == 2 && st.observations == {}
      && st.auth == Some(Authorization(permission, true, enabled, MayRequest(enabled, permission)))
    case AwaitPermission =>
      && cfg.command == Authorize && n == 2 && st.observations == {}
      && st.auth.Some? && st.auth.value.locationServicesEnabled && st.auth.value.promptRequested
    case Listing => cfg.command != Authorize && n == 1 && st == V.FRESH.(previous := st.previous)
    case AfterListing(enabled, permission) =>
      && Offering(cfg, st, enabled, permission) && n == 2 && st.scans == map[] && st.observations == {}
    case NextInterface(k, count) =>
      && InScan(cfg, s, st, k, count) && n == 2 + k + count
      && (k > 0 ==> st.scans != map[] && st.caps.value.nearbyScan.state == Available)
    case BeginScan(k, count, begin) =>
      && InScan(cfg, s, st, k, count) && n == 2 + k + count
      && k < |Chosen(cfg)| && Chosen(cfg)[k].powerOn && begin <= s.now
    case Scanning(k, count, begin, scanId) =>
      && InScan(cfg, s, st, k, count) && n == 3 + k + count
      && ScanOpen(cfg, s, st, k, begin, scanId) && st.scans[scanId].completed.None?
    case Reporting(k, count, begin, end, scanId, _) =>
      && InScan(cfg, s, st, k, count) && n == 3 + k + count
      && ScanOpen(cfg, s, st, k, begin, scanId)
      && begin <= end <= s.now && st.scans[scanId].startReceipt <= end
      && (st.scans[scanId].completed.None? || st.scans[scanId].completed.value == end)
    case Exited => false
  }

  ghost predicate Offering(cfg: Config, st: V.Progress, enabled: bool, permission: Permission) {
    && cfg.command != Authorize && |cfg.interfaces| <= MAX_SOURCES
    && st.caps == Some(CapabilitiesOf(cfg, enabled, permission))
    && st.sources == V.SourceMap(CapabilitiesOf(cfg, enabled, permission).sources)
  }

  ghost predicate InScan(cfg: Config, s: Process, st: V.Progress, k: nat, count: nat) {
    && cfg.command == Scan && k <= |Chosen(cfg)| && Chosen(cfg) != []
    && count == s.writer.observations <= cfg.limit
    && Offering(cfg, st, true, Authorized)
  }

  ghost predicate ScanOpen(cfg: Config, s: Process, st: V.Progress, k: nat, begin: u64, scanId: string) {
    && k < |Chosen(cfg)| && V.UuidOk(scanId) && scanId in st.scans
    && st.scans[scanId].source == SourceId(cfg.session, NameAt(cfg, k))
    && st.scans[scanId].started == begin && begin <= s.now && st.scans[scanId].startReceipt <= s.now
    && st.caps.Some? && st.caps.value.nearbyScan.state == Available
  }

  ghost predicate Progressed(cfg: Config, w: Writer, st: V.Progress) {
    && V.StartsWithHello(w.records) && w.records[0].body.hello == HelloOf(cfg)
    && V.AcceptsPrefix(cfg.session, w.records, |w.records|)
    && st == V.After(w.records, |w.records|)
  }

  ghost predicate Live(cfg: Config, s: Process) {
    var st := V.After(s.writer.records, |s.writer.records|);
    && Progressed(cfg, s.writer, st)
    && !st.ended && st.previous <= s.now && |st.observations| == s.writer.observations
    && PcLive(cfg, s, st)
  }

  const STREAM_BOUND: nat := 3 + MAX_SOURCES + MAX_OBSERVATIONS

  ghost predicate Inv(cfg: Config, s: Process) {
    if s.writer.ended then
      && 0 < |s.writer.records| <= STREAM_BOUND
      && (V.Accepted(cfg.session, s.writer.records) <==> s.writer.records[0].body.HelloBody?)
      && s.writer.observations < 0x1_0000
    else if s.pc.BeforeHello? then
      s.writer == Writer([], false, 0)
    else
      Live(cfg, s)
  }

  // ----- Extending an accepted prefix -----

  lemma {:induction false} AfterAppend(rs: seq<Record>, r: Record, n: nat)
    requires n <= |rs|
    ensures V.After(rs + [r], n) == V.After(rs, n)
  {
    if n > 0 {
      AfterAppend(rs, r, n - 1);
    }
  }

  lemma {:induction false} AcceptAppend(cfg: Config, rs: seq<Record>, r: Record)
    requires V.StartsWithHello(rs) && V.AcceptsPrefix(cfg.session, rs, |rs|)
    requires V.Accepts(rs[0].body.hello, cfg.session, V.After(rs, |rs|), |rs|, r)
    ensures V.StartsWithHello(rs + [r]) && (rs + [r])[0] == rs[0]
    ensures V.AcceptsPrefix(cfg.session, rs + [r], |rs| + 1)
    ensures V.After(rs + [r], |rs| + 1) == V.Advance(V.After(rs, |rs|), r)
  {
    var more := rs + [r];
    AfterAppend(rs, r, |rs|);
    forall i | 0 <= i < |more| ensures V.AcceptsAt(rs[0].body.hello, cfg.session, more, i) {
      AfterAppend(rs, r, i);
      if i < |rs| {
        assert V.AcceptsAt(rs[0].body.hello, cfg.session, rs, i);
      }
    }
  }

  // ----- What the producer says is what the contract asks -----

  lemma {:induction false} SourceFits(cfg: Config, k: nat)
    requires Trusted(cfg) && k < |Chosen(cfg)|
    ensures V.SourceOk(SourceOf(cfg, NameAt(cfg, k)), HelloOf(cfg), cfg.session)
    ensures Chosen(cfg)[k] in Chosen(cfg)
  {
    assert Chosen(cfg)[k] in Chosen(cfg);
  }

  lemma {:induction false} SourceIdsDiffer(session: string, a: string, b: string)
    requires a != b
    ensures SourceId(session, a) != SourceId(session, b)
  {
    assert SourceId(session, a)[|session| + 1..] == a;
    assert SourceId(session, b)[|session| + 1..] == b;
  }

  lemma {:induction false} SourcesDistinct(cfg: Config, enabled: bool, permission: Permission)
    requires Trusted(cfg)
    ensures V.DistinctSources(CapabilitiesOf(cfg, enabled, permission).sources)
  {
    var chosen := Chosen(cfg);
    var listed := CapabilitiesOf(cfg, enabled, permission).sources;
    forall a, b | 0 <= a < b < |listed| ensures listed[a].source.sourceId != listed[b].source.sourceId {
      assert chosen[a] in chosen && chosen[b] in chosen;
      SourceIdsDiffer(cfg.session, chosen[a].name.value, chosen[b].name.value);
    }
  }

  lemma {:induction false} OfferHonest(cfg: Config, enabled: bool, permission: Permission)
    requires Trusted(cfg)
    ensures V.OffersOk(CapabilitiesOf(cfg, enabled, permission))
  {
    var chosen, c := Chosen(cfg), CapabilitiesOf(cfg, enabled, permission);
    if i :| i in chosen && i.powerOn {
      var k :| 0 <= k < |chosen| && chosen[k] == i;
      assert c.sources[k].powerOn && c.sources[k] in c.sources;
    }
    if e :| e in c.sources && e.powerOn {
      var k :| 0 <= k < |chosen| && c.sources[k] == e;
      assert chosen[k] in chosen && chosen[k].powerOn;
    }
  }

  lemma {:induction false} CapabilitiesFit(cfg: Config, enabled: bool, permission: Permission)
    requires Trusted(cfg) && |cfg.interfaces| <= MAX_SOURCES
    ensures V.CapabilitiesOk(CapabilitiesOf(cfg, enabled, permission), HelloOf(cfg), cfg.session)
  {
    var c := CapabilitiesOf(cfg, enabled, permission);
    SourcesDistinct(cfg, enabled, permission);
    OfferHonest(cfg, enabled, permission);
    forall e | e in c.sources ensures V.ListedOk(e, HelloOf(cfg), cfg.session) {
      var k :| 0 <= k < |c.sources| && c.sources[k] == e;
      SourceFits(cfg, k);
    }
  }

  lemma {:induction false} MeasurementFits(cfg: Config, id: string, scanId: string, k: nat, begin: u64, end: u64, n: Network)
    requires Trusted(cfg) && k < |Chosen(cfg)|
    ensures V.MeasurementOk(ObservationOf(cfg, id, scanId, NameAt(cfg, k), begin, end, n), HelloOf(cfg))
  {
  }

  /** The source of the k-th interface is the one its listing declared. */
  lemma {:induction false} ListedSource(cfg: Config, k: nat, enabled: bool, permission: Permission)
    requires Trusted(cfg) && k < |Chosen(cfg)|
    ensures
      var sources := V.SourceMap(CapabilitiesOf(cfg, enabled, permission).sources);
      var id := SourceId(cfg.session, NameAt(cfg, k));
      && id in sources && sources[id].source == SourceOf(cfg, NameAt(cfg, k))
      && sources[id].powerOn == Chosen(cfg)[k].powerOn
  {
    var listed := CapabilitiesOf(cfg, enabled, permission).sources;
    SourcesDistinct(cfg, enabled, permission);
    T.SourceMapContents(listed, SourceId(cfg.session, NameAt(cfg, k)));
    assert listed[k] in listed;
  }

  // ----- Every step keeps the invariant -----

  lemma {:induction false} LiveBound(cfg: Config, s: Process)
    requires Trusted(cfg) && Live(cfg, s)
    ensures |s.writer.records| + 1 <= STREAM_BOUND && s.writer.observations < 0x1_0000
  {
  }

  /** A terminal that fits the state ends the stream acceptably. */
  lemma {:induction false} FinishKeeps(cfg: Config, s: Process, s': Process, t: Terminal)
    requires Trusted(cfg) && Live(cfg, s) && !s.writer.ended && s.writer.observations < 0x1_0000
    requires V.TerminalOk(CompleteOf(s.writer, t), HelloOf(cfg))
    requires t.status == Ok ==>
               var st := V.After(s.writer.records, |s.writer.records|);
               match cfg.command
               case Probe => st.caps.Some?
               case Scan => st.scans != map[] && st.caps.Some? && st.caps.value.nearbyScan.state == Available
               case Authorize => st.auth.Some? && V.ConsentGiven(st.auth.value, CompleteOf(s.writer, t))
    requires s'.writer == FinishTo(s.writer, s.now, t)
    ensures Inv(cfg, s')
  {
    LiveBound(cfg, s);
    var rs, st := s.writer.records, V.After(s.writer.records, |s.writer.records|);
    var r := Record(s.now, CompleteBody(CompleteOf(s.writer, t)));
    assert (st.observations != {}) == (|st.observations| > 0);
    assert V.CompleteFollows(HelloOf(cfg), st, CompleteOf(s.writer, t));
    AcceptAppend(cfg, rs, r);
  }

  /** A record that fits the state extends the live prefix. */
  lemma {:induction false} EmitKeeps(cfg: Config, s: Process, s': Process, body: Body, pc: Pc)
    requires Live(cfg, s) && !s.writer.ended && Emits(s, s', body, pc) && !body.CompleteBody?
    requires
      var st := V.After(s.writer.records, |s.writer.records|);
      V.Accepts(HelloOf(cfg), cfg.session, st, |s.writer.records|, Record(s.now, body))
    ensures
      var st' := V.Advance(V.After(s.writer.records, |s.writer.records|), Record(s.now, body));
      && !s'.writer.ended && |s'.writer.records| == |s.writer.records| + 1
      && Progressed(cfg, s'.writer, st')
      && !st'.ended && st'.previous == s'.now
      && |st'.observations| == s'.writer.observations
  {
    AcceptAppend(cfg, s.writer.records, Record(s.now, body));
  }

  lemma {:induction false} HelloKeeps(cfg: Config, s: Process, s': Process)
    requires Trusted(cfg) && s.pc.BeforeHello? && s.writer == Writer([], false, 0) && HelloStep(cfg, s, s')
    ensures Live(cfg, s') && !s'.writer.ended
  {
    var rs := s'.writer.records;
    assert rs == [Record(s.now, HelloBody(HelloOf(cfg)))];
    assert V.After(rs, 0) == V.FRESH;
    assert V.After(rs, 1) == V.Advance(V.FRESH, rs[0]);
    assert V.AcceptsAt(HelloOf(cfg), cfg.session, rs, 0);
  }

  lemma {:induction false} AskKeeps(cfg: Config, s: Process, s': Process, enabled: bool, permission: Permission)
    requires Trusted(cfg) && Live(cfg, s) && !s.writer.ended && AskStep(s, s', enabled, permission)
    ensures Live(cfg, s') && !s'.writer.ended
  {
    var a := Authorization(permission, true, enabled, MayRequest(enabled, permission));
    EmitKeeps(cfg, s, s', AuthorizationBody(a), s'.pc);
  }

  lemma {:induction false} AnswerKeeps(cfg: Config, s: Process, s': Process, enabled: bool, permission: Permission, cause: Cause)
    requires Trusted(cfg) && Live(cfg, s) && !s.writer.ended && AnswerStep(s, s', enabled, permission, cause)
    ensures Inv(cfg, s')
  {
    FinishKeeps(cfg, s, s', PermissionTerminal(enabled, permission, cause));
  }

  lemma {:induction false} ListKeeps(cfg: Config, s: Process, s': Process, enabled: bool, permission: Permission)
    requires Trusted(cfg) && Live(cfg, s) && !s.writer.ended && ListStep(cfg, s, s', enabled, permission)
    ensures Live(cfg, s') && !s'.writer.ended
  {
    CapabilitiesFit(cfg, enabled, permission);
    EmitKeeps(cfg, s, s', CapabilitiesBody(CapabilitiesOf(cfg, enabled, permission)), s'.pc);
  }

  lemma {:induction false} FreshScanAccepted(cfg: Config, w: Writer, st: V.Progress, id: string)
    requires Progressed(cfg, w, st) && FreshScan(w, id)
    ensures id !in st.scans
  {
    T.PrefixMeans(cfg.session, w.records, |w.records|);
  }

  lemma {:induction false} FreshObservationAccepted(cfg: Config, w: Writer, st: V.Progress, id: string)
    requires Progressed(cfg, w, st) && FreshObservation(w, id)
    ensures id !in st.observations
  {
    T.PrefixMeans(cfg.session, w.records, |w.records|);
  }

  lemma {:induction false} PoweredMeansAvailable(cfg: Config, k: nat)
    requires k < |Chosen(cfg)| && Chosen(cfg)[k].powerOn
    ensures CapabilitiesOf(cfg, true, Authorized).nearbyScan.state == Available
  {
    assert Chosen(cfg)[k] in Chosen(cfg);
  }

  lemma {:induction false} StartKeeps(cfg: Config, s: Process, s': Process, id: string)
    requires Trusted(cfg) && Live(cfg, s) && !s.writer.ended && FreshScan(s.writer, id) && StartStep(cfg, s, s', id)
    ensures Live(cfg, s') && !s'.writer.ended
  {
    var st, k := V.After(s.writer.records, |s.writer.records|), s.pc.k;
    FreshScanAccepted(cfg, s.writer, st, id);
    ListedSource(cfg, k, true, Authorized);
    PoweredMeansAvailable(cfg, k);
    EmitKeeps(cfg, s, s', StartBody(Start(s.pc.begin, false, id, SourceId(cfg.session, NameAt(cfg, k)))), s'.pc);
  }

  lemma {:induction false} ReportFollows(cfg: Config, s: Process, id: string, network: Network)
    requires Trusted(cfg) && Live(cfg, s) && FreshObservation(s.writer, id)
    requires s.pc.Reporting? && s.pc.count < cfg.limit
    ensures V.ObservationFollows(HelloOf(cfg), V.After(s.writer.records, |s.writer.records|), s.now,
                                 ObservationOf(cfg, id, s.pc.scanId, NameAt(cfg, s.pc.k), s.pc.begin, s.pc.end, network))
  {
    var st := V.After(s.writer.records, |s.writer.records|);
    FreshObservationAccepted(cfg, s.writer, st, id);
    ListedSource(cfg, s.pc.k, true, Authorized);
  }

  lemma {:induction false} ReportWellFormed(cfg: Config, pc: Pc, id: string, network: Network)
    requires Trusted(cfg) && cfg.command == Scan && V.UuidOk(id)
    requires pc.Reporting? && pc.k < |Chosen(cfg)| && V.UuidOk(pc.scanId)
    ensures V.ObservationWellFormed(HelloOf(cfg), cfg.session,
                                    ObservationOf(cfg, id, pc.scanId, NameAt(cfg, pc.k), pc.begin, pc.end, network))
  {
    SourceFits(cfg, pc.k);
    MeasurementFits(cfg, id, pc.scanId, pc.k, pc.begin, pc.end, network);
  }

  lemma {:induction false} ReportKeeps(cfg: Config, s: Process, s': Process, id: string)
    requires Trusted(cfg) && Live(cfg, s) && !s.writer.ended && FreshObservation(s.writer, id) && ReportStep(cfg, s, s', id)
    ensures Live(cfg, s') && !s'.writer.ended
  {
    var pc, network := s.pc, s.pc.networks[0];
    var o := ObservationOf(cfg, id, pc.scanId, NameAt(cfg, pc.k), pc.begin, pc.end, network);
    ReportFollows(cfg, s, id, network);
    ReportWellFormed(cfg, pc, id, network);
    EmitKeeps(cfg, s, s', ObservationBody(o), s'.pc);
  }

  lemma {:induction false} ConcludeKeeps(cfg: Config, s: Process, s': Process, t: Terminal)
    requires Trusted(cfg) && Live(cfg, s) && !s.writer.ended && ConcludeStep(cfg, s, s', t)
    ensures Inv(cfg, s')
  {
    FinishKeeps(cfg, s, s', t);
  }

  lemma {:induction false} TerminatorKeeps(cfg: Config, s: Process, s': Process, status: Status, cause: Cause)
    requires Trusted(cfg) && Inv(cfg, s) && !s.writer.ended && TerminatorStep(s, s', status, cause)
    ensures Inv(cfg, s')
  {
    if !s.pc.BeforeHello? {
      FinishKeeps(cfg, s, s', Plain(status, cause));
    }
  }

  /** Once the stream has ended, nothing anybody does changes it. */
  lemma {:induction false} EndedStaysEnded(cfg: Config, s: Process, s': Process)
    requires s.writer.ended && Step(cfg, s, s')
    ensures s'.writer == s.writer
  {
  }

  lemma {:induction false} QuietStepKeeps(cfg: Config, s: Process, s': Process)
    requires Live(cfg, s) && !s.writer.ended
    requires TickStep(s, s') || EnterScanStep(cfg, s, s') || ReadClockStep(cfg, s, s') || NextStep(s, s')
             || exists returned :: ScanReturnsStep(s, s', returned)
    ensures Live(cfg, s') && !s'.writer.ended
  {
  }

  /** A step that asks for, receives or lists permissions and sources. */
  ghost predicate OpeningStep(cfg: Config, s: Process, s': Process) {
    || (exists enabled, permission :: AskStep(s, s', enabled, permission))
    || (exists enabled, permission, cause :: AnswerStep(s, s', enabled, permission, cause))
    || (exists enabled, permission :: ListStep(cfg, s, s', enabled, permission))
  }

  lemma {:induction false} OpeningKeeps(cfg: Config, s: Process, s': Process)
    requires Trusted(cfg) && Live(cfg, s) && !s.writer.ended && OpeningStep(cfg, s, s')
    ensures Inv(cfg, s')
  {
    if enabled, permission :| AskStep(s, s', enabled, permission) {
      AskKeeps(cfg, s, s', enabled, permission);
    } else if enabled, permission, cause :| AnswerStep(s, s', enabled, permission, cause) {
      AnswerKeeps(cfg, s, s', enabled, permission, cause);
    } else {
      var enabled, permission :| ListStep(cfg, s, s', enabled, permission);
      ListKeeps(cfg, s, s', enabled, permission);
    }
  }

  lemma {:induction false} LiveStepKeeps(cfg: Config, s: Process, s': Process)
    requires Trusted(cfg) && Live(cfg, s) && !s.writer.ended && !s.pc.BeforeHello? && Step(cfg, s, s')
    ensures Inv(cfg, s')
  {
    if OpeningStep(cfg, s, s') {
      OpeningKeeps(cfg, s, s');
    } else if id :| FreshScan(s.writer, id) && StartStep(cfg, s, s', id) {
      StartKeeps(cfg, s, s', id);
    } else if id :| FreshObservation(s.writer, id) && ReportStep(cfg, s, s', id) {
      ReportKeeps(cfg, s, s', id);
    } else if t :| ConcludeStep(cfg, s, s', t) {
      ConcludeKeeps(cfg, s, s', t);
    } else if status, cause :| TerminatorStep(s, s', status, cause) {
      TerminatorKeeps(cfg, s, s', status, cause);
    } else {
      QuietStepKeeps(cfg, s, s');
    }
  }

  lemma {:induction false} StepKeepsInv(cfg: Config, s: Process, s': Process)
    requires Trusted(cfg) && Inv(cfg, s) && Step(cfg, s, s')
    ensures Inv(cfg, s')
  {
    if s.writer.ended {
      EndedStaysEnded(cfg, s, s');
    } else if s.pc.BeforeHello? {
      if HelloStep(cfg, s, s') {
        HelloKeeps(cfg, s, s');
      } else if status, cause :| TerminatorStep(s, s', status, cause) {
        TerminatorKeeps(cfg, s, s', status, cause);
      }
    } else {
      LiveStepKeeps(cfg, s, s');
    }
  }

  lemma {:induction false} RunKeepsInv(cfg: Config, run: seq<Process>, t: nat)
    requires Trusted(cfg) && IsRun(cfg, run) && t < |run|
    ensures Inv(cfg, run[t])
  {
    if t > 0 {
      RunKeepsInv(cfg, run, t - 1);
      assert StepAt(cfg, run, t);
      StepKeepsInv(cfg, run[t - 1], run[t]);
    }
  }

  /**
    Whatever the interleaving of worker, deadline and signals, a finished stream is
    within the consumer's record limit, and the consumer accepts it exactly when
    the hello got out before the terminator.
   */
  lemma {:induction false} FinishedStreamAccepted(cfg: Config, run: seq<Process>, t: nat)
    requires Trusted(cfg) && IsRun(cfg, run) && t < |run| && run[t].writer.ended
    ensures 0 < |run[t].writer.records| <= STREAM_BOUND <= MAX_RECORDS
    ensures V.Accepted(cfg.session, run[t].writer.records) <==> run[t].writer.records[0].body.HelloBody?
  {
    RunKeepsInv(cfg, run, t);
  }

  /** The race is real: a signal before the hello leaves a stream the consumer refuses. */
  lemma {:induction false} SignalBeforeHelloIsRefused(cfg: Config, cause: Cause)
    requires CauseText(cause)
    ensures exists run: seq<Process> ::
              && IsRun(cfg, run) && run[|run| - 1].writer.ended
              && !V.Accepted(cfg.session, run[|run| - 1].writer.records)
  {
    var s := Process(Writer([], false, 0), 0, BeforeHello);
    var s' := s.(writer := FinishTo(s.writer, 0, Plain(Cancelled, cause)));
    assert TerminatorStep(s, s', Cancelled, cause);
    var run := [s, s'];
    assert forall t: nat {:trigger StepAt(cfg, run, t)} :: StepAt(cfg, run, t);
    assert IsRun(cfg, run);
    assert !run[1].writer.records[0].body.HelloBody?;
  }
}
