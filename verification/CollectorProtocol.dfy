/**
  Events of the macOS collector stream, protocol version 1.

  Records are modelled after their JSON text has been read: decimal strings are
  numbers, hardware addresses and network names are octets.  A field whose text
  the contract fixes is `Fixed` when it holds that text.
 */
module CollectorProtocol {

  type u8 = n: nat | n < 0x100
  type u16 = n: nat | n < 0x1_0000
  type u32 = n: nat | n < 0x1_0000_0000
  type u64 = n: nat | n < 0x1_0000_0000_0000_0000

  const MAX_RECORDS: nat := 4164
  const MAX_RECORD_BYTES: nat := 16384
  const MAX_SOURCES: nat := 32
  const MAX_OBSERVATIONS: nat := 4096

  datatype Option<T> = None | Some(value: T)

  datatype Reason =
    | SourceDidNotProvide | NotCalibrated | UnsupportedSourceEnum | InvalidOrUnavailableSourceValue
    | NotSupportedByCollector | NotImplementedByCollector | NotCollected | NotRetainedByCollector | Redacted

  /** Evidence: a known value or a reason.  Evidence that can only be unknown is just a reason. */
  datatype E<T> = Known(value: T) | Unknown(reason: Reason)
  {
    function Value(): Option<T> { if Known? then Some(value) else None }
  }

  datatype Text = Fixed | Other(text: string)

  datatype Command = Probe | Scan | Authorize
  datatype Policy = RedactedIdentifiers | ExplicitUnredacted
  datatype Permission = Authorized | Denied | Restricted | NotDetermined | UnknownPermission
  datatype Status = Ok | Partial | PermissionRequired | Unsupported | Unavailable | Error | Timeout | Cancelled
  datatype OfferState = Available | NotAvailable | Conditional | OtherState(text: string)
  datatype Cause = LocationAuthorized | OtherCause(text: string)

  datatype Hello = Hello(
    clockEpoch: string, collector: Text, collectorBuild: string, collectorVersion: string,
    command: Command, policy: Policy, maxObservations: u16, maxRecordBytes: u32,
    osVersion: string, timeoutSeconds: u8)

  datatype Source = Source(
    sourceId: string, interfaceName: string, identityScope: Text,
    physicalRadioId: Reason, driverVersion: Reason, firmwareVersion: Reason,
    collector: Text, collectorVersion: string, collectorBuild: string,
    sourceKind: Text, sourceApi: Text, sourceSchema: Text,
    frameworkVersion: string, osVersion: string)

  datatype Listed = Listed(source: Source, powerOn: bool, supportedChannels: E<u16>, bands: seq<u16>)

  datatype Offer = Offer(state: OfferState, condition: string)

  datatype Capabilities = Capabilities(
    locationServicesEnabled: bool, permission: Permission, sources: seq<Listed>,
    nearbyScan: Offer, noiseDbm: Offer, channelWidth: Offer,
    monitorFrames: Reason, channelDwell: Reason, channelHopping: Reason, perChainSignal: Reason,
    rawPayloadPolicy: Text, phyMetadata: Reason, captureTimestamp: Reason, position: Reason)

  datatype Authorization = Authorization(
    state: Permission, requestedByOperator: bool, locationServicesEnabled: bool, promptRequested: bool)

  datatype Start = Start(apiStarted: u64, includeHidden: bool, scanId: string, sourceId: string)

  datatype Band = Band24 | Band5 | Band6 | OtherBand(text: string)

  datatype Channel = Channel(
    number: E<u16>, band: E<Band>, width: E<u16>, rawBand: u16, rawWidth: u16,
    frequency: Reason, centerFrequency: Reason, puncturing: Reason)

  datatype Observation = Observation(
    observationId: string, scanId: string, source: Source, evidenceClass: Text,
    windowStart: u64, windowEnd: u64, bssid: E<seq<u8>>, ssid: E<seq<u8>>,
    channel: E<Channel>, rssi: E<int>, noise: E<int>, measurementMethod: Text, calibration: Text,
    resultAge: Reason, dwell: Reason, phy: Reason, position: Reason, informationElements: Reason,
    quality: Text)

  datatype Complete = Complete(
    observationCount: u16, partial: bool, reason: Cause, status: Status,
    finalPermission: Option<Permission>, finalLocationServices: Option<bool>,
    nativeErrorDomain: Option<string>, nativeErrorCode: Option<int>)

  datatype Body =
    | HelloBody(hello: Hello)
    | CapabilitiesBody(capabilities: Capabilities)
    | AuthorizationBody(authorization: Authorization)
    | StartBody(start: Start)
    | ObservationBody(observation: Observation)
    | CompleteBody(complete: Complete)

  /** `time` is the receipt reading of the collector's monotonic clock. */
  datatype Record = Record(time: u64, body: Body)

  // ----- Field grammars common to producer and consumers -----

  predicate LowerHex(c: char) { '0' <= c <= '9' || 'a' <= c <= 'f' }

  predicate DashAt(i: int) { i == 8 || i == 13 || i == 18 || i == 23 }

  predicate UuidShape(s: string) {
    |s| == 36 && forall i | 0 <= i < 36 :: if DashAt(i) then s[i] == '-' else LowerHex(s[i])
  }

  predicate BuildHash(s: string) {
    |s| == 71 && s[..7] == "sha256:" && forall i | 7 <= i < 71 :: LowerHex(s[i])
  }

  predicate InterfaceName(s: string) {
    && 0 < |s| <= 64
    && forall c | c in s :: 'a' <= c <= 'z' || 'A' <= c <= 'Z' || '0' <= c <= '9' || c == '_'
  }

  predicate HardwareAddress(octets: seq<u8>) {
    |octets| == 6 && octets[0] % 2 == 0 && exists i | 0 <= i < 6 :: octets[i] != 0
  }

  predicate NetworkName(octets: seq<u8>) { 0 < |octets| <= 32 }

  function SourceId(session: string, name: string): string { session + ":" + name }

  function BandOf(raw: u16): Option<Band> {
    match raw
    case 1 => Some(Band24)
    case 2 => Some(Band5)
    case 3 => Some(Band6)
    case _ => None
  }

  function WidthOf(raw: u16): Option<u16> {
    match raw
    case 1 => Some(20)
    case 2 => Some(40)
    case 3 => Some(80)
    case 4 => Some(160)
    case _ => None
  }
}
