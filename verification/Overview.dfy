/** The network overview of a device: a scan merged with the configured endpoints and services, and
    the scan-free view built from the status history alone. */
module Overview {
  import opened Wrappers
  import opened Grouping
  import opened StatusHistory
  import opened TypedEntities
  import Blocks
  import Decimal
  import Ipv4

  // ----- configuration and scan -----

  datatype TypeRow = TypeRow(id: string, fields: Fields, mapping: Mapping)

  datatype EndpointRow = EndpointRow(id: string, typeId: string, createdAt: int, data: Data)

  datatype ServiceRow = ServiceRow(id: string, typeId: string, data: Data)

  datatype Config = Config(
    endpointTypes: seq<TypeRow>, serviceTypes: seq<TypeRow>, endpoints: seq<EndpointRow>,
    services: map<string, seq<ServiceRow>>)

  datatype ScanPort = ScanPort(key: string, status: Status)

  datatype Host = Host(ip: int, status: Status, ports: seq<ScanPort>)

  datatype Scan = Scan(hosts: seq<Host>, networkDefinition: string, subnetMask: nat, ports: seq<int>)

  // ----- the overview -----

  datatype Source = Configured | Default | Unidentified

  datatype MappedPort = MappedPort(
    port: Option<int>, status: Status, changedAt: Option<int>, source: Source,
    serviceId: Option<string>, typeId: Option<string>)

  /** The address shown for an entry: none, a probeable address, or any other stored value. */
  datatype ShownIp = NoIp | Addr(ip: int) | Other(value: Value)

  datatype MappedEndpoint = MappedEndpoint(
    ip: ShownIp, status: Status, changedAt: Option<int>, source: Source,
    endpointId: Option<string>, typeId: Option<string>, ports: seq<MappedPort>)

  /** Everything one build of the overview reads. */
  datatype Context = Context(
    cfg: Config, scan: Scan, hosts: map<int, Stamp>, ports: map<(int, int), Stamp>, now: int)

  // ----- roles -----

  function FindType(rows: seq<TypeRow>, id: string): Option<TypeRow> {
    if rows == [] then None else if rows[0].id == id then Some(rows[0]) else FindType(rows[1..], id)
  }

  /** The value stored for a role; a type default is never substituted. */
  function StoredRoleValue(data: Data, field: Option<string>): Value {
    if field.None? || Lookup(data, field.value) == Str("") then Null else Lookup(data, field.value)
  }

  /** `int(value)`, None where it raises. */
  function ToInt(v: Value): Option<int> {
    match v
    case Int(i) => Some(i)
    case Bool(b) => Some(if b then 1 else 0)
    case Float(r) => Some(if r >= 0.0 then r.Floor else -(-r).Floor)
    case Str(s) => if s != [] && Decimal.AllDigits(s) then Some(Decimal.Value(s)) else None
    case _ => None
  }

  function PortNumber(s: ServiceRow, t: TypeRow): Option<int> {
    ToInt(StoredRoleValue(s.data, RoleFieldKey(t.fields, t.mapping, "port")))
  }

  function StoredIp(e: EndpointRow, t: TypeRow): Value {
    StoredRoleValue(e.data, RoleFieldKey(t.fields, t.mapping, "ip"))
  }

  /** Only text can be a valid IPv4 address. */
  function ProbeableIp(v: Value): Option<int> {
    match v
    case Str(s) => (match Ipv4.Parse(s) case Some(a) => Some(a) case None => None)
    case _ => None
  }

  predicate Truthy(v: Value) {
    match v
    case Null => false
    case Bool(b) => b
    case Int(i) => i != 0
    case Float(r) => r != 0.0
    case Str(s) => s != ""
    case Json(text) => text != "[]" && text != "{}"
  }

  /** Rows whose type exists; the others are skipped everywhere. */
  function TypedEndpoints(types: seq<TypeRow>, rows: seq<EndpointRow>): seq<EndpointRow> {
    if rows == [] then []
    else
      var front := TypedEndpoints(types, rows[..|rows| - 1]);
      var last := rows[|rows| - 1];
      if FindType(types, last.typeId).Some? then front + [last] else front
  }

  function TypedServices(types: seq<TypeRow>, rows: seq<ServiceRow>): seq<ServiceRow> {
    if rows == [] then []
    else
      var front := TypedServices(types, rows[..|rows| - 1]);
      var last := rows[|rows| - 1];
      if FindType(types, last.typeId).Some? then front + [last] else front
  }

  function PortOf(types: seq<TypeRow>, s: ServiceRow): Option<int> {
    match FindType(types, s.typeId)
    case None => None
    case Some(t) => PortNumber(s, t)
  }

  function PortKey(types: seq<TypeRow>): ServiceRow -> Option<int> {
    s => PortOf(types, s)
  }

  function IpOf(types: seq<TypeRow>, e: EndpointRow): Option<int> {
    match FindType(types, e.typeId)
    case None => None
    case Some(t) => ProbeableIp(StoredIp(e, t))
  }

  function IpKey(types: seq<TypeRow>): EndpointRow -> Option<int> {
    e => IpOf(types, e)
  }

  function GetServices(cfg: Config, endpointId: string): seq<ServiceRow> {
    if endpointId in cfg.services then cfg.services[endpointId] else []
  }

  /** The services of an endpoint that can be listed. */
  function Listed(cfg: Config, endpointId: string): seq<ServiceRow> {
    TypedServices(cfg.serviceTypes, GetServices(cfg, endpointId))
  }

  // ----- endpoints sharing an address -----

  /** Text order, as Python compares strings. */
  predicate TextLeq(a: string, b: string) {
    a == [] || (b != [] && (a[0] < b[0] || (a[0] == b[0] && TextLeq(a[1..], b[1..]))))
  }

  predicate Older(a: EndpointRow, b: EndpointRow) {
    a.createdAt < b.createdAt || (a.createdAt == b.createdAt && TextLeq(a.id, b.id))
  }

  function Insert(e: EndpointRow, sorted: seq<EndpointRow>): seq<EndpointRow> {
    if sorted == [] || Older(e, sorted[0]) then [e] + sorted else [sorted[0]] + Insert(e, sorted[1..])
  }

  /** `list.sort` by creation time and id. */
  function SortByAge(rows: seq<EndpointRow>): seq<EndpointRow> {
    if rows == [] then [] else Insert(rows[0], SortByAge(rows[1..]))
  }

  /** The configured endpoints at an address, oldest first. */
  function Group(cfg: Config, ip: int): seq<EndpointRow> {
    SortByAge(Select(TypedEndpoints(cfg.endpointTypes, cfg.endpoints), IpKey(cfg.endpointTypes), Some(ip)))
  }

  function PortSet(types: seq<TypeRow>, services: seq<ServiceRow>): set<int> {
    set p | p in Keys(services, PortKey(types))
  }

  function ClaimedBy(cfg: Config, group: seq<EndpointRow>): set<int> {
    if group == [] then {}
    else ClaimedBy(cfg, group[..|group| - 1]) + PortSet(cfg.serviceTypes, Listed(cfg, group[|group| - 1].id))
  }

  /** Ports backed by a configured service of any endpoint at this address. */
  function Claimed(cfg: Config, ip: int): set<int> {
    ClaimedBy(cfg, Group(cfg, ip))
  }

  // ----- suggestions -----

  function DefaultOf(t: TypeRow, role: string): Value {
    match RoleFieldKey(t.fields, t.mapping, role)
    case None => Null
    case Some(k) => if k in t.fields then t.fields[k].default else Null
  }

  /** The first endpoint type whose default address is this one. */
  function SuggestedEndpointType(types: seq<TypeRow>, ip: int): Option<TypeRow> {
    if types == [] then None
    else if ProbeableIp(DefaultOf(types[0], "ip")) == Some(ip) then Some(types[0])
    else SuggestedEndpointType(types[1..], ip)
  }

  /** The first service type whose default port is this one. */
  function SuggestedServiceType(types: seq<TypeRow>, port: int): Option<TypeRow> {
    if types == [] then None
    else if ToInt(DefaultOf(types[0], "port")) == Some(port) then Some(types[0])
    else SuggestedServiceType(types[1..], port)
  }

  // ----- one service, one endpoint -----

  function UnknownPort(s: ServiceRow, port: Option<int>): MappedPort {
    MappedPort(port, Unknown, None, Configured, Some(s.id), Some(s.typeId))
  }

  function ConfiguredPort(s: ServiceRow, port: int, stamp: Stamp): MappedPort {
    MappedPort(Some(port), stamp.status, Some(stamp.changedAt), Configured, Some(s.id), Some(s.typeId))
  }

  /** The stored stamp, or offline as of now without history. */
  function LastKnown(previous: Option<Stamp>, now: int): Stamp {
    match previous
    case Some(stamp) => stamp
    case None => Stamp(Offline, now)
  }

  function LastKnownPort(c: Context, ip: int, s: ServiceRow): MappedPort {
    match PortOf(c.cfg.serviceTypes, s)
    case None => UnknownPort(s, None)
    case Some(p) => ConfiguredPort(s, p, LastKnown(Get(c.ports, (ip, p)), c.now))
  }

  function OfflinePort(c: Context, ip: int, s: ServiceRow): MappedPort {
    match PortOf(c.cfg.serviceTypes, s)
    case None => UnknownPort(s, None)
    case Some(p) => ConfiguredPort(s, p, Stamped(Get(c.ports, (ip, p)), Offline, c.now))
  }

  function LastKnownPorts(c: Context, ip: int): ServiceRow -> MappedPort {
    s => LastKnownPort(c, ip, s)
  }

  function OfflinePorts(c: Context, ip: int): ServiceRow -> MappedPort {
    s => OfflinePort(c, ip, s)
  }

  function UnknownPorts(cfg: Config): ServiceRow -> MappedPort {
    s => UnknownPort(s, PortOf(cfg.serviceTypes, s))
  }

  function StampedPorts(port: int, stamp: Stamp): ServiceRow -> MappedPort {
    s => ConfiguredPort(s, port, stamp)
  }

  function ConfiguredEntry(e: EndpointRow, ip: int, stamp: Stamp, ports: seq<MappedPort>): MappedEndpoint {
    MappedEndpoint(Addr(ip), stamp.status, Some(stamp.changedAt), Configured, Some(e.id), Some(e.typeId), ports)
  }

  /** An endpoint that was not probed: its last persisted state. */
  function LastKnownEntry(c: Context, ip: int, e: EndpointRow): MappedEndpoint {
    ConfiguredEntry(e, ip, LastKnown(Get(c.hosts, ip), c.now),
                    Map(Listed(c.cfg, e.id), LastKnownPorts(c, ip)))
  }

  /** An endpoint the scan covered but did not find. */
  function OfflineEntry(c: Context, ip: int, e: EndpointRow): MappedEndpoint {
    ConfiguredEntry(e, ip, Stamped(Get(c.hosts, ip), Offline, c.now),
                    Map(Listed(c.cfg, e.id), OfflinePorts(c, ip)))
  }

  /** An endpoint without a probeable address. */
  function EntryWithoutIp(cfg: Config, e: EndpointRow): MappedEndpoint {
    var stored := match FindType(cfg.endpointTypes, e.typeId)
      case None => Null
      case Some(t) => StoredIp(e, t);
    MappedEndpoint(if Truthy(stored) then Other(stored) else NoIp, Unknown, None, Configured,
                   Some(e.id), Some(e.typeId), Map(Listed(cfg, e.id), UnknownPorts(cfg)))
  }

  // ----- a scanned host -----

  function PortText(key: string): Option<int> {
    ToInt(Str(key))
  }

  /** The decodable ports of a host. */
  function ScannedPorts(ports: seq<ScanPort>): seq<int> {
    if ports == [] then []
    else
      var front := ScannedPorts(ports[..|ports| - 1]);
      match PortText(ports[|ports| - 1].key)
      case None => front
      case Some(p) => front + [p]
  }

  /** What one scanned port contributes to one entry of its host. */
  function PortEntry(c: Context, h: Host, claimed: set<int>, services: seq<ServiceRow>, first: bool, sp: ScanPort):
    seq<MappedPort>
  {
    match PortText(sp.key)
    case None => []
    case Some(p) =>
      var stamp := Stamped(Get(c.ports, (h.ip, p)), sp.status, c.now);
      var backing := Select(services, PortKey(c.cfg.serviceTypes), Some(p));
      if backing != [] then Map(backing, StampedPorts(p, stamp))
      else if p in claimed || !first then []
      else
        match SuggestedServiceType(c.cfg.serviceTypes, p)
        case Some(t) => [MappedPort(Some(p), stamp.status, Some(stamp.changedAt), Default, None, Some(t.id))]
        case None => [MappedPort(Some(p), stamp.status, Some(stamp.changedAt), Unidentified, None, None)]
  }

  function PortEntriesOf(c: Context, h: Host, claimed: set<int>, services: seq<ServiceRow>, first: bool):
    ScanPort -> seq<MappedPort>
  {
    (sp: ScanPort) => PortEntry(c, h, claimed, services, first, sp)
  }

  /** The state of a configured port the host did not report: confirmed offline when the scan asked
      for it, otherwise its last known state. */
  function MissedStamp(c: Context, ip: int, p: int): Stamp {
    if p in c.scan.ports then Stamped(Get(c.ports, (ip, p)), Offline, c.now)
    else LastKnown(Get(c.ports, (ip, p)), c.now)
  }

  function MissedEntry(c: Context, h: Host, services: seq<ServiceRow>, p: int): seq<MappedPort> {
    if p in ScannedPorts(h.ports) then []
    else Map(Select(services, PortKey(c.cfg.serviceTypes), Some(p)), StampedPorts(p, MissedStamp(c, h.ip, p)))
  }

  function MissedEntriesOf(c: Context, h: Host, services: seq<ServiceRow>): int -> seq<MappedPort> {
    p => MissedEntry(c, h, services, p)
  }

  function HostPorts(c: Context, h: Host, claimed: set<int>, services: seq<ServiceRow>, first: bool): seq<MappedPort> {
    var key := PortKey(c.cfg.serviceTypes);
    Flat(h.ports, PortEntriesOf(c, h, claimed, services, first))
    + Flat(Keys(services, key), MissedEntriesOf(c, h, services))
    + Map(Select(services, key, None), UnknownPorts(c.cfg))
  }

  function HostEntry(c: Context, h: Host, endpoint: Option<EndpointRow>, first: bool): MappedEndpoint {
    var stamp := Stamped(Get(c.hosts, h.ip), h.status, c.now);
    match endpoint
    case Some(e) =>
      ConfiguredEntry(e, h.ip, stamp, HostPorts(c, h, Claimed(c.cfg, h.ip), Listed(c.cfg, e.id), first))
    case None =>
      var ports := HostPorts(c, h, Claimed(c.cfg, h.ip), [], first);
      match SuggestedEndpointType(c.cfg.endpointTypes, h.ip)
      case Some(t) =>
        MappedEndpoint(Addr(h.ip), stamp.status, Some(stamp.changedAt), Default, None, Some(t.id), ports)
      case None =>
        MappedEndpoint(Addr(h.ip), stamp.status, Some(stamp.changedAt), Unidentified, None, None, ports)
  }

  function LaterEntries(c: Context, h: Host): EndpointRow -> MappedEndpoint {
    e => HostEntry(c, h, Some(e), false)
  }

  /** All entries of a scanned host: one per configured endpoint, or a single unassigned one. */
  function EntriesOf(c: Context, h: Host): seq<MappedEndpoint> {
    var group := Group(c.cfg, h.ip);
    if group == [] then [HostEntry(c, h, None, true)]
    else [HostEntry(c, h, Some(group[0]), true)] + Map(group[1..], LaterEntries(c, h))
  }

  function HostEntriesOf(c: Context): Host -> seq<MappedEndpoint> {
    h => EntriesOf(c, h)
  }

  // ----- endpoints the scan did not report -----

  function ScannedIps(hosts: seq<Host>): seq<int> {
    seq(|hosts|, i requires 0 <= i < |hosts| => hosts[i].ip)
  }

  /** Whether the scan covered the address; a scan network that cannot be read covers nothing. */
  predicate InScannedNetwork(scan: Scan, ip: int) {
    match Ipv4.Parse(scan.networkDefinition)
    case None => false
    case Some(a) =>
      scan.subnetMask <= 32 && ip >= 0 &&
      Blocks.Shift(ip, 32 - scan.subnetMask) == Blocks.Shift(a, 32 - scan.subnetMask)
  }

  function AbsentEntry(c: Context, ip: int): EndpointRow -> MappedEndpoint {
    e => if InScannedNetwork(c.scan, ip) then OfflineEntry(c, ip, e) else LastKnownEntry(c, ip, e)
  }

  function AbsentEntries(c: Context, ip: int): seq<MappedEndpoint> {
    if ip in ScannedIps(c.scan.hosts) then [] else Map(Group(c.cfg, ip), AbsentEntry(c, ip))
  }

  function AbsentEntriesOf(c: Context): int -> seq<MappedEndpoint> {
    ip => AbsentEntries(c, ip)
  }

  function EntriesWithoutIp(cfg: Config): EndpointRow -> MappedEndpoint {
    e => EntryWithoutIp(cfg, e)
  }

  /** The addresses of the configured endpoints, in order of first appearance. */
  function ConfiguredIps(cfg: Config): seq<int> {
    Keys(TypedEndpoints(cfg.endpointTypes, cfg.endpoints), IpKey(cfg.endpointTypes))
  }

  function WithoutIp(cfg: Config): seq<EndpointRow> {
    Select(TypedEndpoints(cfg.endpointTypes, cfg.endpoints), IpKey(cfg.endpointTypes), None)
  }

  function NetworkOverview(c: Context): seq<MappedEndpoint> {
    Flat(c.scan.hosts, HostEntriesOf(c))
    + Flat(ConfiguredIps(c.cfg), AbsentEntriesOf(c))
    + Map(WithoutIp(c.cfg), EntriesWithoutIp(c.cfg))
  }

  // ----- the scan-free view -----

  function LastKnownView(c: Context, e: EndpointRow): MappedEndpoint {
    match IpOf(c.cfg.endpointTypes, e)
    case Some(ip) => LastKnownEntry(c, ip, e)
    case None => EntryWithoutIp(c.cfg, e)
  }

  function LastKnownViews(c: Context): EndpointRow -> MappedEndpoint {
    e => LastKnownView(c, e)
  }

  function LastKnownOverview(c: Context): seq<MappedEndpoint> {
    Map(TypedEndpoints(c.cfg.endpointTypes, c.cfg.endpoints), LastKnownViews(c))
  }

  // ----- what a scan writes to the status history -----

  type HostLog = seq<(int, Status)>
  type PortLog = seq<((int, int), Status)>

  function ScannedWrite(h: Host, sp: ScanPort): PortLog {
    match PortText(sp.key)
    case None => []
    case Some(p) => [((h.ip, p), sp.status)]
  }

  function ScannedWritesOf(h: Host): ScanPort -> PortLog {
    (sp: ScanPort) => ScannedWrite(h, sp)
  }

  function MissedWrite(scan: Scan, h: Host, p: int): PortLog {
    if p !in ScannedPorts(h.ports) && p in scan.ports then [((h.ip, p), Offline)] else []
  }

  function MissedWritesOf(scan: Scan, h: Host): int -> PortLog {
    p => MissedWrite(scan, h, p)
  }

  function ServiceWrites(cfg: Config, scan: Scan, h: Host, services: seq<ServiceRow>): PortLog {
    Flat(h.ports, ScannedWritesOf(h)) + Flat(Keys(services, PortKey(cfg.serviceTypes)), MissedWritesOf(scan, h))
  }

  function EntryWrites(cfg: Config, scan: Scan, h: Host): EndpointRow -> PortLog {
    (e: EndpointRow) => ServiceWrites(cfg, scan, h, Listed(cfg, e.id))
  }

  /** Every port status written for a scanned host, in the order it happens. */
  function HostWrites(cfg: Config, scan: Scan, h: Host): PortLog {
    var group := Group(cfg, h.ip);
    if group == [] then ServiceWrites(cfg, scan, h, []) else Flat(group, EntryWrites(cfg, scan, h))
  }

  function HostWritesOf(cfg: Config, scan: Scan): Host -> PortLog {
    h => HostWrites(cfg, scan, h)
  }

  function OfflineWrite(cfg: Config, ip: int, s: ServiceRow): PortLog {
    match PortOf(cfg.serviceTypes, s)
    case None => []
    case Some(p) => [((ip, p), Offline)]
  }

  function OfflineWritesOf(cfg: Config, ip: int): ServiceRow -> PortLog {
    s => OfflineWrite(cfg, ip, s)
  }

  function OfflineWrites(cfg: Config, ip: int): EndpointRow -> PortLog {
    (e: EndpointRow) => Flat(Listed(cfg, e.id), OfflineWritesOf(cfg, ip))
  }

  predicate ConfirmedOffline(scan: Scan, ip: int) {
    ip !in ScannedIps(scan.hosts) && InScannedNetwork(scan, ip)
  }

  function AbsentWrites(cfg: Config, scan: Scan, ip: int): PortLog {
    if ConfirmedOffline(scan, ip) then Flat(Group(cfg, ip), OfflineWrites(cfg, ip)) else []
  }

  function AbsentWritesOf(cfg: Config, scan: Scan): int -> PortLog {
    ip => AbsentWrites(cfg, scan, ip)
  }

  function PortWrites(cfg: Config, scan: Scan): PortLog {
    Flat(scan.hosts, HostWritesOf(cfg, scan)) + Flat(ConfiguredIps(cfg), AbsentWritesOf(cfg, scan))
  }

  function ScannedHostWrite(): Host -> (int, Status) {
    (h: Host) => (h.ip, h.status)
  }

  function OfflineHostWrite(ip: int): EndpointRow -> (int, Status) {
    e => (ip, Offline)
  }

  function AbsentHostWrites(cfg: Config, scan: Scan): int -> HostLog {
    ip => if ConfirmedOffline(scan, ip) then Map(Group(cfg, ip), OfflineHostWrite(ip)) else []
  }

  /** Every host status written, in the order it happens. */
  function HostStatusWrites(cfg: Config, scan: Scan): HostLog {
    Map(scan.hosts, ScannedHostWrite()) + Flat(ConfiguredIps(cfg), AbsentHostWrites(cfg, scan))
  }

  /** The dictionary left after a list of writes into `base`. */
  function Logged<K(==)>(base: map<K, Stamp>, stored: map<K, Stamp>, log: seq<(K, Status)>, now: int): map<K, Stamp> {
    if log == [] then base
    else
      var (k, s) := log[|log| - 1];
      Logged(base, stored, log[..|log| - 1], now)[k := Stamped(Get(stored, k), s, now)]
  }

  /** The statuses a list of writes reports. */
  function Seen<K(==)>(log: seq<(K, Status)>): map<K, Status> {
    if log == [] then map[] else Seen(log[..|log| - 1])[log[|log| - 1].0 := log[|log| - 1].1]
  }

  lemma {:induction false} LoggedConcat<K>(base: map<K, Stamp>, stored: map<K, Stamp>, a: seq<(K, Status)>,
                                            b: seq<(K, Status)>, now: int)
    ensures Logged(base, stored, a + b, now) == Logged(Logged(base, stored, a, now), stored, b, now)
  {
    if b == [] {
      assert a + b == a;
    } else {
      LoggedConcat(base, stored, a, b[..|b| - 1], now);
      assert (a + b)[..|a + b| - 1] == a + b[..|b| - 1];
    }
  }

  /** Writing one by one leaves the stamps of the statuses reported last. */
  lemma {:induction false} LoggedIsWrites<K>(stored: map<K, Stamp>, log: seq<(K, Status)>, now: int)
    ensures Logged(map[], stored, log, now) == Writes(stored, Seen(log), now)
  {
    if log != [] {
      LoggedIsWrites(stored, log[..|log| - 1], now);
    }
  }
}
