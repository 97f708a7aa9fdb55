/** What one scan writes to the status history: a verdict per address and per port that depends on
    the sets of hosts and endpoints only, never on the order in which they are processed. */
module OverviewWrites {
  import opened Wrappers
  import opened Grouping
  import opened StatusHistory
  import opened Overview
  import opened TypedEntities
  import Blocks
  import Ipv4

  /** Scanned hosts have distinct addresses and their port keys decode to distinct numbers. */
  predicate ValidScan(scan: Scan) {
    && Distinct(ScannedIps(scan.hosts))
    && forall h :: h in scan.hosts ==> Distinct(ScannedPorts(h.ports))
  }

  // ----- the declarative verdicts -----

  predicate EndpointAt(cfg: Config, e: EndpointRow, ip: int) {
    e in TypedEndpoints(cfg.endpointTypes, cfg.endpoints) && IpOf(cfg.endpointTypes, e) == Some(ip)
  }

  /** Some configured service of some endpoint at this address uses this port. */
  ghost predicate Backed(cfg: Config, ip: int, p: int) {
    exists e | EndpointAt(cfg, e, ip) :: p in PortSet(cfg.serviceTypes, Listed(cfg, e.id))
  }

  predicate Scanned(scan: Scan, h: Host, ip: int) {
    h in scan.hosts && h.ip == ip
  }

  ghost predicate Reports(h: Host, p: int, s: Status) {
    exists sp | sp in h.ports :: PortText(sp.key) == Some(p) && sp.status == s
  }

  /** The status the scan establishes for an address. */
  ghost predicate HostVerdict(cfg: Config, scan: Scan, ip: int, s: Status) {
    || (exists h :: Scanned(scan, h, ip) && s == h.status)
    || (ConfirmedOffline(scan, ip) && s == Offline && exists e :: EndpointAt(cfg, e, ip))
  }

  /** The status the scan establishes for a port of an address. */
  ghost predicate PortVerdict(cfg: Config, scan: Scan, ip: int, p: int, s: Status) {
    || (exists h :: Scanned(scan, h, ip) && Reports(h, p, s))
    || (exists h :: Scanned(scan, h, ip) && p !in ScannedPorts(h.ports) && p in scan.ports
                    && Backed(cfg, ip, p) && s == Offline)
    || (ConfirmedOffline(scan, ip) && Backed(cfg, ip, p) && s == Offline)
  }

  // ----- helpers -----

  lemma {:induction false} InsertPermutes(e: EndpointRow, rows: seq<EndpointRow>)
    ensures multiset(Insert(e, rows)) == multiset(rows) + multiset{e}
  {
    if rows != [] && !Older(e, rows[0]) {
      InsertPermutes(e, rows[1..]);
      assert rows == [rows[0]] + rows[1..];
    }
  }

  lemma {:induction false} SortPermutes(rows: seq<EndpointRow>)
    ensures multiset(SortByAge(rows)) == multiset(rows)
  {
    if rows != [] {
      SortPermutes(rows[1..]);
      InsertPermutes(rows[0], SortByAge(rows[1..]));
      assert rows == [rows[0]] + rows[1..];
    }
  }

  lemma SameMembers<T>(a: seq<T>, b: seq<T>)
    requires multiset(a) == multiset(b)
    ensures forall x :: x in a <==> x in b
  {
    forall x
      ensures x in a <==> x in b
    {
      assert x in a <==> x in multiset(a);
      assert x in b <==> x in multiset(b);
    }
  }

  lemma GroupSpec(cfg: Config, ip: int)
    ensures forall e :: e in Group(cfg, ip) <==> EndpointAt(cfg, e, ip)
  {
    var rows := TypedEndpoints(cfg.endpointTypes, cfg.endpoints);
    var key := IpKey(cfg.endpointTypes);
    SelectMembers(rows, key, Some(ip));
    SortPermutes(Select(rows, key, Some(ip)));
    SameMembers(Group(cfg, ip), Select(rows, key, Some(ip)));
  }

  lemma {:induction false} ClaimedBySpec(cfg: Config, group: seq<EndpointRow>, p: int)
    ensures p in ClaimedBy(cfg, group) <==>
            exists e | e in group :: p in PortSet(cfg.serviceTypes, Listed(cfg, e.id))
  {
    if group != [] {
      var front, last := group[..|group| - 1], group[|group| - 1];
      ClaimedBySpec(cfg, front, p);
      assert group == front + [last];
    }
  }

  lemma ClaimedIsBacked(cfg: Config, ip: int, p: int)
    ensures p in Claimed(cfg, ip) <==> Backed(cfg, ip, p)
  {
    GroupSpec(cfg, ip);
    ClaimedBySpec(cfg, Group(cfg, ip), p);
  }

  lemma {:induction false} ScannedPortsSpec(ports: seq<ScanPort>, p: int)
    ensures p in ScannedPorts(ports) <==> exists sp | sp in ports :: PortText(sp.key) == Some(p)
  {
    if ports != [] {
      var front, last := ports[..|ports| - 1], ports[|ports| - 1];
      ScannedPortsSpec(front, p);
      assert ports == front + [last];
    }
  }

  /** With distinct decoded keys a host reports one status per port. */
  lemma {:induction false} ReportsOnce(ports: seq<ScanPort>, a: ScanPort, b: ScanPort)
    requires Distinct(ScannedPorts(ports)) && a in ports && b in ports
    requires PortText(a.key).Some? && PortText(a.key) == PortText(b.key)
    ensures a == b
  {
    if ports != [] {
      var front, last := ports[..|ports| - 1], ports[|ports| - 1];
      assert ports == front + [last];
      ScannedPortsSpec(front, PortText(a.key).value);
      DistinctFront(ScannedPorts(front), ScannedPorts(ports));
      if a in front && b in front {
        ReportsOnce(front, a, b);
      } else if a in front || b in front {
        assert PortText(last.key) == PortText(a.key);
        assert ScannedPorts(ports) == ScannedPorts(front) + [PortText(a.key).value];
        DistinctLast(ScannedPorts(front), PortText(a.key).value);
      }
    }
  }

  lemma OneHostPerAddress(scan: Scan, a: Host, b: Host, ip: int)
    requires ValidScan(scan) && Scanned(scan, a, ip) && Scanned(scan, b, ip)
    ensures a == b
  {
    var i :| 0 <= i < |scan.hosts| && scan.hosts[i] == a;
    var j :| 0 <= j < |scan.hosts| && scan.hosts[j] == b;
    var ips := ScannedIps(scan.hosts);
    assert ips[i] == ips[j];
  }

  lemma ScannedIpsSpec(scan: Scan, ip: int)
    ensures ip in ScannedIps(scan.hosts) <==> exists h :: Scanned(scan, h, ip)
  {
    if ip in ScannedIps(scan.hosts) {
      var i :| 0 <= i < |scan.hosts| && ScannedIps(scan.hosts)[i] == ip;
      assert Scanned(scan, scan.hosts[i], ip);
    }
    if h :| Scanned(scan, h, ip) {
      var i :| 0 <= i < |scan.hosts| && scan.hosts[i] == h;
      assert ScannedIps(scan.hosts)[i] == ip;
    }
  }

  /** At most one status per address and per port. */
  lemma VerdictsAreUnique(cfg: Config, scan: Scan, ip: int, p: int, s: Status, t: Status)
    requires ValidScan(scan)
    ensures HostVerdict(cfg, scan, ip, s) && HostVerdict(cfg, scan, ip, t) ==> s == t
    ensures PortVerdict(cfg, scan, ip, p, s) && PortVerdict(cfg, scan, ip, p, t) ==> s == t
  {
    ScannedIpsSpec(scan, ip);
    if a :| Scanned(scan, a, ip) {
      forall b | Scanned(scan, b, ip)
        ensures a == b
      {
        OneHostPerAddress(scan, a, b, ip);
      }
      ScannedPortsSpec(a.ports, p);
      if Reports(a, p, s) && Reports(a, p, t) {
        var x :| x in a.ports && PortText(x.key) == Some(p) && x.status == s;
        var y :| y in a.ports && PortText(y.key) == Some(p) && y.status == t;
        ReportsOnce(a.ports, x, y);
      }
    }
  }

  // ----- every write is a verdict, and every verdict is written -----

  /** The writes of one entry: what the host reports, and the requested ports of these services. */
  ghost predicate EntryWrite(scan: Scan, h: Host, ports: set<int>, x: ((int, int), Status)) {
    && x.0.0 == h.ip
    && (Reports(h, x.0.1, x.1)
        || (x.1 == Offline && x.0.1 in ports && x.0.1 !in ScannedPorts(h.ports) && x.0.1 in scan.ports))
  }

  lemma ServiceWritesSpec(cfg: Config, scan: Scan, h: Host, services: seq<ServiceRow>, x: ((int, int), Status))
    ensures x in ServiceWrites(cfg, scan, h, services) <==> EntryWrite(scan, h, PortSet(cfg.serviceTypes, services), x)
  {
    var order := Keys(services, PortKey(cfg.serviceTypes));
    FlatMembers(h.ports, ScannedWritesOf(h), x);
    FlatMembers(order, MissedWritesOf(scan, h), x);
    if x.0.0 == h.ip && Reports(h, x.0.1, x.1) {
      var sp :| sp in h.ports && PortText(sp.key) == Some(x.0.1) && sp.status == x.1;
      assert x in ScannedWritesOf(h)(sp);
    }
    if x.0.0 == h.ip && x.1 == Offline && x.0.1 in order && x.0.1 !in ScannedPorts(h.ports) && x.0.1 in scan.ports {
      assert x in MissedWritesOf(scan, h)(x.0.1);
    }
  }

  predicate WrittenFor(cfg: Config, scan: Scan, h: Host, x: ((int, int), Status)) {
    x in HostWrites(cfg, scan, h)
  }

  lemma HostWritesSpec(cfg: Config, scan: Scan, h: Host, x: ((int, int), Status))
    ensures WrittenFor(cfg, scan, h, x) <==> EntryWrite(scan, h, Claimed(cfg, h.ip), x)
  {
    var group := Group(cfg, h.ip);
    if group == [] {
      ServiceWritesSpec(cfg, scan, h, [], x);
      assert PortSet(cfg.serviceTypes, []) == {};
    } else {
      FlatMembers(group, EntryWrites(cfg, scan, h), x);
      ClaimedBySpec(cfg, group, x.0.1);
      forall e
        ensures x in EntryWrites(cfg, scan, h)(e) <==>
                EntryWrite(scan, h, PortSet(cfg.serviceTypes, Listed(cfg, e.id)), x)
      {
        ServiceWritesSpec(cfg, scan, h, Listed(cfg, e.id), x);
      }
      assert group[0] in group;
    }
  }

  lemma AbsentWritesSpec(cfg: Config, scan: Scan, ip: int, x: ((int, int), Status))
    ensures x in AbsentWrites(cfg, scan, ip) <==>
            x.0.0 == ip && ConfirmedOffline(scan, ip) && x.1 == Offline && x.0.1 in Claimed(cfg, ip)
  {
    var group := Group(cfg, ip);
    FlatMembers(group, OfflineWrites(cfg, ip), x);
    ClaimedBySpec(cfg, group, x.0.1);
    forall e
      ensures x in OfflineWrites(cfg, ip)(e) <==>
              x.0.0 == ip && x.1 == Offline && x.0.1 in PortSet(cfg.serviceTypes, Listed(cfg, e.id))
    {
      var services := Listed(cfg, e.id);
      FlatMembers(services, OfflineWritesOf(cfg, ip), x);
      KeysSpec(services, PortKey(cfg.serviceTypes));
      if x.0.0 == ip && x.1 == Offline && x.0.1 in PortSet(cfg.serviceTypes, services) {
        var s :| s in services && PortKey(cfg.serviceTypes)(s) == Some(x.0.1);
        assert x in OfflineWritesOf(cfg, ip)(s);
      }
    }
  }

  lemma ConfiguredIpsSpec(cfg: Config, ip: int)
    ensures ip in ConfiguredIps(cfg) <==> exists e :: EndpointAt(cfg, e, ip)
  {
    var rows, key := TypedEndpoints(cfg.endpointTypes, cfg.endpoints), IpKey(cfg.endpointTypes);
    KeysSpec(rows, key);
    if e :| e in rows && key(e) == Some(ip) {
      assert EndpointAt(cfg, e, ip);
    }
    if e :| EndpointAt(cfg, e, ip) {
      assert key(e) == Some(ip);
    }
  }

  /** The port writes of a scan are exactly its verdicts. */
  lemma PortWritesAreVerdicts(cfg: Config, scan: Scan, x: ((int, int), Status))
    ensures x in PortWrites(cfg, scan) <==> PortVerdict(cfg, scan, x.0.0, x.0.1, x.1)
  {
    var (ip, p) := x.0;
    FlatMembers(scan.hosts, HostWritesOf(cfg, scan), x);
    FlatMembers(ConfiguredIps(cfg), AbsentWritesOf(cfg, scan), x);
    ClaimedIsBacked(cfg, ip, p);
    ConfiguredIpsSpec(cfg, ip);
    forall h
      ensures h in scan.hosts && x in HostWritesOf(cfg, scan)(h) <==>
              Scanned(scan, h, ip) &&
              (Reports(h, p, x.1) || (x.1 == Offline && Backed(cfg, ip, p) && p !in ScannedPorts(h.ports) && p in scan.ports))
    {
      HostWritesSpec(cfg, scan, h, x);
    }
    forall i
      ensures x in AbsentWritesOf(cfg, scan)(i) <==>
              ip == i && ConfirmedOffline(scan, ip) && x.1 == Offline && Backed(cfg, ip, p)
    {
      AbsentWritesSpec(cfg, scan, i, x);
    }
  }

  /** The host writes of a scan are exactly its verdicts. */
  lemma HostWritesAreVerdicts(cfg: Config, scan: Scan, x: (int, Status))
    ensures x in HostStatusWrites(cfg, scan) <==> HostVerdict(cfg, scan, x.0, x.1)
  {
    var log := Map(scan.hosts, ScannedHostWrite());
    FlatMembers(ConfiguredIps(cfg), AbsentHostWrites(cfg, scan), x);
    ConfiguredIpsSpec(cfg, x.0);
    if h :| Scanned(scan, h, x.0) && x.1 == h.status {
      var i :| 0 <= i < |scan.hosts| && scan.hosts[i] == h;
      assert log[i] == x;
    }
    if x in log {
      var i :| 0 <= i < |log| && log[i] == x;
      assert Scanned(scan, scan.hosts[i], x.0);
    }
    forall ip
      ensures x in AbsentHostWrites(cfg, scan)(ip) <==>
              ip == x.0 && ConfirmedOffline(scan, x.0) && x.1 == Offline && exists e :: EndpointAt(cfg, e, x.0)
    {
      OfflineHostWrites(cfg, ip, x);
    }
  }

  lemma OfflineHostWrites(cfg: Config, ip: int, x: (int, Status))
    ensures x in Map(Group(cfg, ip), OfflineHostWrite(ip)) <==> x == (ip, Offline) && exists e :: EndpointAt(cfg, e, ip)
  {
    GroupSpec(cfg, ip);
    var group := Group(cfg, ip);
    if group != [] {
      assert Map(group, OfflineHostWrite(ip))[0] == (ip, Offline);
      assert EndpointAt(cfg, group[0], ip);
    }
  }

  /** Conflict-free writes: within one scan no key is ever written with two different statuses,
      however many endpoints share the address or the port. */
  lemma WritesNeverConflict(cfg: Config, scan: Scan)
    requires ValidScan(scan)
    ensures forall x, y :: x in HostStatusWrites(cfg, scan) && y in HostStatusWrites(cfg, scan) && x.0 == y.0 ==>
                             x.1 == y.1
    ensures forall x, y :: x in PortWrites(cfg, scan) && y in PortWrites(cfg, scan) && x.0 == y.0 ==> x.1 == y.1
  {
    forall x, y | x in HostStatusWrites(cfg, scan) && y in HostStatusWrites(cfg, scan) && x.0 == y.0
      ensures x.1 == y.1
    {
      HostWritesAreVerdicts(cfg, scan, x);
      HostWritesAreVerdicts(cfg, scan, y);
      VerdictsAreUnique(cfg, scan, x.0, 0, x.1, y.1);
    }
    forall x, y | x in PortWrites(cfg, scan) && y in PortWrites(cfg, scan) && x.0 == y.0
      ensures x.1 == y.1
    {
      PortWritesAreVerdicts(cfg, scan, x);
      PortWritesAreVerdicts(cfg, scan, y);
      VerdictsAreUnique(cfg, scan, x.0.0, x.0.1, x.1, y.1);
    }
  }

  lemma {:induction false} SeenSpec<K>(log: seq<(K, Status)>, k: K)
    ensures k in Seen(log) ==> (k, Seen(log)[k]) in log
    ensures forall s :: (k, s) in log ==> k in Seen(log)
  {
    if log != [] {
      SeenSpec(log[..|log| - 1], k);
      assert log == log[..|log| - 1] + [log[|log| - 1]];
    }
  }

  /** What the tables hold after the scan, key by key. */
  lemma SeenIsVerdict(cfg: Config, scan: Scan, ip: int, p: int)
    requires ValidScan(scan)
    ensures ip in Seen(HostStatusWrites(cfg, scan)) <==> exists s :: HostVerdict(cfg, scan, ip, s)
    ensures forall s :: HostVerdict(cfg, scan, ip, s) ==> Get(Seen(HostStatusWrites(cfg, scan)), ip) == Some(s)
    ensures (ip, p) in Seen(PortWrites(cfg, scan)) <==> exists s :: PortVerdict(cfg, scan, ip, p, s)
    ensures forall s :: PortVerdict(cfg, scan, ip, p, s) ==> Get(Seen(PortWrites(cfg, scan)), (ip, p)) == Some(s)
  {
    SeenSpec(HostStatusWrites(cfg, scan), ip);
    SeenSpec(PortWrites(cfg, scan), (ip, p));
    forall s
      ensures (ip, s) in HostStatusWrites(cfg, scan) <==> HostVerdict(cfg, scan, ip, s)
      ensures ((ip, p), s) in PortWrites(cfg, scan) <==> PortVerdict(cfg, scan, ip, p, s)
    {
      HostWritesAreVerdicts(cfg, scan, (ip, s));
      PortWritesAreVerdicts(cfg, scan, ((ip, p), s));
    }
    WritesNeverConflict(cfg, scan);
  }

  // ----- which addresses a scan covers -----

  /** The scanned network, when it can be read, is the aligned interval of 2^(32 - mask) addresses around
      the given one. */
  predicate Covered(scan: Scan, ip: int) {
    match Ipv4.Parse(scan.networkDefinition)
    case None => false
    case Some(a) =>
      scan.subnetMask <= 32 &&
      var size := Blocks.Pow2(32 - scan.subnetMask);
      a - a % size <= ip < a - a % size + size
  }

  lemma ScannedNetworkIs(scan: Scan, ip: int)
    ensures InScannedNetwork(scan, ip) <==> Covered(scan, ip)
  {
    match Ipv4.Parse(scan.networkDefinition)
    case None =>
    case Some(a) =>
      if scan.subnetMask <= 32 {
        Blocks.ShiftIsQuotient(a, 32 - scan.subnetMask);
        if ip >= 0 {
          Blocks.BlockIsInterval(a, ip, 32 - scan.subnetMask);
        }
      }
  }

  /** A configured address the scan did not report is persisted offline exactly when it lies in that
      interval, with all ports of its services; otherwise nothing is written for it. */
  lemma UnreportedIsOfflineIff(cfg: Config, scan: Scan, ip: int, p: int)
    requires ValidScan(scan) && (forall h | h in scan.hosts :: h.ip != ip) && exists e :: EndpointAt(cfg, e, ip)
    ensures Get(Seen(HostStatusWrites(cfg, scan)), ip) == if Covered(scan, ip) then Some(Offline) else None
    ensures Backed(cfg, ip, p) ==>
              Get(Seen(PortWrites(cfg, scan)), (ip, p)) == if Covered(scan, ip) then Some(Offline) else None
  {
    ScannedIpsSpec(scan, ip);
    ScannedNetworkIs(scan, ip);
    SeenIsVerdict(cfg, scan, ip, p);
    assert forall h :: !Scanned(scan, h, ip);
    if Covered(scan, ip) {
      assert HostVerdict(cfg, scan, ip, Offline);
      assert Backed(cfg, ip, p) ==> PortVerdict(cfg, scan, ip, p, Offline);
    }
  }

  /** And it is listed offline exactly then, otherwise with what was last known of it. */
  lemma UnreportedIsListedAs(c: Context, ip: int, e: EndpointRow)
    ensures AbsentEntry(c, ip)(e).status ==
            if Covered(c.scan, ip) then Offline
            else match Get(c.hosts, ip) case Some(stamp) => stamp.status case None => Offline
    ensures AbsentEntry(c, ip)(e).changedAt ==
            match Get(c.hosts, ip)
            case Some(stamp) => Some(if Covered(c.scan, ip) && stamp.status != Offline then c.now else stamp.changedAt)
            case None => Some(c.now)
  {
    ScannedNetworkIs(c.scan, ip);
  }

  /** The same hosts and endpoints, listed in any order, persist the same maps. */
  lemma OrderDoesNotMatter(cfg: Config, cfg': Config, scan: Scan, scan': Scan)
    requires ValidScan(scan) && ValidScan(scan')
    requires cfg' == cfg.(endpoints := cfg'.endpoints) && scan' == scan.(hosts := scan'.hosts)
    requires forall e :: e in cfg.endpoints <==> e in cfg'.endpoints
    requires forall h :: h in scan.hosts <==> h in scan'.hosts
    ensures Seen(HostStatusWrites(cfg, scan)) == Seen(HostStatusWrites(cfg', scan'))
    ensures Seen(PortWrites(cfg, scan)) == Seen(PortWrites(cfg', scan'))
  {
    TypedSpec(cfg);
    TypedSpec(cfg');
    assert forall h, ip :: Scanned(scan, h, ip) <==> Scanned(scan', h, ip);
    forall ip
      ensures ConfirmedOffline(scan, ip) == ConfirmedOffline(scan', ip)
    {
      ScannedIpsSpec(scan, ip);
      ScannedIpsSpec(scan', ip);
    }
    assert forall e, ip :: EndpointAt(cfg, e, ip) <==> EndpointAt(cfg', e, ip);
    assert forall id :: Listed(cfg, id) == Listed(cfg', id);
    assert forall ip, p :: Backed(cfg, ip, p) <==> Backed(cfg', ip, p);
    SameSeen(cfg, cfg', scan, scan');
  }

  lemma SameSeen(cfg: Config, cfg': Config, scan: Scan, scan': Scan)
    requires ValidScan(scan) && ValidScan(scan')
    requires forall ip, s :: HostVerdict(cfg, scan, ip, s) <==> HostVerdict(cfg', scan', ip, s)
    requires forall ip, p, s :: PortVerdict(cfg, scan, ip, p, s) <==> PortVerdict(cfg', scan', ip, p, s)
    ensures Seen(HostStatusWrites(cfg, scan)) == Seen(HostStatusWrites(cfg', scan'))
    ensures Seen(PortWrites(cfg, scan)) == Seen(PortWrites(cfg', scan'))
  {
    forall ip
      ensures Get(Seen(HostStatusWrites(cfg, scan)), ip) == Get(Seen(HostStatusWrites(cfg', scan')), ip)
    {
      SeenIsVerdict(cfg, scan, ip, 0);
      SeenIsVerdict(cfg', scan', ip, 0);
    }
    forall k: (int, int)
      ensures Get(Seen(PortWrites(cfg, scan)), k) == Get(Seen(PortWrites(cfg', scan')), k)
    {
      SeenIsVerdict(cfg, scan, k.0, k.1);
      SeenIsVerdict(cfg', scan', k.0, k.1);
      assert k == (k.0, k.1);
    }
    MapsEqual(Seen(HostStatusWrites(cfg, scan)), Seen(HostStatusWrites(cfg', scan')));
    MapsEqual(Seen(PortWrites(cfg, scan)), Seen(PortWrites(cfg', scan')));
  }

  lemma MapsEqual<K, V>(m: map<K, V>, n: map<K, V>)
    requires forall k :: Get(m, k) == Get(n, k)
    ensures m == n
  {
    forall k
      ensures k in m <==> k in n
      ensures k in m ==> m[k] == n[k]
    {
      assert Get(m, k) == Get(n, k);
    }
  }

  lemma TypedSpec(cfg: Config)
    ensures forall e :: e in TypedEndpoints(cfg.endpointTypes, cfg.endpoints) <==>
              e in cfg.endpoints && FindType(cfg.endpointTypes, e.typeId).Some?
  {
    TypedMembers(cfg.endpointTypes, cfg.endpoints);
  }

  lemma {:induction false} TypedMembers(types: seq<TypeRow>, rows: seq<EndpointRow>)
    ensures forall e :: e in TypedEndpoints(types, rows) <==> e in rows && FindType(types, e.typeId).Some?
  {
    if rows != [] {
      TypedMembers(types, rows[..|rows| - 1]);
      assert rows == rows[..|rows| - 1] + [rows[|rows| - 1]];
    }
  }

  // ----- the status history over runs of scans -----

  datatype ScanInput = ScanInput(cfg: Config, scan: Scan, now: int)

  type Logger<!K> = ScanInput -> seq<(K, Status)>

  function HostLogger(): Logger<int> {
    (x: ScanInput) => HostStatusWrites(x.cfg, x.scan)
  }

  function PortLogger(): Logger<(int, int)> {
    (x: ScanInput) => PortWrites(x.cfg, x.scan)
  }

  /** A status table after a run of overviews, each building on what the ones before persisted. */
  function Table<K(==)>(inputs: seq<ScanInput>, log: Logger<K>): map<K, Stamp> {
    if inputs == [] then map[]
    else
      var stored := Table(inputs[..|inputs| - 1], log);
      var last := inputs[|inputs| - 1];
      stored + Logged(map[], stored, log(last), last.now)
  }

  function HostTable(inputs: seq<ScanInput>): map<int, Stamp> {
    Table(inputs, HostLogger())
  }

  function PortTable(inputs: seq<ScanInput>): map<(int, int), Stamp> {
    Table(inputs, PortLogger())
  }

  /** What each overview of a run established. */
  function Observations<K(==)>(inputs: seq<ScanInput>, log: Logger<K>): seq<Observation<K>> {
    seq(|inputs|, i requires 0 <= i < |inputs| => Observation(inputs[i].now, Seen(log(inputs[i]))))
  }

  function HostObservations(inputs: seq<ScanInput>): seq<Observation<int>> {
    Observations(inputs, HostLogger())
  }

  function PortObservations(inputs: seq<ScanInput>): seq<Observation<(int, int)>> {
    Observations(inputs, PortLogger())
  }

  lemma ReplayMore<K>(front: seq<Observation<K>>, last: Observation<K>)
    ensures Replay(front + [last]) == Replay(front) + Writes(Replay(front), last.seen, last.now)
  {
    assert (front + [last])[..|front|] == front;
  }

  /** The stored tables are what the replay of the established statuses gives. */
  lemma {:induction false} TableIsReplay<K>(inputs: seq<ScanInput>, log: Logger<K>)
    ensures Table(inputs, log) == Replay(Observations(inputs, log))
  {
    if inputs != [] {
      var front, last := inputs[..|inputs| - 1], inputs[|inputs| - 1];
      TableIsReplay(front, log);
      assert Observations(inputs, log) == Observations(front, log) + [Observation(last.now, Seen(log(last)))];
      ReplayMore(Observations(front, log), Observation(last.now, Seen(log(last))));
      LoggedIsWrites(Table(front, log), log(last), last.now);
    }
  }

  /** Over every run of scans and configurations, a stored host or port timestamp is the clock
      reading of the scan that began the latest unbroken run of its stored status. */
  lemma HistoryOverRuns(inputs: seq<ScanInput>, ip: int, p: int)
    ensures ip in HostTable(inputs) ==>
              exists i :: StartsLatestRun(HostObservations(inputs), ip, i, HostTable(inputs)[ip].status)
                          && inputs[i].now == HostTable(inputs)[ip].changedAt
    ensures (ip, p) in PortTable(inputs) ==>
              exists i :: StartsLatestRun(PortObservations(inputs), (ip, p), i, PortTable(inputs)[(ip, p)].status)
                          && inputs[i].now == PortTable(inputs)[(ip, p)].changedAt
  {
    TableIsReplay(inputs, HostLogger());
    TableIsReplay(inputs, PortLogger());
    StampMarksLatestRun(HostObservations(inputs), ip);
    StampMarksLatestRun(PortObservations(inputs), (ip, p));
    assert forall i :: 0 <= i < |inputs| ==>
      HostObservations(inputs)[i].now == inputs[i].now && PortObservations(inputs)[i].now == inputs[i].now;
  }
}
