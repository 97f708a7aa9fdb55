/** After an overview is built and its statuses are persisted, the scan-free view of the same
    configuration reports the same statuses, and the same timestamps wherever history exists.
    Along the way: every configured service is listed exactly once under its endpoint. */
module OverviewAgreement {
  import opened Wrappers
  import opened Grouping
  import opened StatusHistory
  import opened Overview
  import opened OverviewWrites

  /** What the next overview reads once this one has been persisted, at some later time. */
  function AfterScan(c: Context, later: int): Context {
    Context(c.cfg, c.scan,
            c.hosts + Logged(map[], c.hosts, HostStatusWrites(c.cfg, c.scan), c.now),
            c.ports + Logged(map[], c.ports, PortWrites(c.cfg, c.scan), c.now),
            later)
  }

  lemma AfterHost(c: Context, later: int, ip: int, s: Status)
    requires ValidScan(c.scan)
    ensures HostVerdict(c.cfg, c.scan, ip, s) ==>
              Get(AfterScan(c, later).hosts, ip) == Some(Stamped(Get(c.hosts, ip), s, c.now))
    ensures (forall t :: !HostVerdict(c.cfg, c.scan, ip, t)) ==> Get(AfterScan(c, later).hosts, ip) == Get(c.hosts, ip)
  {
    SeenIsVerdict(c.cfg, c.scan, ip, 0);
    LoggedIsWrites(c.hosts, HostStatusWrites(c.cfg, c.scan), c.now);
  }

  lemma AfterPort(c: Context, later: int, ip: int, p: int, s: Status)
    requires ValidScan(c.scan)
    ensures PortVerdict(c.cfg, c.scan, ip, p, s) ==>
              Get(AfterScan(c, later).ports, (ip, p)) == Some(Stamped(Get(c.ports, (ip, p)), s, c.now))
    ensures (forall t :: !PortVerdict(c.cfg, c.scan, ip, p, t)) ==>
              Get(AfterScan(c, later).ports, (ip, p)) == Get(c.ports, (ip, p))
  {
    SeenIsVerdict(c.cfg, c.scan, ip, p);
    LoggedIsWrites(c.ports, PortWrites(c.cfg, c.scan), c.now);
  }

  // ----- what is compared -----

  /** A listed service: its port, its status, and when that changed if there is any history. */
  datatype View = View(serviceId: string, port: Option<int>, status: Status, since: Option<int>)

  function PortView(history: map<(int, int), Stamp>, ip: int, mp: MappedPort): seq<View> {
    if mp.serviceId.None? then []
    else [View(mp.serviceId.value, mp.port, mp.status,
               if mp.port.Some? && (ip, mp.port.value) in history then mp.changedAt else None)]
  }

  function Views(history: map<(int, int), Stamp>, ip: int): MappedPort -> seq<View> {
    mp => PortView(history, ip, mp)
  }

  /** How the scan-free view lists a service. */
  function ServiceView(after: Context, ip: int, s: ServiceRow): View {
    var mp := LastKnownPort(after, ip, s);
    View(s.id, mp.port, mp.status,
         if mp.port.Some? && (ip, mp.port.value) in after.ports then mp.changedAt else None)
  }

  function ServiceViews(after: Context, ip: int): ServiceRow -> View {
    s => ServiceView(after, ip, s)
  }

  lemma LastKnownViewed(after: Context, ip: int, s: ServiceRow)
    ensures PortView(after.ports, ip, LastKnownPort(after, ip, s)) == [ServiceView(after, ip, s)]
  {}

  /** Services as the scan-free view lists them. */
  lemma ListedAsViews(after: Context, ip: int, services: seq<ServiceRow>)
    ensures Flat(Map(services, LastKnownPorts(after, ip)), Views(after.ports, ip)) == Map(services, ServiceViews(after, ip))
  {
    forall s | s in services
      ensures Views(after.ports, ip)(LastKnownPorts(after, ip)(s)) == [ServiceViews(after, ip)(s)]
    {
      LastKnownViewed(after, ip, s);
    }
    FlatOfMapSingles(services, LastKnownPorts(after, ip), Views(after.ports, ip), ServiceViews(after, ip));
  }

  /** A service shown with the stamp stored for its port looks as in the scan-free view; without a
      stored stamp only the timestamp may differ. */
  lemma StampedViewed(after: Context, ip: int, s: ServiceRow, p: int, stamp: Stamp)
    requires PortOf(after.cfg.serviceTypes, s) == Some(p)
    requires match Get(after.ports, (ip, p))
             case Some(stored) => stamp == stored
             case None => stamp.status == Offline
    ensures PortView(after.ports, ip, ConfiguredPort(s, p, stamp)) == [ServiceView(after, ip, s)]
  {}

  // ----- entries of a scanned host -----

  /** All services of one port, shown with one stamp. */
  lemma BackingViewed(after: Context, ip: int, services: seq<ServiceRow>, p: int, stamp: Stamp)
    requires Get(after.ports, (ip, p)) == Some(stamp) || (Get(after.ports, (ip, p)) == None && stamp.status == Offline)
    ensures var backing := Select(services, PortKey(after.cfg.serviceTypes), Some(p));
            Flat(Map(backing, StampedPorts(p, stamp)), Views(after.ports, ip)) == Map(backing, ServiceViews(after, ip))
  {
    var key := PortKey(after.cfg.serviceTypes);
    var backing := Select(services, key, Some(p));
    SelectMembers(services, key, Some(p));
    forall s | s in backing
      ensures Views(after.ports, ip)(StampedPorts(p, stamp)(s)) == [ServiceViews(after, ip)(s)]
    {
      assert key(s) == Some(p);
      StampedViewed(after, ip, s, p, stamp);
    }
    FlatOfMapSingles(backing, StampedPorts(p, stamp), Views(after.ports, ip), ServiceViews(after, ip));
  }

  /** A scanned port some service uses: its entries show those services. */
  lemma BackedPortViewed(c: Context, later: int, h: Host, services: seq<ServiceRow>, sp: ScanPort, p: int)
    requires ValidScan(c.scan) && h in c.scan.hosts && sp in h.ports && PortText(sp.key) == Some(p)
    ensures var after := AfterScan(c, later);
            var backing := Select(services, PortKey(c.cfg.serviceTypes), Some(p));
            var stamp := Stamped(Get(c.ports, (h.ip, p)), sp.status, c.now);
            Flat(Map(backing, StampedPorts(p, stamp)), Views(after.ports, h.ip)) == Map(backing, ServiceViews(after, h.ip))
  {
    var after := AfterScan(c, later);
    assert Scanned(c.scan, h, h.ip) && Reports(h, p, sp.status);
    AfterPort(c, later, h.ip, p, sp.status);
    BackingViewed(after, h.ip, services, p, Stamped(Get(c.ports, (h.ip, p)), sp.status, c.now));
  }

  /** A scanned port no service uses has no service in the scan-free view either. */
  lemma UnbackedPortViewed(c: Context, h: Host, claimed: set<int>, services: seq<ServiceRow>, first: bool, sp: ScanPort,
                           p: int, ports: map<(int, int), Stamp>)
    requires PortText(sp.key) == Some(p) && Select(services, PortKey(c.cfg.serviceTypes), Some(p)) == []
    ensures Flat(PortEntry(c, h, claimed, services, first, sp), Views(ports, h.ip)) == []
  {
    var entries := PortEntry(c, h, claimed, services, first, sp);
    FlatEmpty(entries, Views(ports, h.ip));
  }

  lemma ScannedPortViewed(c: Context, later: int, h: Host, claimed: set<int>, services: seq<ServiceRow>, first: bool,
                          sp: ScanPort)
    requires ValidScan(c.scan) && h in c.scan.hosts && sp in h.ports
    ensures var after := AfterScan(c, later);
            Flat(PortEntry(c, h, claimed, services, first, sp), Views(after.ports, h.ip)) ==
            match PortText(sp.key)
            case None => []
            case Some(p) => Map(Select(services, PortKey(c.cfg.serviceTypes), Some(p)), ServiceViews(after, h.ip))
  {
    match PortText(sp.key)
    case None =>
    case Some(p) =>
      if Select(services, PortKey(c.cfg.serviceTypes), Some(p)) == [] {
        UnbackedPortViewed(c, h, claimed, services, first, sp, p, AfterScan(c, later).ports);
      } else {
        BackedPortViewed(c, later, h, services, sp, p);
      }
  }

  lemma {:induction false} ScannedPartViewed(
      c: Context, later: int, h: Host, claimed: set<int>, services: seq<ServiceRow>, first: bool, ports: seq<ScanPort>)
    requires ValidScan(c.scan) && h in c.scan.hosts && forall sp :: sp in ports ==> sp in h.ports
    ensures var after := AfterScan(c, later);
            Flat(Flat(ports, PortEntriesOf(c, h, claimed, services, first)), Views(after.ports, h.ip)) ==
            Map(Gather(services, PortKey(c.cfg.serviceTypes), ScannedPorts(ports)), ServiceViews(after, h.ip))
    decreases |ports|
  {
    if ports != [] {
      var front, sp := ports[..|ports| - 1], ports[|ports| - 1];
      var after, key := AfterScan(c, later), PortKey(c.cfg.serviceTypes);
      ScannedPartViewed(c, later, h, claimed, services, first, front);
      ScannedPortViewed(c, later, h, claimed, services, first, sp);
      FlatConcat(Flat(front, PortEntriesOf(c, h, claimed, services, first)),
                 PortEntry(c, h, claimed, services, first, sp), Views(after.ports, h.ip));
      match PortText(sp.key)
      case None =>
      case Some(p) =>
        GatherOneMore(services, key, ScannedPorts(front), p);
        MapConcat(Gather(services, key, ScannedPorts(front)), Select(services, key, Some(p)), ServiceViews(after, h.ip));
    }
  }

  lemma GatherOneMore<T, K>(items: seq<T>, key: T -> Option<K>, ks: seq<K>, k: K)
    ensures Gather(items, key, ks + [k]) == Gather(items, key, ks) + Select(items, key, Some(k))
  {
    assert (ks + [k])[..|ks|] == ks;
  }

  /** The configured ports the host did not report. */
  function Missed(order: seq<int>, scanned: seq<int>): (missed: seq<int>)
    ensures forall p :: p in missed <==> p in order && p !in scanned
    ensures Distinct(order) ==> Distinct(missed)
  {
    if order == [] then []
    else
      var front := Missed(order[..|order| - 1], scanned);
      assert order == order[..|order| - 1] + [order[|order| - 1]];
      if order[|order| - 1] in scanned then front else front + [order[|order| - 1]]
  }

  lemma MissedPortStamp(c: Context, later: int, h: Host, services: seq<ServiceRow>, p: int)
    requires ValidScan(c.scan) && h in c.scan.hosts && p !in ScannedPorts(h.ports)
    requires Backed(c.cfg, h.ip, p)
    ensures var stored := Get(AfterScan(c, later).ports, (h.ip, p));
            stored == Some(MissedStamp(c, h.ip, p)) || (stored == None && MissedStamp(c, h.ip, p).status == Offline)
  {
    assert Scanned(c.scan, h, h.ip);
    AfterPort(c, later, h.ip, p, Offline);
    if p !in c.scan.ports {
      forall t
        ensures !PortVerdict(c.cfg, c.scan, h.ip, p, t)
      {
        NoVerdict(c, h, p, t);
      }
    }
  }

  lemma NoVerdict(c: Context, h: Host, p: int, t: Status)
    requires ValidScan(c.scan) && h in c.scan.hosts && p !in ScannedPorts(h.ports) && p !in c.scan.ports
    ensures !PortVerdict(c.cfg, c.scan, h.ip, p, t)
  {
    assert Scanned(c.scan, h, h.ip);
    ScannedIpsSpec(c.scan, h.ip);
    forall g | Scanned(c.scan, g, h.ip)
      ensures !Reports(g, p, t)
    {
      OneHostPerAddress(c.scan, g, h, h.ip);
      ScannedPortsSpec(h.ports, p);
    }
  }

  lemma {:induction false} MissedPartViewed(c: Context, later: int, h: Host, services: seq<ServiceRow>, order: seq<int>)
    requires ValidScan(c.scan) && h in c.scan.hosts
    requires forall p :: p in order ==> Backed(c.cfg, h.ip, p)
    ensures var after := AfterScan(c, later);
            Flat(Flat(order, MissedEntriesOf(c, h, services)), Views(after.ports, h.ip)) ==
            Map(Gather(services, PortKey(c.cfg.serviceTypes), Missed(order, ScannedPorts(h.ports))), ServiceViews(after, h.ip))
    decreases |order|
  {
    if order != [] {
      var front, p := order[..|order| - 1], order[|order| - 1];
      var after, key := AfterScan(c, later), PortKey(c.cfg.serviceTypes);
      MissedPartViewed(c, later, h, services, front);
      FlatConcat(Flat(front, MissedEntriesOf(c, h, services)), MissedEntry(c, h, services, p), Views(after.ports, h.ip));
      if p !in ScannedPorts(h.ports) {
        MissedPortStamp(c, later, h, services, p);
        BackingViewed(after, h.ip, services, p, MissedStamp(c, h.ip, p));
        GatherOneMore(services, key, Missed(front, ScannedPorts(h.ports)), p);
        MapConcat(Gather(services, key, Missed(front, ScannedPorts(h.ports))), Select(services, key, Some(p)),
                  ServiceViews(after, h.ip));
      }
    }
  }

  lemma UnknownViewed(after: Context, ip: int, services: seq<ServiceRow>)
    ensures var rest := Select(services, PortKey(after.cfg.serviceTypes), None);
            Flat(Map(rest, UnknownPorts(after.cfg)), Views(after.ports, ip)) == Map(rest, ServiceViews(after, ip))
  {
    var key := PortKey(after.cfg.serviceTypes);
    var rest := Select(services, key, None);
    SelectMembers(services, key, None);
    forall s | s in rest
      ensures Views(after.ports, ip)(UnknownPorts(after.cfg)(s)) == [ServiceViews(after, ip)(s)]
    {
      assert key(s) == None;
    }
    FlatOfMapSingles(rest, UnknownPorts(after.cfg), Views(after.ports, ip), ServiceViews(after, ip));
  }

  /** One entry of a scanned host lists exactly its endpoint's services, each as the scan-free view
      would show it. */
  lemma HostPortsViewed(c: Context, later: int, h: Host, claimed: set<int>, services: seq<ServiceRow>, first: bool)
    requires ValidScan(c.scan) && h in c.scan.hosts
    requires forall p :: p in PortSet(c.cfg.serviceTypes, services) ==> Backed(c.cfg, h.ip, p)
    ensures var after := AfterScan(c, later);
            multiset(Flat(HostPorts(c, h, claimed, services, first), Views(after.ports, h.ip))) ==
            multiset(Map(services, ServiceViews(after, h.ip)))
  {
    var after, key := AfterScan(c, later), PortKey(c.cfg.serviceTypes);
    var scanned, missed := ScannedPorts(h.ports), Missed(Keys(services, key), ScannedPorts(h.ports));
    var f, v := ServiceViews(after, h.ip), Views(after.ports, h.ip);
    var a := Flat(h.ports, PortEntriesOf(c, h, claimed, services, first));
    var b := Flat(Keys(services, key), MissedEntriesOf(c, h, services));
    var d := Map(Select(services, key, None), UnknownPorts(c.cfg));
    FlatConcat(a + b, d, v);
    FlatConcat(a, b, v);
    ScannedPartViewed(c, later, h, claimed, services, first, h.ports);
    MissedPartViewed(c, later, h, services, Keys(services, key));
    UnknownViewed(after, h.ip, services);
    PortsPartition(services, key, scanned, missed);
    GatherConcat(services, key, scanned, missed);
    MapConcat(Gather(services, key, scanned), Gather(services, key, missed), f);
    MapConcat(Gather(services, key, scanned + missed), Select(services, key, None), f);
    MapMultiset(Gather(services, key, scanned + missed) + Select(services, key, None), services, f);
  }

  lemma PortsPartition(services: seq<ServiceRow>, key: ServiceRow -> Option<int>, scanned: seq<int>, missed: seq<int>)
    requires Distinct(scanned) && missed == Missed(Keys(services, key), scanned)
    ensures multiset(Gather(services, key, scanned + missed) + Select(services, key, None)) == multiset(services)
  {
    KeysSpec(services, key);
    forall i, j | 0 <= i < j < |scanned + missed|
      ensures (scanned + missed)[i] != (scanned + missed)[j]
    {
      if i < |scanned| <= j {
        assert missed[j - |scanned|] in missed && scanned[i] in scanned;
      }
    }
    Partition(services, key, scanned + missed);
  }

  // ----- agreement of whole entries -----

  /** The live entry of an endpoint and its scan-free entry agree. */
  ghost predicate Agrees(live: MappedEndpoint, view: MappedEndpoint, after: Context) {
    && live.endpointId == view.endpointId && live.typeId == view.typeId
    && live.ip == view.ip && live.status == view.status
    && (live.ip.Addr? && live.ip.ip in after.hosts ==> live.changedAt == view.changedAt)
    && var ip := if live.ip.Addr? then live.ip.ip else 0;
       multiset(Flat(live.ports, Views(after.ports, ip))) == multiset(Flat(view.ports, Views(after.ports, ip)))
  }

  lemma ServicesAreBacked(cfg: Config, ip: int, e: EndpointRow)
    requires EndpointAt(cfg, e, ip)
    ensures forall p :: p in PortSet(cfg.serviceTypes, Listed(cfg, e.id)) ==> Backed(cfg, ip, p)
  {}

  lemma ScannedEntryAgrees(c: Context, later: int, h: Host, e: EndpointRow, first: bool)
    requires ValidScan(c.scan) && h in c.scan.hosts && EndpointAt(c.cfg, e, h.ip)
    ensures Agrees(HostEntry(c, h, Some(e), first), LastKnownView(AfterScan(c, later), e), AfterScan(c, later))
  {
    var after := AfterScan(c, later);
    assert Scanned(c.scan, h, h.ip);
    AfterHost(c, later, h.ip, h.status);
    ServicesAreBacked(c.cfg, h.ip, e);
    HostPortsViewed(c, later, h, Claimed(c.cfg, h.ip), Listed(c.cfg, e.id), first);
    ListedAsViews(after, h.ip, Listed(c.cfg, e.id));
  }

  lemma OfflineServiceAgrees(c: Context, later: int, ip: int, e: EndpointRow, s: ServiceRow)
    requires ValidScan(c.scan) && ConfirmedOffline(c.scan, ip) && EndpointAt(c.cfg, e, ip)
    requires s in Listed(c.cfg, e.id)
    ensures PortView(AfterScan(c, later).ports, ip, OfflinePort(c, ip, s)) == [ServiceView(AfterScan(c, later), ip, s)]
  {
    match PortOf(c.cfg.serviceTypes, s)
    case None =>
    case Some(p) =>
      KeysSpec(Listed(c.cfg, e.id), PortKey(c.cfg.serviceTypes));
      assert PortKey(c.cfg.serviceTypes)(s) == Some(p);
      ServicesAreBacked(c.cfg, ip, e);
      AfterPort(c, later, ip, p, Offline);
      StampedViewed(AfterScan(c, later), ip, s, p, Stamped(Get(c.ports, (ip, p)), Offline, c.now));
  }

  lemma OfflinePortsAgree(c: Context, later: int, ip: int, e: EndpointRow)
    requires ValidScan(c.scan) && ConfirmedOffline(c.scan, ip) && EndpointAt(c.cfg, e, ip)
    ensures var after, services := AfterScan(c, later), Listed(c.cfg, e.id);
            Flat(Map(services, OfflinePorts(c, ip)), Views(after.ports, ip)) == Map(services, ServiceViews(after, ip))
  {
    var after, services := AfterScan(c, later), Listed(c.cfg, e.id);
    forall s | s in services
      ensures Views(after.ports, ip)(OfflinePorts(c, ip)(s)) == [ServiceViews(after, ip)(s)]
    {
      OfflineServiceAgrees(c, later, ip, e, s);
    }
    FlatOfMapSingles(services, OfflinePorts(c, ip), Views(after.ports, ip), ServiceViews(after, ip));
  }

  lemma OfflineEntryAgrees(c: Context, later: int, ip: int, e: EndpointRow)
    requires ValidScan(c.scan) && ConfirmedOffline(c.scan, ip) && EndpointAt(c.cfg, e, ip)
    ensures Agrees(OfflineEntry(c, ip, e), LastKnownView(AfterScan(c, later), e), AfterScan(c, later))
  {
    AfterHost(c, later, ip, Offline);
    OfflinePortsAgree(c, later, ip, e);
    ListedAsViews(AfterScan(c, later), ip, Listed(c.cfg, e.id));
  }

  /** An address the scan neither found nor covered keeps its stored statuses. */
  lemma UnprobedIsUnchanged(c: Context, later: int, ip: int, p: int)
    requires ValidScan(c.scan) && ip !in ScannedIps(c.scan.hosts) && !InScannedNetwork(c.scan, ip)
    ensures Get(AfterScan(c, later).hosts, ip) == Get(c.hosts, ip)
    ensures Get(AfterScan(c, later).ports, (ip, p)) == Get(c.ports, (ip, p))
  {
    ScannedIpsSpec(c.scan, ip);
    AfterHost(c, later, ip, Offline);
    AfterPort(c, later, ip, p, Offline);
  }

  lemma UnprobedPortsAgree(c: Context, later: int, ip: int, services: seq<ServiceRow>)
    requires ValidScan(c.scan) && ip !in ScannedIps(c.scan.hosts) && !InScannedNetwork(c.scan, ip)
    ensures var after := AfterScan(c, later);
            Flat(Map(services, LastKnownPorts(c, ip)), Views(after.ports, ip)) == Map(services, ServiceViews(after, ip))
  {
    var after := AfterScan(c, later);
    forall s | s in services
      ensures Views(after.ports, ip)(LastKnownPorts(c, ip)(s)) == [ServiceViews(after, ip)(s)]
    {
      match PortOf(c.cfg.serviceTypes, s)
      case None =>
      case Some(p) => UnprobedIsUnchanged(c, later, ip, p);
    }
    FlatOfMapSingles(services, LastKnownPorts(c, ip), Views(after.ports, ip), ServiceViews(after, ip));
  }

  lemma UnprobedEntryAgrees(c: Context, later: int, ip: int, e: EndpointRow)
    requires ValidScan(c.scan) && ip !in ScannedIps(c.scan.hosts) && !InScannedNetwork(c.scan, ip)
    requires EndpointAt(c.cfg, e, ip)
    ensures Agrees(LastKnownEntry(c, ip, e), LastKnownView(AfterScan(c, later), e), AfterScan(c, later))
  {
    UnprobedIsUnchanged(c, later, ip, 0);
    UnprobedPortsAgree(c, later, ip, Listed(c.cfg, e.id));
    ListedAsViews(AfterScan(c, later), ip, Listed(c.cfg, e.id));
  }

  /** The live view and the last-known view agree on every configured endpoint and service. */
  lemma LiveAgreesWithLastKnown(c: Context, later: int, m: MappedEndpoint)
    requires ValidScan(c.scan) && m in NetworkOverview(c) && m.endpointId.Some?
    ensures exists e: EndpointRow :: e in TypedEndpoints(c.cfg.endpointTypes, c.cfg.endpoints) && m.endpointId == Some(e.id)
                        && Agrees(m, LastKnownView(AfterScan(c, later), e), AfterScan(c, later))
  {
    if m in Flat(c.scan.hosts, HostEntriesOf(c)) {
      FlatMembers(c.scan.hosts, HostEntriesOf(c), m);
      var h :| h in c.scan.hosts && m in HostEntriesOf(c)(h);
      var e, first := EndpointOfHostEntry(c, h, m);
      ScannedEntryAgrees(c, later, h, e, first);
    } else if m in Flat(ConfiguredIps(c.cfg), AbsentEntriesOf(c)) {
      FlatMembers(ConfiguredIps(c.cfg), AbsentEntriesOf(c), m);
      var ip :| ip in ConfiguredIps(c.cfg) && m in AbsentEntriesOf(c)(ip);
      MapMembers(Group(c.cfg, ip), AbsentEntry(c, ip), m);
      var e :| e in Group(c.cfg, ip) && m == AbsentEntry(c, ip)(e);
      GroupSpec(c.cfg, ip);
      if InScannedNetwork(c.scan, ip) {
        OfflineEntryAgrees(c, later, ip, e);
      } else {
        UnprobedEntryAgrees(c, later, ip, e);
      }
    } else {
      var rows, key := TypedEndpoints(c.cfg.endpointTypes, c.cfg.endpoints), IpKey(c.cfg.endpointTypes);
      MapMembers(WithoutIp(c.cfg), EntriesWithoutIp(c.cfg), m);
      var e :| e in WithoutIp(c.cfg) && m == EntriesWithoutIp(c.cfg)(e);
      SelectMembers(rows, key, None);
      assert key(e) == None;
    }
  }

  lemma EndpointOfHostEntry(c: Context, h: Host, m: MappedEndpoint) returns (e: EndpointRow, first: bool)
    requires m in EntriesOf(c, h) && m.endpointId.Some?
    ensures EndpointAt(c.cfg, e, h.ip) && m == HostEntry(c, h, Some(e), first)
  {
    var group := Group(c.cfg, h.ip);
    GroupSpec(c.cfg, h.ip);
    if m == EntriesOf(c, h)[0] {
      assert group != [];
      e, first := group[0], true;
    } else {
      MapMembers(group[1..], LaterEntries(c, h), m);
      e :| e in group[1..] && m == LaterEntries(c, h)(e);
      first := false;
    }
  }

  // ----- every configured service exactly once under its endpoint -----

  function ServiceIdOf(): MappedPort -> seq<string> {
    (mp: MappedPort) => if mp.serviceId.Some? then [mp.serviceId.value] else []
  }

  function ViewId(): View -> string {
    (v: View) => v.serviceId
  }

  function RowId(): ServiceRow -> string {
    (s: ServiceRow) => s.id
  }

  lemma {:induction false} IdsOfViews(history: map<(int, int), Stamp>, ip: int, ports: seq<MappedPort>)
    ensures Flat(ports, ServiceIdOf()) == Map(Flat(ports, Views(history, ip)), ViewId())
  {
    if ports != [] {
      var front, last := ports[..|ports| - 1], ports[|ports| - 1];
      IdsOfViews(history, ip, front);
      MapConcat(Flat(front, Views(history, ip)), Views(history, ip)(last), ViewId());
    }
  }

  lemma LastKnownIds(after: Context, e: EndpointRow)
    ensures Flat(LastKnownView(after, e).ports, ServiceIdOf()) == Map(Listed(after.cfg, e.id), RowId())
  {
    var services := Listed(after.cfg, e.id);
    match IpOf(after.cfg.endpointTypes, e)
    case Some(ip) => FlatOfMapSingles(services, LastKnownPorts(after, ip), ServiceIdOf(), RowId());
    case None => FlatOfMapSingles(services, UnknownPorts(after.cfg), ServiceIdOf(), RowId());
  }

  /** Every service's type id exists. */
  predicate ServiceTypesExist(cfg: Config) {
    forall id :: id in cfg.services ==>
      forall s :: s in cfg.services[id] ==> FindType(cfg.serviceTypes, s.typeId).Some?
  }

  lemma {:induction false} AllServicesTyped(types: seq<Overview.TypeRow>, rows: seq<ServiceRow>)
    requires forall s :: s in rows ==> FindType(types, s.typeId).Some?
    ensures TypedServices(types, rows) == rows
  {
    if rows != [] {
      AllServicesTyped(types, rows[..|rows| - 1]);
      assert rows == rows[..|rows| - 1] + [rows[|rows| - 1]];
    }
  }

  /** An entry of a configured endpoint lists each of its services exactly once: on its scanned
      port, as missed, or without a port. */
  lemma ServicesConserved(c: Context, m: MappedEndpoint)
    requires ValidScan(c.scan) && ServiceTypesExist(c.cfg) && m in NetworkOverview(c) && m.endpointId.Some?
    ensures multiset(Flat(m.ports, ServiceIdOf())) == multiset(Map(GetServices(c.cfg, m.endpointId.value), RowId()))
  {
    var after := AfterScan(c, c.now);
    LiveAgreesWithLastKnown(c, c.now, m);
    var e: EndpointRow :| m.endpointId == Some(e.id) && Agrees(m, LastKnownView(after, e), after);
    SameServices(m, LastKnownView(after, e), after);
    LastKnownIds(after, e);
    AllServicesTyped(c.cfg.serviceTypes, GetServices(c.cfg, e.id));
  }

  lemma SameServices(m: MappedEndpoint, view: MappedEndpoint, after: Context)
    requires Agrees(m, view, after)
    ensures multiset(Flat(m.ports, ServiceIdOf())) == multiset(Flat(view.ports, ServiceIdOf()))
  {
    var ip := if m.ip.Addr? then m.ip.ip else 0;
    IdsOfViews(after.ports, ip, m.ports);
    IdsOfViews(after.ports, ip, view.ports);
    MapMultiset(Flat(m.ports, Views(after.ports, ip)), Flat(view.ports, Views(after.ports, ip)), ViewId());
  }
}
