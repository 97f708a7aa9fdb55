/** Laws of the network overview: nothing configured or scanned is lost or doubled, and the live view
    agrees with the last-known view built from what it persisted. */
module OverviewLaws {
  import opened Wrappers
  import opened Grouping
  import opened StatusHistory
  import opened Overview
  import opened OverviewWrites

  // ----- every configured endpoint appears exactly once -----

  function EndpointId(): EndpointRow -> string {
    (e: EndpointRow) => e.id
  }

  function IdsOf(): MappedEndpoint -> seq<string> {
    (m: MappedEndpoint) => if m.endpointId.Some? then [m.endpointId.value] else []
  }

  /** The endpoint ids listed in an overview, in order. */
  function ListedIds(entries: seq<MappedEndpoint>): seq<string> {
    Flat(entries, IdsOf())
  }

  function GroupIds(cfg: Config): int -> seq<string> {
    ip => Map(Group(cfg, ip), EndpointId())
  }

  /** The configured addresses the scan did not report. */
  function AbsentIps(ips: seq<int>, scan: Scan): (absent: seq<int>)
    ensures forall ip :: ip in absent <==> ip in ips && ip !in ScannedIps(scan.hosts)
    ensures Distinct(ips) ==> Distinct(absent)
  {
    if ips == [] then []
    else
      var front := AbsentIps(ips[..|ips| - 1], scan);
      assert ips == ips[..|ips| - 1] + [ips[|ips| - 1]];
      if ips[|ips| - 1] in ScannedIps(scan.hosts) then front else front + [ips[|ips| - 1]]
  }

  lemma EntryOfEndpoint(c: Context, h: Host, e: EndpointRow, first: bool)
    ensures HostEntry(c, h, Some(e), first).endpointId == Some(e.id)
    ensures HostEntry(c, h, Some(e), first).ip == Addr(h.ip)
    ensures HostEntry(c, h, Some(e), first).ports ==
            HostPorts(c, h, Claimed(c.cfg, h.ip), Listed(c.cfg, e.id), first)
  {}

  lemma EntryOfLoneHost(c: Context, h: Host)
    ensures HostEntry(c, h, None, true).endpointId == None && HostEntry(c, h, None, true).ip == Addr(h.ip)
    ensures HostEntry(c, h, None, true).ports == HostPorts(c, h, Claimed(c.cfg, h.ip), [], true)
  {}

  /** An entry for the first of a group, then one for each of the others. */
  lemma HeadAndRest<U>(group: seq<EndpointRow>, head: MappedEndpoint, f: EndpointRow -> MappedEndpoint,
                       g: MappedEndpoint -> seq<U>, h: EndpointRow -> seq<U>)
    requires group != [] && g(head) == h(group[0])
    requires forall e :: e in group[1..] ==> g(f(e)) == h(e)
    ensures Flat([head] + Map(group[1..], f), g) == Flat(group, h)
  {
    FlatOfMap(group[1..], f, g, h);
    FlatConcat([head], Map(group[1..], f), g);
    FlatMore([], head, g);
    FlatConcat([group[0]], group[1..], h);
    FlatMore([], group[0], h);
    assert group == [group[0]] + group[1..];
    assert [] + [head] == [head] && [] + [group[0]] == [group[0]];
  }

  function IdList(): EndpointRow -> seq<string> {
    (e: EndpointRow) => [e.id]
  }

  lemma EntriesOfIds(c: Context, h: Host)
    ensures ListedIds(EntriesOf(c, h)) == GroupIds(c.cfg)(h.ip)
  {
    var group := Group(c.cfg, h.ip);
    if group == [] {
      EntryOfLoneHost(c, h);
      FlatMore([], HostEntry(c, h, None, true), IdsOf());
    } else {
      EntryOfEndpoint(c, h, group[0], true);
      forall e | e in group[1..]
        ensures IdsOf()(LaterEntries(c, h)(e)) == IdList()(e)
      {
        EntryOfEndpoint(c, h, e, false);
      }
      HeadAndRest(group, HostEntry(c, h, Some(group[0]), true), LaterEntries(c, h), IdsOf(), IdList());
      FlatSingles(group, IdList(), EndpointId());
    }
  }

  lemma AbsentEntriesIds(c: Context, ip: int)
    ensures ListedIds(AbsentEntries(c, ip)) ==
            if ip in ScannedIps(c.scan.hosts) then [] else GroupIds(c.cfg)(ip)
  {
    if ip !in ScannedIps(c.scan.hosts) {
      FlatOfMapSingles(Group(c.cfg, ip), AbsentEntry(c, ip), IdsOf(), EndpointId());
    }
  }

  lemma {:induction false} AbsentPartIds(c: Context, ips: seq<int>)
    ensures ListedIds(Flat(ips, AbsentEntriesOf(c))) == Flat(AbsentIps(ips, c.scan), GroupIds(c.cfg))
  {
    if ips != [] {
      var front, ip := ips[..|ips| - 1], ips[|ips| - 1];
      AbsentPartIds(c, front);
      AbsentEntriesIds(c, ip);
      FlatConcat(Flat(front, AbsentEntriesOf(c)), AbsentEntries(c, ip), IdsOf());
      FlatMore(AbsentIps(front, c.scan), ip, GroupIds(c.cfg));
    }
  }

  function IpOfHost(): Host -> int {
    (h: Host) => h.ip
  }

  lemma HostPartIds(c: Context)
    ensures ListedIds(Flat(c.scan.hosts, HostEntriesOf(c))) == Flat(ScannedIps(c.scan.hosts), GroupIds(c.cfg))
  {
    var hosts := c.scan.hosts;
    var perHost := (h: Host) => GroupIds(c.cfg)(h.ip);
    forall h | h in hosts
      ensures Flat(HostEntriesOf(c)(h), IdsOf()) == perHost(h)
    {
      EntriesOfIds(c, h);
    }
    FlatOfFlat(hosts, HostEntriesOf(c), IdsOf(), perHost);
    FlatOfMap(hosts, IpOfHost(), GroupIds(c.cfg), perHost);
    assert ScannedIps(hosts) == Map(hosts, IpOfHost());
  }

  lemma OverviewIds(c: Context)
    ensures ListedIds(NetworkOverview(c)) ==
            Flat(ScannedIps(c.scan.hosts) + AbsentIps(ConfiguredIps(c.cfg), c.scan), GroupIds(c.cfg))
            + Map(WithoutIp(c.cfg), EndpointId())
  {
    var a, b, d := Flat(c.scan.hosts, HostEntriesOf(c)), Flat(ConfiguredIps(c.cfg), AbsentEntriesOf(c)),
                   Map(WithoutIp(c.cfg), EntriesWithoutIp(c.cfg));
    FlatConcat(a + b, d, IdsOf());
    FlatConcat(a, b, IdsOf());
    HostPartIds(c);
    AbsentPartIds(c, ConfiguredIps(c.cfg));
    FlatOfMapSingles(WithoutIp(c.cfg), EntriesWithoutIp(c.cfg), IdsOf(), EndpointId());
    FlatConcat(ScannedIps(c.scan.hosts), AbsentIps(ConfiguredIps(c.cfg), c.scan), GroupIds(c.cfg));
  }

  /** Listing sorted groups or unsorted ones lists the same ids. */
  lemma {:induction false} GroupsGather(cfg: Config, ips: seq<int>)
    ensures multiset(Flat(ips, GroupIds(cfg))) ==
            multiset(Map(Gather(TypedEndpoints(cfg.endpointTypes, cfg.endpoints), IpKey(cfg.endpointTypes), ips), EndpointId()))
  {
    if ips != [] {
      var front, ip := ips[..|ips| - 1], ips[|ips| - 1];
      var rows, key := TypedEndpoints(cfg.endpointTypes, cfg.endpoints), IpKey(cfg.endpointTypes);
      GroupsGather(cfg, front);
      SortPermutes(Select(rows, key, Some(ip)));
      MapMultiset(Group(cfg, ip), Select(rows, key, Some(ip)), EndpointId());
      MapConcat(Gather(rows, key, front), Select(rows, key, Some(ip)), EndpointId());
    }
  }

  lemma AllIpsCovered(cfg: Config, scan: Scan, e: EndpointRow)
    requires e in TypedEndpoints(cfg.endpointTypes, cfg.endpoints) && IpOf(cfg.endpointTypes, e).Some?
    ensures IpOf(cfg.endpointTypes, e).value in ScannedIps(scan.hosts) + AbsentIps(ConfiguredIps(cfg), scan)
  {
    var ip := IpOf(cfg.endpointTypes, e).value;
    assert EndpointAt(cfg, e, ip);
    ConfiguredIpsSpec(cfg, ip);
  }

  lemma DistinctUnion(cfg: Config, scan: Scan)
    requires Distinct(ScannedIps(scan.hosts))
    ensures Distinct(ScannedIps(scan.hosts) + AbsentIps(ConfiguredIps(cfg), scan))
  {
    KeysSpec(TypedEndpoints(cfg.endpointTypes, cfg.endpoints), IpKey(cfg.endpointTypes));
    var a, b := ScannedIps(scan.hosts), AbsentIps(ConfiguredIps(cfg), scan);
    forall i, j | 0 <= i < j < |a + b|
      ensures (a + b)[i] != (a + b)[j]
    {
      if i < |a| <= j {
        assert b[j - |a|] in b && a[i] in a;
      }
    }
  }

  /** Every type id exists. */
  predicate TypesExist(cfg: Config) {
    forall e :: e in cfg.endpoints ==> FindType(cfg.endpointTypes, e.typeId).Some?
  }

  lemma {:induction false} AllTyped(types: seq<Overview.TypeRow>, rows: seq<EndpointRow>)
    requires forall e :: e in rows ==> FindType(types, e.typeId).Some?
    ensures TypedEndpoints(types, rows) == rows
  {
    if rows != [] {
      AllTyped(types, rows[..|rows| - 1]);
      assert rows == rows[..|rows| - 1] + [rows[|rows| - 1]];
    }
  }

  /** Each configured endpoint is listed exactly as often as it is configured: once, whether it was
      scanned, is absent, or has no usable address, and however many endpoints share its address. */
  lemma EndpointsConserved(c: Context)
    requires Distinct(ScannedIps(c.scan.hosts)) && TypesExist(c.cfg)
    ensures multiset(ListedIds(NetworkOverview(c))) == multiset(Map(c.cfg.endpoints, EndpointId()))
  {
    var rows, key := TypedEndpoints(c.cfg.endpointTypes, c.cfg.endpoints), IpKey(c.cfg.endpointTypes);
    var ips := ScannedIps(c.scan.hosts) + AbsentIps(ConfiguredIps(c.cfg), c.scan);
    AllTyped(c.cfg.endpointTypes, c.cfg.endpoints);
    OverviewIds(c);
    DistinctUnion(c.cfg, c.scan);
    forall e | e in rows && key(e).Some?
      ensures key(e).value in ips
    {
      AllIpsCovered(c.cfg, c.scan, e);
    }
    Partition(rows, key, ips);
    GroupsGather(c.cfg, ips);
    var gathered := Gather(rows, key, ips) + WithoutIp(c.cfg);
    MapConcat(Gather(rows, key, ips), WithoutIp(c.cfg), EndpointId());
    MapMultiset(gathered, rows, EndpointId());
  }

  // ----- hosts without a configured endpoint, and unclaimed ports -----

  function UnassignedOf(): MappedEndpoint -> seq<ShownIp> {
    (m: MappedEndpoint) => if m.endpointId.None? then [m.ip] else []
  }

  function LoneHost(cfg: Config): Host -> seq<ShownIp> {
    (h: Host) => if Group(cfg, h.ip) == [] then [Addr(h.ip)] else []
  }

  /** Each scanned host without a configured endpoint is listed exactly once, in scan order. */
  lemma UnassignedHostsListedOnce(c: Context)
    ensures Flat(NetworkOverview(c), UnassignedOf()) == Flat(c.scan.hosts, LoneHost(c.cfg))
  {
    var a, b, d := Flat(c.scan.hosts, HostEntriesOf(c)), Flat(ConfiguredIps(c.cfg), AbsentEntriesOf(c)),
                   Map(WithoutIp(c.cfg), EntriesWithoutIp(c.cfg));
    FlatConcat(a + b, d, UnassignedOf());
    FlatConcat(a, b, UnassignedOf());
    forall h | h in c.scan.hosts
      ensures Flat(HostEntriesOf(c)(h), UnassignedOf()) == LoneHost(c.cfg)(h)
    {
      UnassignedInHost(c, h);
    }
    FlatOfFlat(c.scan.hosts, HostEntriesOf(c), UnassignedOf(), LoneHost(c.cfg));
    forall m | m in b || m in d
      ensures UnassignedOf()(m) == []
    {
      OnlyEndpoints(c, m);
    }
    FlatEmpty(b, UnassignedOf());
    FlatEmpty(d, UnassignedOf());
  }

  /** The entries after the scanned hosts all belong to configured endpoints. */
  lemma OnlyEndpoints(c: Context, m: MappedEndpoint)
    requires m in Flat(ConfiguredIps(c.cfg), AbsentEntriesOf(c)) || m in Map(WithoutIp(c.cfg), EntriesWithoutIp(c.cfg))
    ensures m.endpointId.Some? && FreePorts(m.ports) == []
  {
    if m in Flat(ConfiguredIps(c.cfg), AbsentEntriesOf(c)) {
      AbsentEndpoint(c, m);
    } else {
      MapMembers(WithoutIp(c.cfg), EntriesWithoutIp(c.cfg), m);
      FlatEmpty(m.ports, FreePort());
    }
  }

  lemma AbsentEndpoint(c: Context, m: MappedEndpoint)
    requires m in Flat(ConfiguredIps(c.cfg), AbsentEntriesOf(c))
    ensures m.endpointId.Some? && FreePorts(m.ports) == []
  {
    FlatMembers(ConfiguredIps(c.cfg), AbsentEntriesOf(c), m);
    var ip :| ip in ConfiguredIps(c.cfg) && m in AbsentEntriesOf(c)(ip);
    MapMembers(Group(c.cfg, ip), AbsentEntry(c, ip), m);
    var e :| m == AbsentEntry(c, ip)(e);
    AbsentEntryServices(c, ip, e);
  }

  lemma AbsentEntryServices(c: Context, ip: int, e: EndpointRow)
    ensures var m := AbsentEntry(c, ip)(e); m.endpointId == Some(e.id) && FreePorts(m.ports) == []
  {
    var services := Listed(c.cfg, e.id);
    FlatEmpty(Map(services, OfflinePorts(c, ip)), FreePort());
    FlatEmpty(Map(services, LastKnownPorts(c, ip)), FreePort());
  }

  function NoneUnassigned(): EndpointRow -> seq<ShownIp> {
    (e: EndpointRow) => []
  }

  lemma UnassignedInHost(c: Context, h: Host)
    ensures Flat(EntriesOf(c, h), UnassignedOf()) == LoneHost(c.cfg)(h)
  {
    var group := Group(c.cfg, h.ip);
    if group == [] {
      EntryOfLoneHost(c, h);
      FlatMore([], HostEntry(c, h, None, true), UnassignedOf());
    } else {
      EntryOfEndpoint(c, h, group[0], true);
      forall e | e in group[1..]
        ensures UnassignedOf()(LaterEntries(c, h)(e)) == NoneUnassigned()(e)
      {
        EntryOfEndpoint(c, h, e, false);
      }
      HeadAndRest(group, HostEntry(c, h, Some(group[0]), true), LaterEntries(c, h), UnassignedOf(), NoneUnassigned());
      FlatEmpty(group, NoneUnassigned());
    }
  }

  function FreePort(): MappedPort -> seq<int> {
    (mp: MappedPort) => if mp.serviceId.None? && mp.port.Some? then [mp.port.value] else []
  }

  /** The ports of an entry that belong to no service. */
  function FreePorts(ports: seq<MappedPort>): seq<int> {
    Flat(ports, FreePort())
  }

  /** The scanned ports of a host that no configured service claims, in scan order. */
  function Unclaimed(ports: seq<ScanPort>, claimed: set<int>): (free: seq<int>)
    ensures forall p :: p in free <==> p in ScannedPorts(ports) && p !in claimed
    ensures Distinct(ScannedPorts(ports)) ==> Distinct(free)
  {
    if ports == [] then []
    else
      var front := Unclaimed(ports[..|ports| - 1], claimed);
      assert ScannedPorts(ports[..|ports| - 1]) <= ScannedPorts(ports);
      match PortText(ports[|ports| - 1].key)
      case None => front
      case Some(p) =>
        assert ScannedPorts(ports) == ScannedPorts(ports[..|ports| - 1]) + [p];
        assert Distinct(ScannedPorts(ports)) ==> p !in front by {
          if Distinct(ScannedPorts(ports)) {
            DistinctLast(ScannedPorts(ports[..|ports| - 1]), p);
          }
        }
        if p in claimed then front else front + [p]
  }

  lemma FreeInScanned(c: Context, h: Host, claimed: set<int>, services: seq<ServiceRow>, first: bool, ports: seq<ScanPort>)
    requires PortSet(c.cfg.serviceTypes, services) <= claimed
    ensures FreePorts(Flat(ports, PortEntriesOf(c, h, claimed, services, first))) ==
            if first then Unclaimed(ports, claimed) else []
    decreases ports
  {
    if ports != [] {
      var front, sp := ports[..|ports| - 1], ports[|ports| - 1];
      FreeInScanned(c, h, claimed, services, first, front);
      FlatConcat(Flat(front, PortEntriesOf(c, h, claimed, services, first)),
                 PortEntry(c, h, claimed, services, first, sp), FreePort());
      FreeInPort(c, h, claimed, services, first, sp);
    }
  }

  lemma FreeInPort(c: Context, h: Host, claimed: set<int>, services: seq<ServiceRow>, first: bool, sp: ScanPort)
    requires PortSet(c.cfg.serviceTypes, services) <= claimed
    ensures FreePorts(PortEntry(c, h, claimed, services, first, sp)) ==
            match PortText(sp.key)
            case None => []
            case Some(p) => if first && p !in claimed then [p] else []
  {
    var entries := PortEntry(c, h, claimed, services, first, sp);
    match PortText(sp.key)
    case None =>
    case Some(p) =>
      if Select(services, PortKey(c.cfg.serviceTypes), Some(p)) != [] {
        BackedIsClaimed(c.cfg, services, p);
        FlatEmpty(entries, FreePort());
      } else if first && p !in claimed {
        FlatMore([], entries[0], FreePort());
        assert entries == [] + [entries[0]];
      }
  }

  lemma BackedIsClaimed(cfg: Config, services: seq<ServiceRow>, p: int)
    requires Select(services, PortKey(cfg.serviceTypes), Some(p)) != []
    ensures p in PortSet(cfg.serviceTypes, services)
  {
    var key := PortKey(cfg.serviceTypes);
    var s := Select(services, key, Some(p))[0];
    SelectMembers(services, key, Some(p));
    KeysSpec(services, key);
    assert s in services && key(s) == Some(p);
  }

  lemma NoFreeInMissed(c: Context, h: Host, services: seq<ServiceRow>)
    ensures FreePorts(Flat(Keys(services, PortKey(c.cfg.serviceTypes)), MissedEntriesOf(c, h, services))) == []
  {
    var keys := Keys(services, PortKey(c.cfg.serviceTypes));
    forall mp | mp in Flat(keys, MissedEntriesOf(c, h, services))
      ensures FreePort()(mp) == []
    {
      FlatMembers(keys, MissedEntriesOf(c, h, services), mp);
    }
    FlatEmpty(Flat(keys, MissedEntriesOf(c, h, services)), FreePort());
  }

  lemma NoFreeInUnknown(c: Context, services: seq<ServiceRow>)
    ensures FreePorts(Map(services, UnknownPorts(c.cfg))) == []
  {
    FlatEmpty(Map(services, UnknownPorts(c.cfg)), FreePort());
  }

  /** On one entry of a scanned host, the unclaimed ports are listed exactly on the first entry. */
  lemma FreeInEntry(c: Context, h: Host, claimed: set<int>, services: seq<ServiceRow>, first: bool)
    requires PortSet(c.cfg.serviceTypes, services) <= claimed
    ensures FreePorts(HostPorts(c, h, claimed, services, first)) == if first then Unclaimed(h.ports, claimed) else []
  {
    var key := PortKey(c.cfg.serviceTypes);
    var a := Flat(h.ports, PortEntriesOf(c, h, claimed, services, first));
    var b := Flat(Keys(services, key), MissedEntriesOf(c, h, services));
    var d := Map(Select(services, key, None), UnknownPorts(c.cfg));
    FlatConcat(a + b, d, FreePort());
    FlatConcat(a, b, FreePort());
    FreeInScanned(c, h, claimed, services, first, h.ports);
    NoFreeInMissed(c, h, services);
    NoFreeInUnknown(c, Select(services, key, None));
    assert FreePorts(a + b + d) == FreePorts(a) + FreePorts(b) + FreePorts(d);
  }

  lemma GroupServicesClaimed(cfg: Config, ip: int, e: EndpointRow)
    requires e in Group(cfg, ip)
    ensures PortSet(cfg.serviceTypes, Listed(cfg, e.id)) <= Claimed(cfg, ip)
  {
    forall p | p in PortSet(cfg.serviceTypes, Listed(cfg, e.id))
      ensures p in Claimed(cfg, ip)
    {
      ClaimedBySpec(cfg, Group(cfg, ip), p);
    }
  }

  function FreeOf(): MappedEndpoint -> seq<(ShownIp, int)> {
    (m: MappedEndpoint) => Map(FreePorts(m.ports), AtIp(m.ip))
  }

  function AtIp(ip: ShownIp): int -> (ShownIp, int) {
    p => (ip, p)
  }

  function UnclaimedOf(cfg: Config): Host -> seq<(ShownIp, int)> {
    (h: Host) => Map(Unclaimed(h.ports, Claimed(cfg, h.ip)), AtIp(Addr(h.ip)))
  }

  /** The free ports of one configured entry of a scanned host. */
  lemma FreeInConfigured(c: Context, h: Host, e: EndpointRow, first: bool)
    requires e in Group(c.cfg, h.ip)
    ensures FreePorts(HostEntry(c, h, Some(e), first).ports) ==
            if first then Unclaimed(h.ports, Claimed(c.cfg, h.ip)) else []
  {
    EntryOfEndpoint(c, h, e, first);
    GroupServicesClaimed(c.cfg, h.ip, e);
    FreeInEntry(c, h, Claimed(c.cfg, h.ip), Listed(c.cfg, e.id), first);
  }

  lemma FreeInLoneHost(c: Context, h: Host)
    ensures FreePorts(HostEntry(c, h, None, true).ports) == Unclaimed(h.ports, Claimed(c.cfg, h.ip))
  {
    EntryOfLoneHost(c, h);
    assert PortSet(c.cfg.serviceTypes, []) == {};
    FreeInEntry(c, h, Claimed(c.cfg, h.ip), [], true);
  }

  /** All of a host's unclaimed ports sit on its first entry, once each. */
  lemma FirstEntryCarriesUnclaimed(c: Context, h: Host)
    ensures var entries := EntriesOf(c, h);
            && entries != []
            && FreePorts(entries[0].ports) == Unclaimed(h.ports, Claimed(c.cfg, h.ip))
            && forall i :: 0 < i < |entries| ==> FreePorts(entries[i].ports) == []
  {
    var group := Group(c.cfg, h.ip);
    if group == [] {
      FreeInLoneHost(c, h);
    } else {
      FreeInConfigured(c, h, group[0], true);
      forall e | e in group
        ensures FreePorts(LaterEntries(c, h)(e).ports) == []
      {
        FreeInConfigured(c, h, e, false);
      }
      RestAreFree(HostEntry(c, h, Some(group[0]), true), group, LaterEntries(c, h));
    }
  }

  lemma RestAreFree(head: MappedEndpoint, group: seq<EndpointRow>, f: EndpointRow -> MappedEndpoint)
    requires group != [] && forall e :: e in group ==> FreePorts(f(e).ports) == []
    ensures var entries := [head] + Map(group[1..], f);
            forall i :: 0 < i < |entries| ==> FreePorts(entries[i].ports) == []
  {
    forall i | 0 < i <= |group[1..]|
      ensures FreePorts(([head] + Map(group[1..], f))[i].ports) == []
    {
      assert group[1..][i - 1] in group;
    }
  }

  lemma {:induction false} OnlyFirst(entries: seq<MappedEndpoint>)
    requires entries != [] && forall i :: 0 < i < |entries| ==> FreePorts(entries[i].ports) == []
    ensures Flat(entries, FreeOf()) == FreeOf()(entries[0])
  {
    var front, last := entries[..|entries| - 1], entries[|entries| - 1];
    if front != [] {
      OnlyFirst(front);
      assert FreeOf()(last) == [];
    }
  }

  lemma FreeInHost(c: Context, h: Host)
    ensures Flat(EntriesOf(c, h), FreeOf()) == UnclaimedOf(c.cfg)(h)
  {
    FirstEntryCarriesUnclaimed(c, h);
    OnlyFirst(EntriesOf(c, h));
    FirstEntryIp(c, h);
  }

  lemma FirstEntryIp(c: Context, h: Host)
    ensures EntriesOf(c, h) != [] && EntriesOf(c, h)[0].ip == Addr(h.ip)
  {
    if Group(c.cfg, h.ip) == [] {
      EntryOfLoneHost(c, h);
    } else {
      EntryOfEndpoint(c, h, Group(c.cfg, h.ip)[0], true);
    }
  }

  /** Over the whole overview, each scanned port claimed by no service is listed exactly once. */
  lemma UnclaimedPortsConserved(c: Context)
    ensures Flat(NetworkOverview(c), FreeOf()) == Flat(c.scan.hosts, UnclaimedOf(c.cfg))
  {
    var a, b, d := Flat(c.scan.hosts, HostEntriesOf(c)), Flat(ConfiguredIps(c.cfg), AbsentEntriesOf(c)),
                   Map(WithoutIp(c.cfg), EntriesWithoutIp(c.cfg));
    FlatConcat(a + b, d, FreeOf());
    FlatConcat(a, b, FreeOf());
    forall h | h in c.scan.hosts
      ensures Flat(HostEntriesOf(c)(h), FreeOf()) == UnclaimedOf(c.cfg)(h)
    {
      FreeInHost(c, h);
    }
    FlatOfFlat(c.scan.hosts, HostEntriesOf(c), FreeOf(), UnclaimedOf(c.cfg));
    forall m | m in b || m in d
      ensures FreeOf()(m) == []
    {
      OnlyEndpoints(c, m);
    }
    FlatEmpty(b, FreeOf());
    FlatEmpty(d, FreeOf());
  }

  // ----- the first entry belongs to the oldest endpoint -----

  lemma {:induction false} TextOrder(a: string, b: string, d: string)
    ensures TextLeq(a, b) || TextLeq(b, a)
    ensures TextLeq(a, b) && TextLeq(b, d) ==> TextLeq(a, d)
  {
    if a != [] && b != [] {
      TextOrder(a[1..], b[1..], if d == [] then [] else d[1..]);
    }
  }

  predicate Sorted(rows: seq<EndpointRow>) {
    forall i, j :: 0 <= i < j < |rows| ==> Older(rows[i], rows[j])
  }

  lemma {:induction false} InsertKeepsSorted(e: EndpointRow, rows: seq<EndpointRow>)
    requires Sorted(rows)
    ensures Sorted(Insert(e, rows))
  {
    if rows != [] {
      TextOrder(e.id, rows[0].id, e.id);
      if Older(e, rows[0]) {
        forall j | 0 <= j < |rows|
          ensures Older(e, rows[j])
        {
          TextOrder(e.id, rows[0].id, rows[j].id);
        }
      } else {
        InsertKeepsSorted(e, rows[1..]);
        var rest := Insert(e, rows[1..]);
        InsertPermutes(e, rows[1..]);
        forall j | 0 <= j < |rest|
          ensures Older(rows[0], rest[j])
        {
          assert rest[j] in multiset(rest);
          assert rest[j] == e || rest[j] in rows[1..];
        }
      }
    }
  }

  lemma {:induction false} SortByAgeSorts(rows: seq<EndpointRow>)
    ensures Sorted(SortByAge(rows))
  {
    if rows != [] {
      SortByAgeSorts(rows[1..]);
      InsertKeepsSorted(rows[0], SortByAge(rows[1..]));
    }
  }

  /** Of the endpoints sharing a scanned address, the oldest one carries the unclaimed ports. */
  lemma OldestEndpointFirst(c: Context, h: Host, e: EndpointRow)
    requires EndpointAt(c.cfg, e, h.ip)
    ensures var group := Group(c.cfg, h.ip);
            && group != [] && EntriesOf(c, h)[0].endpointId == Some(group[0].id)
            && group[0].createdAt <= e.createdAt
            && (group[0].createdAt == e.createdAt ==> TextLeq(group[0].id, e.id))
  {
    var group := Group(c.cfg, h.ip);
    GroupSpec(c.cfg, h.ip);
    SortByAgeSorts(Select(TypedEndpoints(c.cfg.endpointTypes, c.cfg.endpoints), IpKey(c.cfg.endpointTypes), Some(h.ip)));
    var i :| 0 <= i < |group| && group[i] == e;
    TextOrder(e.id, e.id, e.id);
  }

  /** The order of texts: a prefix first, otherwise by the first character that differs. */
  lemma {:induction false} TextLeqMeans(a: string, b: string)
    ensures TextLeq(a, b) <==> a <= b || exists i :: DiffersAt(a, b, i) && a[i] < b[i]
  {
    if a != [] && b != [] {
      TextLeqMeans(a[1..], b[1..]);
      if a[0] == b[0] {
        if TextLeq(a[1..], b[1..]) && !(a[1..] <= b[1..]) {
          var i :| DiffersAt(a[1..], b[1..], i) && a[1..][i] < b[1..][i];
          DiffersLater(a, b, i + 1);
        }
        if i :| DiffersAt(a, b, i) && a[i] < b[i] {
          DiffersLater(a, b, i);
        }
        assert a <= b <==> a[1..] <= b[1..] by {
          assert a == [a[0]] + a[1..] && b == [b[0]] + b[1..];
        }
      } else {
        assert DiffersAt(a, b, 0);
        assert !(a <= b);
      }
    }
  }

  predicate DiffersAt(a: string, b: string, i: int) {
    0 <= i < |a| && i < |b| && a[i] != b[i] && forall j :: 0 <= j < i ==> a[j] == b[j]
  }

  lemma DiffersLater(a: string, b: string, i: int)
    requires a != [] && b != [] && a[0] == b[0] && i > 0
    ensures DiffersAt(a, b, i) <==> DiffersAt(a[1..], b[1..], i - 1)
  {
    if DiffersAt(a[1..], b[1..], i - 1) {
      forall j | 0 <= j < i
        ensures a[j] == b[j]
      {
        if j > 0 {
          assert a[1..][j - 1] == a[j] && b[1..][j - 1] == b[j];
        }
      }
    }
    if DiffersAt(a, b, i) {
      forall j | 0 <= j < i - 1
        ensures a[1..][j] == b[1..][j]
      {
        assert a[j + 1] == b[j + 1];
      }
    }
  }

  // ----- the order of the overview -----

  /** Where an entry stands: with its host in scan order, after all hosts with an address the scan did not
      report, last without an address. */
  ghost predicate Ranks(scan: Scan, m: MappedEndpoint, rank: int) {
    if !m.ip.Addr? then rank == |scan.hosts| + 1
    else if m.ip.ip in ScannedIps(scan.hosts) then 0 <= rank < |scan.hosts| && scan.hosts[rank].ip == m.ip.ip
    else rank == |scan.hosts|
  }

  /** Entries stand in that order. */
  lemma EntriesInOrder(c: Context, i: int, j: int, x: int, y: int)
    requires ValidScan(c.scan) && 0 <= i < j < |NetworkOverview(c)|
    requires Ranks(c.scan, NetworkOverview(c)[i], x) && Ranks(c.scan, NetworkOverview(c)[j], y)
    ensures x <= y
  {
    Section(c, i, x);
    Section(c, j, y);
    if j < |Flat(c.scan.hosts, HostEntriesOf(c))| {
      HostEntriesInOrder(c, c.scan.hosts, i, j, x, y);
    }
  }

  /** The three parts of an overview and the ranks in them. */
  lemma Section(c: Context, i: int, x: int)
    requires 0 <= i < |NetworkOverview(c)| && Ranks(c.scan, NetworkOverview(c)[i], x)
    ensures var a, n := Flat(c.scan.hosts, HostEntriesOf(c)), |c.scan.hosts|;
            if i < |a| then 0 <= x < n && a[i].ip == Addr(c.scan.hosts[x].ip)
            else if i < |a| + |Flat(ConfiguredIps(c.cfg), AbsentEntriesOf(c))| then x == n
            else x == n + 1
  {
    var a, b := Flat(c.scan.hosts, HostEntriesOf(c)), Flat(ConfiguredIps(c.cfg), AbsentEntriesOf(c));
    var d := Map(WithoutIp(c.cfg), EntriesWithoutIp(c.cfg));
    ThreeParts(a, b, d, i);
    if i < |a| {
      HostRank(c, a[i], x);
    } else if i < |a| + |b| {
      AbsentRank(c, b[i - |a|], x);
    } else {
      NoAddress(c, d[i - |a| - |b|]);
    }
  }

  lemma ThreeParts<T>(a: seq<T>, b: seq<T>, d: seq<T>, i: int)
    requires 0 <= i < |a + b + d|
    ensures (a + b + d)[i] == if i < |a| then a[i] else if i < |a| + |b| then b[i - |a|] else d[i - |a| - |b|]
    ensures i < |a| ==> a[i] in a
    ensures |a| <= i < |a| + |b| ==> b[i - |a|] in b
    ensures |a| + |b| <= i ==> d[i - |a| - |b|] in d
  {}

  lemma HostRank(c: Context, m: MappedEndpoint, x: int)
    requires m in Flat(c.scan.hosts, HostEntriesOf(c)) && Ranks(c.scan, m, x)
    ensures 0 <= x < |c.scan.hosts| && m.ip == Addr(c.scan.hosts[x].ip)
  {
    HostAddress(c, m);
  }

  lemma AbsentRank(c: Context, m: MappedEndpoint, x: int)
    requires m in Flat(ConfiguredIps(c.cfg), AbsentEntriesOf(c)) && Ranks(c.scan, m, x)
    ensures x == |c.scan.hosts|
  {
    AbsentAddress(c, m);
  }

  lemma HostAddress(c: Context, m: MappedEndpoint)
    requires m in Flat(c.scan.hosts, HostEntriesOf(c))
    ensures m.ip.Addr? && m.ip.ip in ScannedIps(c.scan.hosts)
  {
    FlatMembers(c.scan.hosts, HostEntriesOf(c), m);
    var h :| h in c.scan.hosts && m in HostEntriesOf(c)(h);
    EntryAddress(c, h, m);
    assert Scanned(c.scan, h, h.ip);
    ScannedIpsSpec(c.scan, h.ip);
  }

  lemma EntryAddress(c: Context, h: Host, m: MappedEndpoint)
    requires m in EntriesOf(c, h)
    ensures m.ip == Addr(h.ip)
  {
    var group := Group(c.cfg, h.ip);
    if group != [] && m != EntriesOf(c, h)[0] {
      MapMembers(group[1..], LaterEntries(c, h), m);
    }
  }

  lemma AbsentAddress(c: Context, m: MappedEndpoint)
    requires m in Flat(ConfiguredIps(c.cfg), AbsentEntriesOf(c))
    ensures m.ip.Addr? && m.ip.ip !in ScannedIps(c.scan.hosts)
  {
    FlatMembers(ConfiguredIps(c.cfg), AbsentEntriesOf(c), m);
    var ip :| ip in ConfiguredIps(c.cfg) && m in AbsentEntriesOf(c)(ip);
    MapMembers(Group(c.cfg, ip), AbsentEntry(c, ip), m);
  }

  lemma NoAddress(c: Context, m: MappedEndpoint)
    requires m in Map(WithoutIp(c.cfg), EntriesWithoutIp(c.cfg))
    ensures !m.ip.Addr?
  {
    MapMembers(WithoutIp(c.cfg), EntriesWithoutIp(c.cfg), m);
  }

  lemma {:induction false} HostEntriesInOrder(c: Context, hosts: seq<Host>, i: int, j: int, x: int, y: int)
    requires Distinct(ScannedIps(hosts)) && 0 <= i < j < |Flat(hosts, HostEntriesOf(c))|
    requires 0 <= x < |hosts| && 0 <= y < |hosts|
    requires Flat(hosts, HostEntriesOf(c))[i].ip == Addr(hosts[x].ip) && Flat(hosts, HostEntriesOf(c))[j].ip == Addr(hosts[y].ip)
    ensures x <= y
    decreases |hosts|
  {
    var n := |hosts| - 1;
    var front, last := hosts[..n], hosts[n];
    var before := Flat(front, HostEntriesOf(c));
    assert Flat(hosts, HostEntriesOf(c)) == before + EntriesOf(c, last);
    assert forall k :: 0 <= k < n ==> ScannedIps(front)[k] == ScannedIps(hosts)[k];
    if j < |before| {
      FrontAddress(c, hosts, i, x);
      FrontAddress(c, hosts, j, y);
      HostEntriesInOrder(c, front, i, j, x, y);
    } else {
      EntryAddress(c, last, Flat(hosts, HostEntriesOf(c))[j]);
      assert ScannedIps(hosts)[y] == ScannedIps(hosts)[n];
    }
  }

  lemma FrontAddress(c: Context, hosts: seq<Host>, i: int, x: int)
    requires hosts != [] && Distinct(ScannedIps(hosts)) && 0 <= x < |hosts|
    requires 0 <= i < |Flat(hosts[..|hosts| - 1], HostEntriesOf(c))|
    requires Flat(hosts[..|hosts| - 1], HostEntriesOf(c))[i].ip == Addr(hosts[x].ip)
    ensures x < |hosts| - 1
  {
    var front := hosts[..|hosts| - 1];
    var m := Flat(front, HostEntriesOf(c))[i];
    FlatMembers(front, HostEntriesOf(c), m);
    var h :| h in front && m in HostEntriesOf(c)(h);
    EntryAddress(c, h, m);
    var k :| 0 <= k < |front| && front[k] == h;
    assert ScannedIps(hosts)[k] == ScannedIps(hosts)[x];
  }
}
