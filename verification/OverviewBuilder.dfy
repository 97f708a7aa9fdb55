/** The overview builders as they run: loops that append to lists and write two status
    dictionaries, proved equal to the overview and the write log defined on values. */
module OverviewBuilder {
  import opened Wrappers
  import opened Grouping
  import opened StatusHistory
  import opened Overview
  import opened OverviewWrites

  /** The new statuses collected during one build. */
  class StatusWrites {
    var hosts: map<int, Stamp>
    var ports: map<(int, int), Stamp>

    constructor ()
      ensures hosts == map[] && ports == map[]
    {
      hosts, ports := map[], map[];
    }
  }

  lemma MapStep<T, U>(items: seq<T>, i: nat, f: T -> U)
    requires i < |items|
    ensures Map(items[..i + 1], f) == Map(items[..i], f) + [f(items[i])]
  {}

  lemma MapMore<T, U>(items: seq<T>, x: T, f: T -> U)
    ensures Map(items + [x], f) == Map(items, f) + [f(x)]
  {}

  lemma FlatStep<T, U>(items: seq<T>, i: nat, f: T -> seq<U>)
    requires i < |items|
    ensures Flat(items[..i + 1], f) == Flat(items[..i], f) + f(items[i])
  {
    assert items[..i + 1] == items[..i] + [items[i]];
    FlatMore(items[..i], items[i], f);
  }

  lemma TypedStep(types: seq<TypeRow>, services: seq<ServiceRow>, i: nat)
    requires i < |services|
    ensures TypedServices(types, services[..i + 1]) ==
            TypedServices(types, services[..i]) +
            if FindType(types, services[i].typeId).Some? then [services[i]] else []
  {
    assert services[..i + 1][..i] == services[..i];
  }

  lemma TypedEndpointStep(types: seq<TypeRow>, rows: seq<EndpointRow>, i: nat)
    requires i < |rows|
    ensures TypedEndpoints(types, rows[..i + 1]) ==
            TypedEndpoints(types, rows[..i]) +
            if FindType(types, rows[i].typeId).Some? then [rows[i]] else []
  {
    assert rows[..i + 1][..i] == rows[..i];
  }

  // ----- endpoints that were not probed -----

  method BuildLastKnownEndpoint(c: Context, ip: int, e: EndpointRow) returns (m: MappedEndpoint)
    ensures m == LastKnownEntry(c, ip, e)
  {
    var types, services := c.cfg.serviceTypes, GetServices(c.cfg, e.id);
    var ports: seq<MappedPort> := [];
    for i := 0 to |services|
      invariant ports == Map(TypedServices(types, services[..i]), LastKnownPorts(c, ip))
    {
      var s := services[i];
      TypedStep(types, services, i);
      var t := FindType(types, s.typeId);
      if t.None? {
        continue;
      }
      MapMore(TypedServices(types, services[..i]), s, LastKnownPorts(c, ip));
      var p := PortNumber(s, t.value);
      if p.None? {
        ports := ports + [UnknownPort(s, None)];
        continue;
      }
      var previous := Get(c.ports, (ip, p.value));
      ports := ports + [MappedPort(p, if previous.Some? then previous.value.status else Offline,
                                   Some(if previous.Some? then previous.value.changedAt else c.now),
                                   Configured, Some(s.id), Some(s.typeId))];
    }
    assert services[..|services|] == services;
    var previousHost := Get(c.hosts, ip);
    m := MappedEndpoint(Addr(ip), if previousHost.Some? then previousHost.value.status else Offline,
                        Some(if previousHost.Some? then previousHost.value.changedAt else c.now),
                        Configured, Some(e.id), Some(e.typeId), ports);
  }

  method BuildEndpointWithoutIp(cfg: Config, e: EndpointRow, shown: ShownIp) returns (m: MappedEndpoint)
    ensures m == EntryWithoutIp(cfg, e).(ip := shown)
  {
    var types, services := cfg.serviceTypes, GetServices(cfg, e.id);
    var ports: seq<MappedPort> := [];
    for i := 0 to |services|
      invariant ports == Map(TypedServices(types, services[..i]), UnknownPorts(cfg))
    {
      var s := services[i];
      TypedStep(types, services, i);
      var t := FindType(types, s.typeId);
      if t.None? {
        continue;
      }
      MapMore(TypedServices(types, services[..i]), s, UnknownPorts(cfg));
      ports := ports + [UnknownPort(s, PortNumber(s, t.value))];
    }
    assert services[..|services|] == services;
    m := MappedEndpoint(shown, Unknown, None, Configured, Some(e.id), Some(e.typeId), ports);
  }

  /** Also persists "offline" for the host and its configured ports. */
  method BuildConfirmedOfflineEndpoint(c: Context, ip: int, e: EndpointRow, w: StatusWrites) returns (m: MappedEndpoint)
    modifies w
    ensures m == OfflineEntry(c, ip, e)
    ensures w.hosts == old(w.hosts)[ip := Stamped(Get(c.hosts, ip), Offline, c.now)]
    ensures w.ports == Logged(old(w.ports), c.ports, OfflineWrites(c.cfg, ip)(e), c.now)
  {
    var types, services := c.cfg.serviceTypes, GetServices(c.cfg, e.id);
    var ports: seq<MappedPort> := [];
    for i := 0 to |services|
      invariant w.hosts == old(w.hosts)
      invariant ports == Map(TypedServices(types, services[..i]), OfflinePorts(c, ip))
      invariant w.ports == Logged(old(w.ports), c.ports,
                                  Flat(TypedServices(types, services[..i]), OfflineWritesOf(c.cfg, ip)), c.now)
    {
      var s := services[i];
      TypedStep(types, services, i);
      var t := FindType(types, s.typeId);
      if t.None? {
        assert TypedServices(types, services[..i + 1]) == TypedServices(types, services[..i]);
        continue;
      }
      MapMore(TypedServices(types, services[..i]), s, OfflinePorts(c, ip));
      FlatMore(TypedServices(types, services[..i]), s, OfflineWritesOf(c.cfg, ip));
      var p := PortNumber(s, t.value);
      LoggedConcat(old(w.ports), c.ports, Flat(TypedServices(types, services[..i]), OfflineWritesOf(c.cfg, ip)),
                   OfflineWritesOf(c.cfg, ip)(s), c.now);
      assert PortOf(types, s) == p;
      if p.None? {
        ports := ports + [UnknownPort(s, None)];
        continue;
      }
      assert OfflineWritesOf(c.cfg, ip)(s) == [((ip, p.value), Offline)];
      LogOne(w.ports, c.ports, (ip, p.value), Offline, c.now);
      var changedAt := ResolveStatusChange(Get(c.ports, (ip, p.value)), Offline, c.now);
      w.ports := w.ports[(ip, p.value) := Stamp(Offline, changedAt)];
      ports := ports + [MappedPort(p, Offline, Some(changedAt), Configured, Some(s.id), Some(s.typeId))];
    }
    assert services[..|services|] == services;
    var changedAt := ResolveStatusChange(Get(c.hosts, ip), Offline, c.now);
    w.hosts := w.hosts[ip := Stamp(Offline, changedAt)];
    m := MappedEndpoint(Addr(ip), Offline, Some(changedAt), Configured, Some(e.id), Some(e.typeId), ports);
  }

  lemma LogOne<K>(base: map<K, Stamp>, stored: map<K, Stamp>, k: K, s: Status, now: int)
    ensures Logged(base, stored, [(k, s)], now) == base[k := Stamped(Get(stored, k), s, now)]
  {
    assert [(k, s)][..0] == [];
  }

  // ----- one entry of a scanned host -----

  /** Sorts an endpoint's services by port. */
  method GroupServices(types: seq<TypeRow>, services: seq<ServiceRow>)
    returns (order: seq<int>, byPort: map<int, seq<ServiceRow>>, withoutPort: seq<ServiceRow>)
    ensures Filed(TypedServices(types, services), PortKey(types), order, byPort)
    ensures withoutPort == Select(TypedServices(types, services), PortKey(types), None)
  {
    order, byPort, withoutPort := [], map[], [];
    for i := 0 to |services|
      invariant Filed(TypedServices(types, services[..i]), PortKey(types), order, byPort)
      invariant withoutPort == Select(TypedServices(types, services[..i]), PortKey(types), None)
    {
      var s := services[i];
      ghost var typed, key := TypedServices(types, services[..i]), PortKey(types);
      TypedStep(types, services, i);
      var t := FindType(types, s.typeId);
      if t.None? {
        assert TypedServices(types, services[..i + 1]) == typed;
        continue;
      }
      FileOneMore(typed, key, order, byPort, s);
      SelectMore(typed, s, key, None);
      var p := PortNumber(s, t.value);
      assert key(s) == p;
      if p.None? {
        withoutPort := withoutPort + [s];
      } else if p.value in byPort {
        byPort := byPort[p.value := byPort[p.value] + [s]];
      } else {
        order := order + [p.value];
        byPort := byPort[p.value := [] + [s]];
      }
    }
    assert services[..|services|] == services;
  }

  method MapServices(services: seq<ServiceRow>, port: int, stamp: Stamp) returns (mapped: seq<MappedPort>)
    ensures mapped == Map(services, StampedPorts(port, stamp))
  {
    mapped := [];
    for i := 0 to |services|
      invariant mapped == Map(services[..i], StampedPorts(port, stamp))
    {
      MapStep(services, i, StampedPorts(port, stamp));
      mapped := mapped + [ConfiguredPort(services[i], port, stamp)];
    }
    assert services[..|services|] == services;
  }

  method MapScannedPorts(c: Context, h: Host, claimed: set<int>, ghost typed: seq<ServiceRow>, order: seq<int>,
                         byPort: map<int, seq<ServiceRow>>, index: nat, w: StatusWrites)
    returns (mapped: seq<MappedPort>)
    requires Filed(typed, PortKey(c.cfg.serviceTypes), order, byPort)
    modifies w`ports
    ensures mapped == Flat(h.ports, PortEntriesOf(c, h, claimed, typed, index == 0))
    ensures w.ports == Logged(old(w.ports), c.ports, Flat(h.ports, ScannedWritesOf(h)), c.now)
  {
    mapped := [];
    for i := 0 to |h.ports|
      invariant mapped == Flat(h.ports[..i], PortEntriesOf(c, h, claimed, typed, index == 0))
      invariant w.ports == Logged(old(w.ports), c.ports, Flat(h.ports[..i], ScannedWritesOf(h)), c.now)
    {
      var sp := h.ports[i];
      FlatStep(h.ports, i, PortEntriesOf(c, h, claimed, typed, index == 0));
      FlatStep(h.ports, i, ScannedWritesOf(h));
      LoggedConcat(old(w.ports), c.ports, Flat(h.ports[..i], ScannedWritesOf(h)), ScannedWrite(h, sp), c.now);
      var p := PortText(sp.key);
      if p.None? {
        continue;
      }
      LogOne(w.ports, c.ports, (h.ip, p.value), sp.status, c.now);
      var stamp := Stamped(Get(c.ports, (h.ip, p.value)), sp.status, c.now);
      w.ports := w.ports[(h.ip, p.value) := stamp];
      var backing := GroupAt(byPort, p.value);
      assert backing == Select(typed, PortKey(c.cfg.serviceTypes), Some(p.value));
      if backing != [] {
        var entries := MapServices(backing, p.value, stamp);
        mapped := mapped + entries;
        continue;
      }
      if p.value in claimed || index > 0 {
        continue;
      }
      var suggested := SuggestedServiceType(c.cfg.serviceTypes, p.value);
      if suggested.Some? {
        mapped := mapped + [MappedPort(p, stamp.status, Some(stamp.changedAt), Default, None, Some(suggested.value.id))];
        continue;
      }
      mapped := mapped + [MappedPort(p, stamp.status, Some(stamp.changedAt), Unidentified, None, None)];
    }
    assert h.ports[..|h.ports|] == h.ports;
  }

  /** The ports an entry lists so far, restricted to its own configured ports, are the scanned ones. */
  lemma {:induction false} ListedIffScanned(c: Context, h: Host, claimed: set<int>, typed: seq<ServiceRow>, first: bool,
                                            ports: seq<ScanPort>, p: int)
    requires Select(typed, PortKey(c.cfg.serviceTypes), Some(p)) != []
    ensures (exists mp :: mp in Flat(ports, PortEntriesOf(c, h, claimed, typed, first)) && mp.port == Some(p)) <==>
            p in ScannedPorts(ports)
    decreases |ports|
  {
    if ports != [] {
      var front, sp := ports[..|ports| - 1], ports[|ports| - 1];
      ListedIffScanned(c, h, claimed, typed, first, front, p);
      var entries := PortEntry(c, h, claimed, typed, first, sp);
      if PortText(sp.key) == Some(p) {
        assert entries[0].port == Some(p);
        assert entries[0] in Flat(ports, PortEntriesOf(c, h, claimed, typed, first));
      } else {
        assert forall mp :: mp in entries ==> mp.port == PortText(sp.key);
      }
    }
  }

  method MapMissedPorts(c: Context, h: Host, ghost typed: seq<ServiceRow>, order: seq<int>,
                        byPort: map<int, seq<ServiceRow>>, scannedNums: set<int>, w: StatusWrites)
    returns (mapped: seq<MappedPort>)
    requires forall p :: p in order ==> p in byPort && byPort[p] == Select(typed, PortKey(c.cfg.serviceTypes), Some(p))
    requires forall p :: p in order ==> (p in scannedNums <==> p in ScannedPorts(h.ports))
    modifies w`ports
    ensures mapped == Flat(order, MissedEntriesOf(c, h, typed))
    ensures w.ports == Logged(old(w.ports), c.ports, Flat(order, MissedWritesOf(c.scan, h)), c.now)
  {
    mapped := [];
    for i := 0 to |order|
      invariant mapped == Flat(order[..i], MissedEntriesOf(c, h, typed))
      invariant w.ports == Logged(old(w.ports), c.ports, Flat(order[..i], MissedWritesOf(c.scan, h)), c.now)
    {
      var p := order[i];
      FlatStep(order, i, MissedEntriesOf(c, h, typed));
      FlatStep(order, i, MissedWritesOf(c.scan, h));
      LoggedConcat(old(w.ports), c.ports, Flat(order[..i], MissedWritesOf(c.scan, h)), MissedWrite(c.scan, h, p), c.now);
      if p in scannedNums {
        continue;
      }
      var stamp: Stamp;
      if p in c.scan.ports {
        LogOne(w.ports, c.ports, (h.ip, p), Offline, c.now);
        stamp := Stamp(Offline, ResolveStatusChange(Get(c.ports, (h.ip, p)), Offline, c.now));
        w.ports := w.ports[(h.ip, p) := stamp];
      } else {
        var previous := Get(c.ports, (h.ip, p));
        stamp := Stamp(if previous.Some? then previous.value.status else Offline,
                       if previous.Some? then previous.value.changedAt else c.now);
      }
      var entries := MapServices(byPort[p], p, stamp);
      mapped := mapped + entries;
    }
    assert order[..|order|] == order;
  }

  method MapUnknownPorts(cfg: Config, services: seq<ServiceRow>) returns (mapped: seq<MappedPort>)
    requires forall s :: s in services ==> PortOf(cfg.serviceTypes, s) == None
    ensures mapped == Map(services, UnknownPorts(cfg))
  {
    mapped := [];
    for i := 0 to |services|
      invariant mapped == Map(services[..i], UnknownPorts(cfg))
    {
      MapStep(services, i, UnknownPorts(cfg));
      assert services[i] in services;
      mapped := mapped + [UnknownPort(services[i], None)];
    }
    assert services[..|services|] == services;
  }

  lemma ScannedNumbers(c: Context, h: Host, claimed: set<int>, typed: seq<ServiceRow>, first: bool, nums: set<int>)
    requires var mapped := Flat(h.ports, PortEntriesOf(c, h, claimed, typed, first));
             nums == set mp | mp in mapped && mp.port.Some? :: mp.port.value
    ensures forall p :: p in Keys(typed, PortKey(c.cfg.serviceTypes)) ==> (p in nums <==> p in ScannedPorts(h.ports))
  {
    var key := PortKey(c.cfg.serviceTypes);
    KeysSpec(typed, key);
    forall p | p in Keys(typed, key)
      ensures p in nums <==> p in ScannedPorts(h.ports)
    {
      SelectMembers(typed, key, Some(p));
      ListedIffScanned(c, h, claimed, typed, first, h.ports, p);
    }
  }

  method MapHostPorts(c: Context, h: Host, claimed: set<int>, services: seq<ServiceRow>, index: nat, w: StatusWrites)
    returns (mapped: seq<MappedPort>)
    modifies w`ports
    ensures mapped == HostPorts(c, h, claimed, TypedServices(c.cfg.serviceTypes, services), index == 0)
    ensures w.ports == Logged(old(w.ports), c.ports,
                              ServiceWrites(c.cfg, c.scan, h, TypedServices(c.cfg.serviceTypes, services)), c.now)
  {
    ghost var typed := TypedServices(c.cfg.serviceTypes, services);
    ghost var key := PortKey(c.cfg.serviceTypes);
    var order, byPort, withoutPort := GroupServices(c.cfg.serviceTypes, services);
    mapped := MapScannedPorts(c, h, claimed, typed, order, byPort, index, w);
    var scannedNums := set mp | mp in mapped && mp.port.Some? :: mp.port.value;
    ScannedNumbers(c, h, claimed, typed, index == 0, scannedNums);
    var missed := MapMissedPorts(c, h, typed, order, byPort, scannedNums, w);
    LoggedConcat(old(w.ports), c.ports, Flat(h.ports, ScannedWritesOf(h)), Flat(order, MissedWritesOf(c.scan, h)), c.now);
    SelectMembers(typed, key, None);
    assert forall s :: s in withoutPort ==> key(s) == None;
    var unknown := MapUnknownPorts(c.cfg, withoutPort);
    mapped := mapped + missed + unknown;
  }

  method MapHostEntry(c: Context, h: Host, endpoint: Option<EndpointRow>, services: seq<ServiceRow>, claimed: set<int>,
                      index: nat, w: StatusWrites) returns (m: MappedEndpoint)
    requires services == if endpoint.Some? then GetServices(c.cfg, endpoint.value.id) else []
    requires claimed == Claimed(c.cfg, h.ip)
    modifies w`ports
    ensures m == HostEntry(c, h, endpoint, index == 0)
    ensures w.ports == Logged(old(w.ports), c.ports,
                              ServiceWrites(c.cfg, c.scan, h, if endpoint.Some? then Listed(c.cfg, endpoint.value.id) else []), c.now)
  {
    var ports := MapHostPorts(c, h, claimed, services, index, w);
    var changedAt := ResolveStatusChange(Get(c.hosts, h.ip), h.status, c.now);
    if endpoint.Some? {
      return MappedEndpoint(Addr(h.ip), h.status, Some(changedAt), Configured, Some(endpoint.value.id),
                            Some(endpoint.value.typeId), ports);
    }
    var suggested := SuggestedEndpointType(c.cfg.endpointTypes, h.ip);
    if suggested.Some? {
      return MappedEndpoint(Addr(h.ip), h.status, Some(changedAt), Default, None, Some(suggested.value.id), ports);
    }
    return MappedEndpoint(Addr(h.ip), h.status, Some(changedAt), Unidentified, None, None, ports);
  }

  lemma ClaimedOneMore(cfg: Config, group: seq<EndpointRow>, i: nat)
    requires i < |group|
    ensures ClaimedBy(cfg, group[..i + 1]) ==
            ClaimedBy(cfg, group[..i]) + PortSet(cfg.serviceTypes, Listed(cfg, group[i].id))
  {
    assert group[..i + 1][..i] == group[..i];
  }

  /** The ports configured on a host, over all its endpoints. */
  method ClaimedPorts(cfg: Config, group: seq<EndpointRow>) returns (claimed: set<int>)
    ensures claimed == ClaimedBy(cfg, group)
  {
    claimed := {};
    for i := 0 to |group|
      invariant claimed == ClaimedBy(cfg, group[..i])
    {
      ClaimedOneMore(cfg, group, i);
      var order, byPort, withoutPort := GroupServices(cfg.serviceTypes, GetServices(cfg, group[i].id));
      claimed := claimed + set p | p in order;
    }
    assert group[..|group|] == group;
  }

  method MapLaterEntries(c: Context, h: Host, group: seq<EndpointRow>, claimed: set<int>, w: StatusWrites)
    returns (entries: seq<MappedEndpoint>)
    requires group != [] && claimed == Claimed(c.cfg, h.ip)
    modifies w`ports
    ensures entries == Map(group[1..], LaterEntries(c, h))
    ensures w.ports == Logged(old(w.ports), c.ports, Flat(group[1..], EntryWrites(c.cfg, c.scan, h)), c.now)
  {
    entries := [];
    var rest := group[1..];
    for i := 0 to |rest|
      invariant entries == Map(rest[..i], LaterEntries(c, h))
      invariant w.ports == Logged(old(w.ports), c.ports, Flat(rest[..i], EntryWrites(c.cfg, c.scan, h)), c.now)
    {
      FlatStep(rest, i, EntryWrites(c.cfg, c.scan, h));
      LoggedConcat(old(w.ports), c.ports, Flat(rest[..i], EntryWrites(c.cfg, c.scan, h)),
                   EntryWrites(c.cfg, c.scan, h)(rest[i]), c.now);
      MapStep(rest, i, LaterEntries(c, h));
      var m := MapHostEntry(c, h, Some(rest[i]), GetServices(c.cfg, rest[i].id), claimed, i + 1, w);
      entries := entries + [m];
    }
    assert rest[..|rest|] == rest;
  }

  lemma FlatHead<T, U>(items: seq<T>, f: T -> seq<U>)
    requires items != []
    ensures Flat(items, f) == f(items[0]) + Flat(items[1..], f)
  {
    assert items == [items[0]] + items[1..];
    FlatConcat([items[0]], items[1..], f);
    FlatMore([], items[0], f);
    assert [] + [items[0]] == [items[0]];
  }

  /** The entries of a host's configured endpoints. */
  method MapGroup(c: Context, h: Host, group: seq<EndpointRow>, claimed: set<int>, w: StatusWrites)
    returns (entries: seq<MappedEndpoint>)
    requires group != [] && claimed == Claimed(c.cfg, h.ip)
    modifies w`ports
    ensures entries == [HostEntry(c, h, Some(group[0]), true)] + Map(group[1..], LaterEntries(c, h))
    ensures w.ports == Logged(old(w.ports), c.ports, Flat(group, EntryWrites(c.cfg, c.scan, h)), c.now)
  {
    var first := MapHostEntry(c, h, Some(group[0]), GetServices(c.cfg, group[0].id), claimed, 0, w);
    var rest := MapLaterEntries(c, h, group, claimed, w);
    FlatHead(group, EntryWrites(c.cfg, c.scan, h));
    LoggedConcat(old(w.ports), c.ports, EntryWrites(c.cfg, c.scan, h)(group[0]),
                 Flat(group[1..], EntryWrites(c.cfg, c.scan, h)), c.now);
    entries := [first] + rest;
  }

  method MapHost(c: Context, h: Host, group: seq<EndpointRow>, w: StatusWrites) returns (entries: seq<MappedEndpoint>)
    requires group == Group(c.cfg, h.ip)
    modifies w
    ensures entries == EntriesOf(c, h)
    ensures w.hosts == old(w.hosts)[h.ip := Stamped(Get(c.hosts, h.ip), h.status, c.now)]
    ensures w.ports == Logged(old(w.ports), c.ports, HostWrites(c.cfg, c.scan, h), c.now)
  {
    w.hosts := w.hosts[h.ip := Stamp(h.status, ResolveStatusChange(Get(c.hosts, h.ip), h.status, c.now))];
    var claimed := ClaimedPorts(c.cfg, group);
    if group == [] {
      var m := MapHostEntry(c, h, None, [], claimed, 0, w);
      return [m];
    }
    entries := MapGroup(c, h, group, claimed, w);
  }

  // ----- the whole overview -----

  ghost predicate IsGrouping(cfg: Config, byIp: map<int, seq<EndpointRow>>) {
    forall ip :: GroupAt(byIp, ip) == Group(cfg, ip)
  }

  /** The endpoints set aside, each with what is shown as its address. */
  predicate Aside(cfg: Config, unkeyed: seq<EndpointRow>, withoutIp: seq<(EndpointRow, ShownIp)>) {
    && |withoutIp| == |unkeyed|
    && forall j | 0 <= j < |withoutIp| ::
         withoutIp[j].0 == unkeyed[j] && withoutIp[j].1 == EntryWithoutIp(cfg, withoutIp[j].0).ip
  }

  /** Files the configured endpoints by address and sets the others aside. */
  method FileEndpoints(cfg: Config)
    returns (ips: seq<int>, byIp: map<int, seq<EndpointRow>>, withoutIp: seq<(EndpointRow, ShownIp)>)
    ensures Filed(TypedEndpoints(cfg.endpointTypes, cfg.endpoints), IpKey(cfg.endpointTypes), ips, byIp)
    ensures Aside(cfg, Select(TypedEndpoints(cfg.endpointTypes, cfg.endpoints), IpKey(cfg.endpointTypes), None), withoutIp)
  {
    var types := cfg.endpointTypes;
    ips, byIp, withoutIp := [], map[], [];
    for i := 0 to |cfg.endpoints|
      invariant Filed(TypedEndpoints(types, cfg.endpoints[..i]), IpKey(types), ips, byIp)
      invariant Aside(cfg, Select(TypedEndpoints(types, cfg.endpoints[..i]), IpKey(types), None), withoutIp)
    {
      var e := cfg.endpoints[i];
      ghost var typed := TypedEndpoints(types, cfg.endpoints[..i]);
      TypedEndpointStep(types, cfg.endpoints, i);
      var t := FindType(types, e.typeId);
      if t.None? {
        assert TypedEndpoints(types, cfg.endpoints[..i + 1]) == typed;
        continue;
      }
      FileOneMore(typed, IpKey(types), ips, byIp, e);
      SelectMore(typed, e, IpKey(types), None);
      var stored := StoredIp(e, t.value);
      var ip := ProbeableIp(stored);
      assert IpOf(types, e) == ip;
      if ip.None? {
        withoutIp := withoutIp + [(e, if Truthy(stored) then Other(stored) else NoIp)];
      } else if ip.value in byIp {
        byIp := byIp[ip.value := byIp[ip.value] + [e]];
      } else {
        ips := ips + [ip.value];
        byIp := byIp[ip.value := [] + [e]];
      }
    }
    assert cfg.endpoints[..|cfg.endpoints|] == cfg.endpoints;
  }

  /** Sorts the configured endpoints by address, oldest first, and sets the others aside. */
  method GroupEndpoints(cfg: Config)
    returns (ips: seq<int>, byIp: map<int, seq<EndpointRow>>, withoutIp: seq<(EndpointRow, ShownIp)>)
    ensures ips == ConfiguredIps(cfg) && IsGrouping(cfg, byIp)
    ensures |withoutIp| == |WithoutIp(cfg)|
    ensures forall i | 0 <= i < |withoutIp| ::
              withoutIp[i].0 == WithoutIp(cfg)[i] && withoutIp[i].1 == EntryWithoutIp(cfg, withoutIp[i].0).ip
  {
    ips, byIp, withoutIp := FileEndpoints(cfg);
    ghost var unsorted := byIp;
    byIp := map ip | ip in byIp :: SortByAge(byIp[ip]);
    SortGroups(cfg, unsorted, byIp);
  }

  lemma SortGroups(cfg: Config, unsorted: map<int, seq<EndpointRow>>, byIp: map<int, seq<EndpointRow>>)
    requires byIp == map ip | ip in unsorted :: SortByAge(unsorted[ip])
    requires forall ip :: GroupAt(unsorted, ip) ==
                          Select(TypedEndpoints(cfg.endpointTypes, cfg.endpoints), IpKey(cfg.endpointTypes), Some(ip))
    ensures IsGrouping(cfg, byIp)
  {
    forall ip
      ensures GroupAt(byIp, ip) == Group(cfg, ip)
    {
      assert GroupAt(byIp, ip) == SortByAge(GroupAt(unsorted, ip));
    }
  }

  /** What one more endpoint confirmed offline adds to the written statuses. */
  lemma OfflineStep(c: Context, ip: int, group: seq<EndpointRow>, i: nat, hosts: map<int, Stamp>, ports: map<(int, int), Stamp>)
    requires i < |group|
    ensures Logged(hosts, c.hosts, Map(group[..i + 1], OfflineHostWrite(ip)), c.now) ==
            Logged(hosts, c.hosts, Map(group[..i], OfflineHostWrite(ip)), c.now)
              [ip := Stamped(Get(c.hosts, ip), Offline, c.now)]
    ensures Logged(ports, c.ports, Flat(group[..i + 1], OfflineWrites(c.cfg, ip)), c.now) ==
            Logged(Logged(ports, c.ports, Flat(group[..i], OfflineWrites(c.cfg, ip)), c.now), c.ports,
                   OfflineWrites(c.cfg, ip)(group[i]), c.now)
  {
    MapStep(group, i, OfflineHostWrite(ip));
    FlatStep(group, i, OfflineWrites(c.cfg, ip));
    LoggedConcat(hosts, c.hosts, Map(group[..i], OfflineHostWrite(ip)), [(ip, Offline)], c.now);
    LogOne(Logged(hosts, c.hosts, Map(group[..i], OfflineHostWrite(ip)), c.now), c.hosts, ip, Offline, c.now);
    LoggedConcat(ports, c.ports, Flat(group[..i], OfflineWrites(c.cfg, ip)), OfflineWrites(c.cfg, ip)(group[i]), c.now);
  }

  /** Entries of one configured address the scan did not report. */
  method MapAbsent(c: Context, ip: int, group: seq<EndpointRow>, w: StatusWrites) returns (entries: seq<MappedEndpoint>)
    requires group == Group(c.cfg, ip) && ip !in ScannedIps(c.scan.hosts)
    modifies w
    ensures entries == AbsentEntries(c, ip)
    ensures w.hosts == Logged(old(w.hosts), c.hosts, AbsentHostWrites(c.cfg, c.scan)(ip), c.now)
    ensures w.ports == Logged(old(w.ports), c.ports, AbsentWrites(c.cfg, c.scan, ip), c.now)
  {
    entries := [];
    var covered := InScannedNetwork(c.scan, ip);
    for i := 0 to |group|
      invariant entries == Map(group[..i], AbsentEntry(c, ip))
      invariant w.hosts == Logged(old(w.hosts), c.hosts, if covered then Map(group[..i], OfflineHostWrite(ip)) else [], c.now)
      invariant w.ports == Logged(old(w.ports), c.ports, if covered then Flat(group[..i], OfflineWrites(c.cfg, ip)) else [], c.now)
    {
      var e := group[i];
      MapStep(group, i, AbsentEntry(c, ip));
      if covered {
        OfflineStep(c, ip, group, i, old(w.hosts), old(w.ports));
        var m := BuildConfirmedOfflineEndpoint(c, ip, e, w);
        entries := entries + [m];
        continue;
      }
      var m := BuildLastKnownEndpoint(c, ip, e);
      entries := entries + [m];
    }
    assert group[..|group|] == group;
  }

  method MapScannedHosts(c: Context, byIp: map<int, seq<EndpointRow>>, w: StatusWrites) returns (entries: seq<MappedEndpoint>)
    requires IsGrouping(c.cfg, byIp)
    modifies w
    ensures entries == Flat(c.scan.hosts, HostEntriesOf(c))
    ensures w.hosts == Logged(old(w.hosts), c.hosts, Map(c.scan.hosts, ScannedHostWrite()), c.now)
    ensures w.ports == Logged(old(w.ports), c.ports, Flat(c.scan.hosts, HostWritesOf(c.cfg, c.scan)), c.now)
  {
    var hosts := c.scan.hosts;
    entries := [];
    for i := 0 to |hosts|
      invariant entries == Flat(hosts[..i], HostEntriesOf(c))
      invariant w.hosts == Logged(old(w.hosts), c.hosts, Map(hosts[..i], ScannedHostWrite()), c.now)
      invariant w.ports == Logged(old(w.ports), c.ports, Flat(hosts[..i], HostWritesOf(c.cfg, c.scan)), c.now)
    {
      var h := hosts[i];
      FlatStep(hosts, i, HostEntriesOf(c));
      FlatStep(hosts, i, HostWritesOf(c.cfg, c.scan));
      MapStep(hosts, i, ScannedHostWrite());
      LoggedConcat(old(w.hosts), c.hosts, Map(hosts[..i], ScannedHostWrite()), [(h.ip, h.status)], c.now);
      LogOne(w.hosts, c.hosts, h.ip, h.status, c.now);
      LoggedConcat(old(w.ports), c.ports, Flat(hosts[..i], HostWritesOf(c.cfg, c.scan)), HostWrites(c.cfg, c.scan, h), c.now);
      var mapped := MapHost(c, h, GroupAt(byIp, h.ip), w);
      entries := entries + mapped;
    }
    assert hosts[..|hosts|] == hosts;
  }

  /** One configured address: nothing when the scan reported it. */
  method MapConfiguredIp(c: Context, ip: int, byIp: map<int, seq<EndpointRow>>, w: StatusWrites)
    returns (entries: seq<MappedEndpoint>)
    requires IsGrouping(c.cfg, byIp)
    modifies w
    ensures entries == AbsentEntriesOf(c)(ip)
    ensures w.hosts == Logged(old(w.hosts), c.hosts, AbsentHostWrites(c.cfg, c.scan)(ip), c.now)
    ensures w.ports == Logged(old(w.ports), c.ports, AbsentWritesOf(c.cfg, c.scan)(ip), c.now)
  {
    if ip in ScannedIps(c.scan.hosts) {
      return [];
    }
    entries := MapAbsent(c, ip, GroupAt(byIp, ip), w);
  }

  method MapAbsentIps(c: Context, ips: seq<int>, byIp: map<int, seq<EndpointRow>>, w: StatusWrites)
    returns (entries: seq<MappedEndpoint>)
    requires IsGrouping(c.cfg, byIp)
    modifies w
    ensures entries == Flat(ips, AbsentEntriesOf(c))
    ensures w.hosts == Logged(old(w.hosts), c.hosts, Flat(ips, AbsentHostWrites(c.cfg, c.scan)), c.now)
    ensures w.ports == Logged(old(w.ports), c.ports, Flat(ips, AbsentWritesOf(c.cfg, c.scan)), c.now)
  {
    entries := [];
    ghost var hostLog, portLog := AbsentHostWrites(c.cfg, c.scan), AbsentWritesOf(c.cfg, c.scan);
    for i := 0 to |ips|
      invariant entries == Flat(ips[..i], AbsentEntriesOf(c))
      invariant w.hosts == Logged(old(w.hosts), c.hosts, Flat(ips[..i], hostLog), c.now)
      invariant w.ports == Logged(old(w.ports), c.ports, Flat(ips[..i], portLog), c.now)
    {
      FlatStep(ips, i, AbsentEntriesOf(c));
      FlatStep(ips, i, hostLog);
      FlatStep(ips, i, portLog);
      LoggedConcat(old(w.hosts), c.hosts, Flat(ips[..i], hostLog), hostLog(ips[i]), c.now);
      LoggedConcat(old(w.ports), c.ports, Flat(ips[..i], portLog), portLog(ips[i]), c.now);
      var mapped := MapConfiguredIp(c, ips[i], byIp, w);
      entries := entries + mapped;
    }
    assert ips[..|ips|] == ips;
  }

  method MapWithoutIp(cfg: Config, withoutIp: seq<(EndpointRow, ShownIp)>) returns (entries: seq<MappedEndpoint>)
    requires forall i | 0 <= i < |withoutIp| :: withoutIp[i].1 == EntryWithoutIp(cfg, withoutIp[i].0).ip
    ensures |entries| == |withoutIp|
    ensures forall i | 0 <= i < |entries| :: entries[i] == EntryWithoutIp(cfg, withoutIp[i].0)
  {
    entries := [];
    for i := 0 to |withoutIp|
      invariant |entries| == i
      invariant forall j | 0 <= j < i :: entries[j] == EntryWithoutIp(cfg, withoutIp[j].0)
    {
      var m := BuildEndpointWithoutIp(cfg, withoutIp[i].0, withoutIp[i].1);
      entries := entries + [m];
    }
  }

  /** Builds the overview of a scan and persists what the scan established. */
  method BuildNetworkOverview(cfg: Config, scan: Scan, now: int, table: HostStatusTable) returns (entries: seq<MappedEndpoint>)
    modifies table
    ensures var c := Context(cfg, scan, old(table.hosts), old(table.ports), now);
            && entries == NetworkOverview(c)
            && table.hosts == old(table.hosts) + Logged(map[], old(table.hosts), HostStatusWrites(cfg, scan), now)
            && table.ports == old(table.ports) + Logged(map[], old(table.ports), PortWrites(cfg, scan), now)
  {
    var c := Context(cfg, scan, table.hosts, table.ports, now);
    var w := new StatusWrites();
    var ips, byIp, withoutIp := GroupEndpoints(cfg);
    var scanned := MapScannedHosts(c, byIp, w);
    var absent := MapAbsentIps(c, ips, byIp, w);
    var rest := MapWithoutIp(cfg, withoutIp);
    assert rest == Map(WithoutIp(cfg), EntriesWithoutIp(cfg));
    entries := scanned + absent + rest;
    LoggedConcat(map[], c.hosts, Map(scan.hosts, ScannedHostWrite()), Flat(ips, AbsentHostWrites(cfg, scan)), now);
    LoggedConcat(map[], c.ports, Flat(scan.hosts, HostWritesOf(cfg, scan)), Flat(ips, AbsentWritesOf(cfg, scan)), now);
    table.SetHostStatuses(w.hosts);
    table.SetPortStatuses(w.ports);
  }

  /** The scan-free overview. */
  method BuildLastKnownNetworkOverview(c: Context) returns (entries: seq<MappedEndpoint>)
    ensures entries == LastKnownOverview(c)
  {
    var types, rows := c.cfg.endpointTypes, c.cfg.endpoints;
    entries := [];
    for i := 0 to |rows|
      invariant entries == Map(TypedEndpoints(types, rows[..i]), LastKnownViews(c))
    {
      var e := rows[i];
      TypedEndpointStep(types, rows, i);
      var t := FindType(types, e.typeId);
      if t.None? {
        continue;
      }
      MapMore(TypedEndpoints(types, rows[..i]), e, LastKnownViews(c));
      var stored := StoredIp(e, t.value);
      var ip := ProbeableIp(stored);
      if ip.None? {
        var m := BuildEndpointWithoutIp(c.cfg, e, if Truthy(stored) then Other(stored) else NoIp);
        entries := entries + [m];
        continue;
      }
      var m := BuildLastKnownEndpoint(c, ip.value, e);
      entries := entries + [m];
    }
    assert rows[..|rows|] == rows;
  }
}
