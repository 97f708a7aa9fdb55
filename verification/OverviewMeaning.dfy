/** What the entries of an overview show, entry by entry and port by port, said from the configuration
    rows, the verdicts of the scan and the stored history alone. */
module OverviewMeaning {
  import opened Wrappers
  import opened Grouping
  import opened StatusHistory
  import opened TypedEntities
  import opened Overview
  import opened OverviewWrites
  import opened OverviewAgreement
  import Decimal
  import Ipv4

  // ----- roles -----

  /** Rows are looked up by id: the first with the id, or none. */
  lemma {:induction false} FindTypeMeans(rows: seq<TypeRow>, id: string)
    ensures match FindType(rows, id)
            case None => forall t :: t in rows ==> t.id != id
            case Some(t) => exists i :: 0 <= i < |rows| && rows[i] == t && t.id == id && forall j :: 0 <= j < i ==> rows[j].id != id
  {
    if rows != [] {
      if rows[0].id != id {
        FindTypeMeans(rows[1..], id);
        assert forall j | 1 <= j < |rows| :: rows[j] == rows[1..][j - 1];
        if FindType(rows[1..], id).Some? {
          var t := FindType(rows[1..], id).value;
          var i :| 0 <= i < |rows[1..]| && rows[1..][i] == t && t.id == id && forall j :: 0 <= j < i ==> rows[1..][j].id != id;
          assert rows[i + 1] == t;
        }
      } else {
        assert rows[0] in rows;
      }
    }
  }

  /** The number a stored value stands for: a whole number, a flag, decimal text, or the part of a fraction
      before the point; nothing else. */
  lemma NumberOf(v: Value, n: int)
    ensures ToInt(v) == Some(n) <==>
            match v
            case Int(i) => n == i
            case Bool(b) => n == (if b then 1 else 0)
            case Float(r) => (if r >= 0.0 then n as real <= r < n as real + 1.0 else n as real - 1.0 < r <= n as real)
            case Str(s) => s != "" && Decimal.AllDigits(s) && n >= 0 && Decimal.Value(s) == n
            case _ => false
  {}

  /** The service's port: the number stored under the field mapped to the role, whatever type default that
      field has; an empty text counts as nothing stored. */
  lemma PortOfMeans(types: seq<TypeRow>, s: ServiceRow, t: TypeRow, k: string, roleTypes: map<string, FieldType>)
    requires FindType(types, s.typeId) == Some(t) && ValidMapping(t.fields, t.mapping, roleTypes) && "port" in roleTypes
    requires forall r | r in roleTypes :: Normalise(r) == r
    ensures (k, "port") in t.mapping && Lookup(s.data, k) != Str("") ==> PortOf(types, s) == ToInt(Lookup(s.data, k))
    ensures (k, "port") in t.mapping && Lookup(s.data, k) == Str("") ==> PortOf(types, s) == None
    ensures (forall j :: (j, "port") !in t.mapping) ==> PortOf(types, s) == None
  {
    RoleFieldIsTheMappedOne(t.fields, t.mapping, roleTypes, "port", k);
    forall j
      ensures RoleFieldKey(t.fields, t.mapping, "port") == Some(j) <==> (j, "port") in t.mapping
    {
      RoleFieldIsTheMappedOne(t.fields, t.mapping, roleTypes, "port", j);
    }
  }

  /** The endpoint's address: the text stored under the field mapped to the role, when it reads as one. */
  lemma IpOfMeans(types: seq<TypeRow>, e: EndpointRow, t: TypeRow, k: string, roleTypes: map<string, FieldType>)
    requires FindType(types, e.typeId) == Some(t) && ValidMapping(t.fields, t.mapping, roleTypes) && "ip" in roleTypes
    requires forall r | r in roleTypes :: Normalise(r) == r
    ensures (k, "ip") in t.mapping ==>
              match Lookup(e.data, k)
              case Str(s) => IpOf(types, e) == (match Ipv4.Parse(s) case Some(a) => Some(a as int) case None => None)
              case _ => IpOf(types, e) == None
    ensures (forall j :: (j, "ip") !in t.mapping) ==> IpOf(types, e) == None
  {
    RoleFieldIsTheMappedOne(t.fields, t.mapping, roleTypes, "ip", k);
    forall j
      ensures RoleFieldKey(t.fields, t.mapping, "ip") == Some(j) <==> (j, "ip") in t.mapping
    {
      RoleFieldIsTheMappedOne(t.fields, t.mapping, roleTypes, "ip", j);
    }
    EmptyIsNoAddress();
  }

  lemma EmptyIsNoAddress()
    ensures Ipv4.Parse("") == None
  {
    assert Ipv4.SplitDots("") == [""];
  }

  /** The default of a type for a role is that of the field mapped to it. */
  lemma DefaultOfMeans(t: TypeRow, role: string, k: string, roleTypes: map<string, FieldType>)
    requires ValidMapping(t.fields, t.mapping, roleTypes) && role in roleTypes
    requires forall r | r in roleTypes :: Normalise(r) == r
    ensures (k, role) in t.mapping ==> k in t.fields && DefaultOf(t, role) == t.fields[k].default
    ensures (forall j :: (j, role) !in t.mapping) ==> DefaultOf(t, role) == Null
  {
    RoleFieldIsTheMappedOne(t.fields, t.mapping, roleTypes, role, k);
    forall j
      ensures RoleFieldKey(t.fields, t.mapping, role) == Some(j) <==> (j, role) in t.mapping
    {
      RoleFieldIsTheMappedOne(t.fields, t.mapping, roleTypes, role, j);
    }
  }

  /** What is shown as the address of an endpoint without a probeable one: the stored value, unless it is
      one that Python takes for false. */
  lemma ShownAddress(c: Context, e: EndpointRow, t: TypeRow, k: string, roleTypes: map<string, FieldType>)
    requires FindType(c.cfg.endpointTypes, e.typeId) == Some(t) && ValidMapping(t.fields, t.mapping, roleTypes)
    requires "ip" in roleTypes && (forall r | r in roleTypes :: Normalise(r) == r) && (k, "ip") in t.mapping
    ensures EntryWithoutIp(c.cfg, e).ip ==
            if Lookup(e.data, k) in {Null, Bool(false), Int(0), Float(0.0), Str(""), Json("[]"), Json("{}")} then NoIp
            else Other(Lookup(e.data, k))
  {
    RoleFieldIsTheMappedOne(t.fields, t.mapping, roleTypes, "ip", k);
  }

  // ----- status and time -----

  /** The status the scan established: as of now, unless the same was stored before. */
  predicate Fresh(previous: Option<Stamp>, s: Status, now: int, status: Status, changedAt: Option<int>) {
    && status == s
    && changedAt == Some(if previous.Some? && previous.value.status == s then previous.value.changedAt else now)
  }

  /** What was stored before; without history, offline as of now. */
  predicate Kept(previous: Option<Stamp>, now: int, status: Status, changedAt: Option<int>) {
    match previous
    case Some(stamp) => status == stamp.status && changedAt == Some(stamp.changedAt)
    case None => status == Offline && changedAt == Some(now)
  }

  ghost predicate ShowsHost(c: Context, ip: int, status: Status, changedAt: Option<int>) {
    && (forall s :: HostVerdict(c.cfg, c.scan, ip, s) ==> Fresh(Get(c.hosts, ip), s, c.now, status, changedAt))
    && ((forall s :: !HostVerdict(c.cfg, c.scan, ip, s)) ==> Kept(Get(c.hosts, ip), c.now, status, changedAt))
  }

  ghost predicate ShowsPort(c: Context, ip: int, p: int, status: Status, changedAt: Option<int>) {
    && (forall s :: PortVerdict(c.cfg, c.scan, ip, p, s) ==> Fresh(Get(c.ports, (ip, p)), s, c.now, status, changedAt))
    && ((forall s :: !PortVerdict(c.cfg, c.scan, ip, p, s)) ==> Kept(Get(c.ports, (ip, p)), c.now, status, changedAt))
  }

  // ----- entries -----

  /** A listed port of a service: the service's id, type and port; its status as the scan established it or
      as last known, unknown without a port or, with `probed` off, without an address. */
  ghost predicate ShowsService(c: Context, ip: int, probed: bool, s: ServiceRow, mp: MappedPort) {
    && mp.serviceId == Some(s.id) && mp.typeId == Some(s.typeId) && mp.source == Configured
    && mp.port == PortOf(c.cfg.serviceTypes, s)
    && if mp.port.Some? && probed then ShowsPort(c, ip, mp.port.value, mp.status, mp.changedAt)
       else mp.status == Unknown && mp.changedAt == None
  }

  /** The first type whose default for a role is this number, if there is one. */
  predicate FirstDefault(types: seq<TypeRow>, role: string, n: int, i: int) {
    && 0 <= i < |types| && ToInt(DefaultOf(types[i], role)) == Some(n)
    && forall j :: 0 <= j < i ==> ToInt(DefaultOf(types[j], role)) != Some(n)
  }

  /** A listed port of no service: one the host reported, with the first service type that defaults to it. */
  ghost predicate ShowsFreePort(c: Context, ip: int, mp: MappedPort) {
    && mp.serviceId == None && mp.port.Some? && ShowsPort(c, ip, mp.port.value, mp.status, mp.changedAt)
    && (exists h, s :: Scanned(c.scan, h, ip) && Reports(h, mp.port.value, s))
    && if exists i :: FirstDefault(c.cfg.serviceTypes, "port", mp.port.value, i)
       then mp.source == Default &&
            exists i :: FirstDefault(c.cfg.serviceTypes, "port", mp.port.value, i) && mp.typeId == Some(c.cfg.serviceTypes[i].id)
       else mp.source == Unidentified && mp.typeId == None
  }

  ghost predicate ShowsPorts(c: Context, ip: int, services: seq<ServiceRow>, ports: seq<MappedPort>) {
    forall mp :: mp in ports ==>
      ShowsFreePort(c, ip, mp) || exists s :: s in services && ShowsService(c, ip, true, s, mp)
  }

  /** A service whose type exists. */
  predicate Runs(cfg: Config, endpointId: string, s: ServiceRow) {
    endpointId in cfg.services && s in cfg.services[endpointId] && exists t :: t in cfg.serviceTypes && t.id == s.typeId
  }

  /** An entry of an endpoint with an address. */
  ghost predicate ShowsEndpoint(c: Context, e: EndpointRow, ip: int, m: MappedEndpoint) {
    && m.endpointId == Some(e.id) && m.typeId == Some(e.typeId) && m.source == Configured && m.ip == Addr(ip)
    && ShowsHost(c, ip, m.status, m.changedAt)
    && forall mp :: mp in m.ports ==>
         ShowsFreePort(c, ip, mp) || exists s :: Runs(c.cfg, e.id, s) && ShowsService(c, ip, true, s, mp)
  }

  /** An entry of an endpoint without one. */
  ghost predicate ShowsUnprobed(c: Context, e: EndpointRow, m: MappedEndpoint) {
    && m.endpointId == Some(e.id) && m.typeId == Some(e.typeId) && m.source == Configured && !m.ip.Addr?
    && m.status == Unknown && m.changedAt == None
    && forall mp :: mp in m.ports ==> exists s :: Runs(c.cfg, e.id, s) && ShowsService(c, 0, false, s, mp)
  }

  /** An entry of a host without an endpoint. */
  ghost predicate ShowsLoneHost(c: Context, m: MappedEndpoint) {
    && m.endpointId == None && m.ip.Addr? && (forall e :: !EndpointAt(c.cfg, e, m.ip.ip))
    && (exists h :: Scanned(c.scan, h, m.ip.ip)) && ShowsHost(c, m.ip.ip, m.status, m.changedAt)
    && (forall mp :: mp in m.ports ==> ShowsFreePort(c, m.ip.ip, mp))
    && if exists i :: FirstAddress(c.cfg.endpointTypes, m.ip.ip, i)
       then m.source == Default &&
            exists i :: FirstAddress(c.cfg.endpointTypes, m.ip.ip, i) && m.typeId == Some(c.cfg.endpointTypes[i].id)
       else m.source == Unidentified && m.typeId == None
  }

  /** The first type whose default address is this one. */
  predicate FirstAddress(types: seq<TypeRow>, ip: int, i: int) {
    && 0 <= i < |types| && ProbeableIp(DefaultOf(types[i], "ip")) == Some(ip)
    && forall j :: 0 <= j < i ==> ProbeableIp(DefaultOf(types[j], "ip")) != Some(ip)
  }

  lemma {:induction false} SuggestedService(types: seq<TypeRow>, p: int)
    ensures match SuggestedServiceType(types, p)
            case None => forall i :: !FirstDefault(types, "port", p, i)
            case Some(t) => exists i :: FirstDefault(types, "port", p, i) && types[i] == t
  {
    if types != [] {
      SuggestedService(types[1..], p);
      if ToInt(DefaultOf(types[0], "port")) == Some(p) {
        assert FirstDefault(types, "port", p, 0);
      } else {
        forall i
          ensures FirstDefault(types, "port", p, i) <==> i > 0 && FirstDefault(types[1..], "port", p, i - 1)
        {
          DefaultsShift(types, "port", p, i);
        }
        if i: int :| FirstDefault(types[1..], "port", p, i) && Some(types[1..][i]) == SuggestedServiceType(types, p) {
          assert types[i + 1] == types[1..][i];
          assert FirstDefault(types, "port", p, i + 1);
        }
      }
    }
  }

  lemma DefaultsShift(types: seq<TypeRow>, role: string, n: int, i: int)
    requires types != [] && ToInt(DefaultOf(types[0], role)) != Some(n)
    ensures FirstDefault(types, role, n, i) <==> i > 0 && FirstDefault(types[1..], role, n, i - 1)
  {
    assert forall j | 1 <= j < |types| :: types[1..][j - 1] == types[j];
    if i > 0 && FirstDefault(types[1..], role, n, i - 1) {
      forall j | 0 <= j < i
        ensures ToInt(DefaultOf(types[j], role)) != Some(n)
      {
        if j > 0 {
          assert types[1..][j - 1] == types[j];
        }
      }
    }
  }

  lemma {:induction false} SuggestedEndpoint(types: seq<TypeRow>, ip: int)
    ensures match SuggestedEndpointType(types, ip)
            case None => forall i :: !FirstAddress(types, ip, i)
            case Some(t) => exists i :: FirstAddress(types, ip, i) && types[i] == t
  {
    if types != [] {
      SuggestedEndpoint(types[1..], ip);
      if ProbeableIp(DefaultOf(types[0], "ip")) == Some(ip) {
        assert FirstAddress(types, ip, 0);
      } else {
        forall i
          ensures FirstAddress(types, ip, i) <==> i > 0 && FirstAddress(types[1..], ip, i - 1)
        {
          AddressesShift(types, ip, i);
        }
        if i: int :| FirstAddress(types[1..], ip, i) && Some(types[1..][i]) == SuggestedEndpointType(types, ip) {
          assert types[i + 1] == types[1..][i];
          assert FirstAddress(types, ip, i + 1);
        }
      }
    }
  }

  lemma AddressesShift(types: seq<TypeRow>, ip: int, i: int)
    requires types != [] && ProbeableIp(DefaultOf(types[0], "ip")) != Some(ip)
    ensures FirstAddress(types, ip, i) <==> i > 0 && FirstAddress(types[1..], ip, i - 1)
  {
    assert forall j | 1 <= j < |types| :: types[1..][j - 1] == types[j];
    if i > 0 && FirstAddress(types[1..], ip, i - 1) {
      forall j | 0 <= j < i
        ensures ProbeableIp(DefaultOf(types[j], "ip")) != Some(ip)
      {
        if j > 0 {
          assert types[1..][j - 1] == types[j];
        }
      }
    }
  }

  // ----- verdicts and stamps -----

  lemma VerdictShown(c: Context, ip: int, s: Status)
    requires ValidScan(c.scan) && HostVerdict(c.cfg, c.scan, ip, s)
    ensures var stamp := Stamped(Get(c.hosts, ip), s, c.now); ShowsHost(c, ip, stamp.status, Some(stamp.changedAt))
  {
    forall t | HostVerdict(c.cfg, c.scan, ip, t)
      ensures s == t
    {
      VerdictsAreUnique(c.cfg, c.scan, ip, 0, s, t);
    }
  }

  lemma PortVerdictShown(c: Context, ip: int, p: int, s: Status)
    requires ValidScan(c.scan) && PortVerdict(c.cfg, c.scan, ip, p, s)
    ensures var stamp := Stamped(Get(c.ports, (ip, p)), s, c.now); ShowsPort(c, ip, p, stamp.status, Some(stamp.changedAt))
  {
    forall t | PortVerdict(c.cfg, c.scan, ip, p, t)
      ensures s == t
    {
      VerdictsAreUnique(c.cfg, c.scan, ip, p, s, t);
    }
  }

  lemma NoPortVerdictShown(c: Context, ip: int, p: int)
    requires forall s :: !PortVerdict(c.cfg, c.scan, ip, p, s)
    ensures var stamp := LastKnown(Get(c.ports, (ip, p)), c.now); ShowsPort(c, ip, p, stamp.status, Some(stamp.changedAt))
  {}

  lemma {:induction false} TypedServiceMembers(types: seq<TypeRow>, rows: seq<ServiceRow>, s: ServiceRow)
    ensures s in TypedServices(types, rows) <==> s in rows && FindType(types, s.typeId).Some?
  {
    if rows != [] {
      TypedServiceMembers(types, rows[..|rows| - 1], s);
      assert rows == rows[..|rows| - 1] + [rows[|rows| - 1]];
    }
  }

  lemma ListedRuns(cfg: Config, endpointId: string, s: ServiceRow)
    ensures s in Listed(cfg, endpointId) <==> Runs(cfg, endpointId, s)
  {
    TypedServiceMembers(cfg.serviceTypes, GetServices(cfg, endpointId), s);
    FindTypeMeans(cfg.serviceTypes, s.typeId);
  }

  // ----- the ports of a scanned host -----

  lemma ScannedPortShows(c: Context, h: Host, claimed: set<int>, services: seq<ServiceRow>, first: bool, sp: ScanPort,
                         mp: MappedPort)
    requires ValidScan(c.scan) && h in c.scan.hosts && sp in h.ports && mp in PortEntry(c, h, claimed, services, first, sp)
    ensures ShowsFreePort(c, h.ip, mp) || exists s :: s in services && ShowsService(c, h.ip, true, s, mp)
  {
    var p := PortText(sp.key).value;
    var stamp := Stamped(Get(c.ports, (h.ip, p)), sp.status, c.now);
    assert Scanned(c.scan, h, h.ip) && Reports(h, p, sp.status);
    PortVerdictShown(c, h.ip, p, sp.status);
    var backing := Select(services, PortKey(c.cfg.serviceTypes), Some(p));
    if backing != [] {
      BackingShows(c, h.ip, services, p, stamp, mp);
    } else {
      SuggestedService(c.cfg.serviceTypes, p);
    }
  }

  lemma BackingShows(c: Context, ip: int, services: seq<ServiceRow>, p: int, stamp: Stamp, mp: MappedPort)
    requires mp in Map(Select(services, PortKey(c.cfg.serviceTypes), Some(p)), StampedPorts(p, stamp))
    requires ShowsPort(c, ip, p, stamp.status, Some(stamp.changedAt))
    ensures exists s :: s in services && ShowsService(c, ip, true, s, mp)
  {
    var key := PortKey(c.cfg.serviceTypes);
    var backing := Select(services, key, Some(p));
    MapMembers(backing, StampedPorts(p, stamp), mp);
    var s :| s in backing && mp == StampedPorts(p, stamp)(s);
    SelectMembers(services, key, Some(p));
    assert key(s) == Some(p);
  }

  lemma MissedPortShows(c: Context, h: Host, services: seq<ServiceRow>, p: int, mp: MappedPort)
    requires ValidScan(c.scan) && h in c.scan.hosts && Backed(c.cfg, h.ip, p) && mp in MissedEntry(c, h, services, p)
    ensures exists s :: s in services && ShowsService(c, h.ip, true, s, mp)
  {
    assert Scanned(c.scan, h, h.ip);
    if p in c.scan.ports {
      assert PortVerdict(c.cfg, c.scan, h.ip, p, Offline);
      PortVerdictShown(c, h.ip, p, Offline);
    } else {
      forall t
        ensures !PortVerdict(c.cfg, c.scan, h.ip, p, t)
      {
        NoVerdict(c, h, p, t);
      }
      NoPortVerdictShown(c, h.ip, p);
    }
    BackingShows(c, h.ip, services, p, MissedStamp(c, h.ip, p), mp);
  }

  lemma UnknownPortShows(c: Context, ip: int, services: seq<ServiceRow>, mp: MappedPort)
    requires mp in Map(Select(services, PortKey(c.cfg.serviceTypes), None), UnknownPorts(c.cfg))
    ensures exists s :: s in services && ShowsService(c, ip, true, s, mp)
  {
    var key := PortKey(c.cfg.serviceTypes);
    MapMembers(Select(services, key, None), UnknownPorts(c.cfg), mp);
    var s :| s in Select(services, key, None) && mp == UnknownPorts(c.cfg)(s);
    SelectMembers(services, key, None);
    assert key(s) == None;
  }

  lemma HostPortsShow(c: Context, h: Host, services: seq<ServiceRow>, first: bool)
    requires ValidScan(c.scan) && h in c.scan.hosts
    requires forall p :: p in PortSet(c.cfg.serviceTypes, services) ==> Backed(c.cfg, h.ip, p)
    ensures ShowsPorts(c, h.ip, services, HostPorts(c, h, Claimed(c.cfg, h.ip), services, first))
  {
    var key, claimed := PortKey(c.cfg.serviceTypes), Claimed(c.cfg, h.ip);
    forall mp | mp in HostPorts(c, h, claimed, services, first)
      ensures ShowsFreePort(c, h.ip, mp) || exists s :: s in services && ShowsService(c, h.ip, true, s, mp)
    {
      FlatMembers(h.ports, PortEntriesOf(c, h, claimed, services, first), mp);
      FlatMembers(Keys(services, key), MissedEntriesOf(c, h, services), mp);
      if sp :| sp in h.ports && mp in PortEntriesOf(c, h, claimed, services, first)(sp) {
        ScannedPortShows(c, h, claimed, services, first, sp, mp);
      } else if p :| p in Keys(services, key) && mp in MissedEntriesOf(c, h, services)(p) {
        MissedPortShows(c, h, services, p, mp);
      } else {
        UnknownPortShows(c, h.ip, services, mp);
      }
    }
  }

  // ----- the entries of the overview -----

  lemma HostEndpointShows(c: Context, h: Host, e: EndpointRow, first: bool)
    requires ValidScan(c.scan) && h in c.scan.hosts && EndpointAt(c.cfg, e, h.ip)
    ensures ShowsEndpoint(c, e, h.ip, HostEntry(c, h, Some(e), first))
  {
    assert Scanned(c.scan, h, h.ip);
    VerdictShown(c, h.ip, h.status);
    ServicesAreBacked(c.cfg, h.ip, e);
    HostPortsShow(c, h, Listed(c.cfg, e.id), first);
    forall s
      ensures s in Listed(c.cfg, e.id) <==> Runs(c.cfg, e.id, s)
    {
      ListedRuns(c.cfg, e.id, s);
    }
  }

  lemma LoneHostShows(c: Context, h: Host)
    requires ValidScan(c.scan) && h in c.scan.hosts && Group(c.cfg, h.ip) == []
    ensures ShowsLoneHost(c, HostEntry(c, h, None, true))
  {
    assert Scanned(c.scan, h, h.ip);
    VerdictShown(c, h.ip, h.status);
    GroupSpec(c.cfg, h.ip);
    assert PortSet(c.cfg.serviceTypes, []) == {};
    HostPortsShow(c, h, [], true);
    SuggestedEndpoint(c.cfg.endpointTypes, h.ip);
  }

  lemma AbsentShows(c: Context, ip: int, e: EndpointRow)
    requires ValidScan(c.scan) && ip !in ScannedIps(c.scan.hosts) && EndpointAt(c.cfg, e, ip)
    ensures ShowsEndpoint(c, e, ip, AbsentEntry(c, ip)(e))
  {
    ScannedIpsSpec(c.scan, ip);
    assert forall h :: !Scanned(c.scan, h, ip);
    if InScannedNetwork(c.scan, ip) {
      assert HostVerdict(c.cfg, c.scan, ip, Offline);
      VerdictShown(c, ip, Offline);
    }
    var m := AbsentEntry(c, ip)(e);
    forall mp | mp in m.ports
      ensures exists s :: Runs(c.cfg, e.id, s) && ShowsService(c, ip, true, s, mp)
    {
      AbsentPortShows(c, ip, e, mp);
    }
  }

  lemma AbsentPortShows(c: Context, ip: int, e: EndpointRow, mp: MappedPort)
    requires ValidScan(c.scan) && ip !in ScannedIps(c.scan.hosts) && EndpointAt(c.cfg, e, ip)
    requires mp in AbsentEntry(c, ip)(e).ports
    ensures exists s :: Runs(c.cfg, e.id, s) && ShowsService(c, ip, true, s, mp)
  {
    var services := Listed(c.cfg, e.id);
    var f := if InScannedNetwork(c.scan, ip) then OfflinePorts(c, ip) else LastKnownPorts(c, ip);
    MapMembers(services, f, mp);
    var s :| s in services && mp == f(s);
    ListedRuns(c.cfg, e.id, s);
    AbsentServiceShows(c, ip, e, s);
  }

  lemma AbsentServiceShows(c: Context, ip: int, e: EndpointRow, s: ServiceRow)
    requires ValidScan(c.scan) && ip !in ScannedIps(c.scan.hosts) && EndpointAt(c.cfg, e, ip) && s in Listed(c.cfg, e.id)
    ensures ShowsService(c, ip, true, s, if InScannedNetwork(c.scan, ip) then OfflinePort(c, ip, s) else LastKnownPort(c, ip, s))
  {
    match PortOf(c.cfg.serviceTypes, s)
    case None =>
    case Some(p) =>
      KeysSpec(Listed(c.cfg, e.id), PortKey(c.cfg.serviceTypes));
      assert PortKey(c.cfg.serviceTypes)(s) == Some(p);
      ServicesAreBacked(c.cfg, ip, e);
      ScannedIpsSpec(c.scan, ip);
      assert forall h :: !Scanned(c.scan, h, ip);
      if InScannedNetwork(c.scan, ip) {
        assert PortVerdict(c.cfg, c.scan, ip, p, Offline);
        PortVerdictShown(c, ip, p, Offline);
      } else {
        NoPortVerdictShown(c, ip, p);
      }
  }

  lemma WithoutIpShows(c: Context, e: EndpointRow)
    requires IpOf(c.cfg.endpointTypes, e) == None
    ensures ShowsUnprobed(c, e, EntryWithoutIp(c.cfg, e))
  {
    var m, services := EntryWithoutIp(c.cfg, e), Listed(c.cfg, e.id);
    forall mp | mp in m.ports
      ensures exists s :: Runs(c.cfg, e.id, s) && ShowsService(c, 0, false, s, mp)
    {
      MapMembers(services, UnknownPorts(c.cfg), mp);
      var s :| s in services && mp == UnknownPorts(c.cfg)(s);
      ListedRuns(c.cfg, e.id, s);
    }
  }

  /** A configured endpoint whose type exists. */
  predicate IsConfigured(cfg: Config, e: EndpointRow) {
    e in cfg.endpoints && exists t :: t in cfg.endpointTypes && t.id == e.typeId
  }

  /** Every entry of an overview is that of a configured endpoint with or without an address, or of a
      scanned host without an endpoint, and shows what that says. */
  lemma EveryEntryShows(c: Context, m: MappedEndpoint)
    requires ValidScan(c.scan) && m in NetworkOverview(c)
    ensures || ShowsLoneHost(c, m)
            || (exists e, ip :: IsConfigured(c.cfg, e) && IpOf(c.cfg.endpointTypes, e) == Some(ip) && ShowsEndpoint(c, e, ip, m))
            || (exists e :: IsConfigured(c.cfg, e) && IpOf(c.cfg.endpointTypes, e) == None && ShowsUnprobed(c, e, m))
  {
    if m in Flat(c.scan.hosts, HostEntriesOf(c)) {
      FlatMembers(c.scan.hosts, HostEntriesOf(c), m);
      var h :| h in c.scan.hosts && m in HostEntriesOf(c)(h);
      HostEntryShows(c, h, m);
    } else if m in Flat(ConfiguredIps(c.cfg), AbsentEntriesOf(c)) {
      FlatMembers(ConfiguredIps(c.cfg), AbsentEntriesOf(c), m);
      var ip :| ip in ConfiguredIps(c.cfg) && m in AbsentEntriesOf(c)(ip);
      MapMembers(Group(c.cfg, ip), AbsentEntry(c, ip), m);
      var e :| e in Group(c.cfg, ip) && m == AbsentEntry(c, ip)(e);
      GroupSpec(c.cfg, ip);
      TypedIsConfigured(c.cfg, e);
      AbsentShows(c, ip, e);
    } else {
      var rows, key := TypedEndpoints(c.cfg.endpointTypes, c.cfg.endpoints), IpKey(c.cfg.endpointTypes);
      MapMembers(WithoutIp(c.cfg), EntriesWithoutIp(c.cfg), m);
      var e :| e in WithoutIp(c.cfg) && m == EntriesWithoutIp(c.cfg)(e);
      SelectMembers(rows, key, None);
      assert key(e) == None;
      TypedIsConfigured(c.cfg, e);
      WithoutIpShows(c, e);
    }
  }

  lemma TypedIsConfigured(cfg: Config, e: EndpointRow)
    ensures e in TypedEndpoints(cfg.endpointTypes, cfg.endpoints) <==> IsConfigured(cfg, e)
  {
    TypedSpec(cfg);
    FindTypeMeans(cfg.endpointTypes, e.typeId);
  }

  lemma HostEntryShows(c: Context, h: Host, m: MappedEndpoint)
    requires ValidScan(c.scan) && h in c.scan.hosts && m in EntriesOf(c, h)
    ensures || ShowsLoneHost(c, m)
            || (exists e, ip :: IsConfigured(c.cfg, e) && IpOf(c.cfg.endpointTypes, e) == Some(ip) && ShowsEndpoint(c, e, ip, m))
  {
    if Group(c.cfg, h.ip) == [] {
      LoneHostShows(c, h);
    } else {
      assert m.endpointId.Some? by {
        if m != EntriesOf(c, h)[0] {
          MapMembers(Group(c.cfg, h.ip)[1..], LaterEntries(c, h), m);
        }
      }
      var e, first := EndpointOfHostEntry(c, h, m);
      TypedIsConfigured(c.cfg, e);
      HostEndpointShows(c, h, e, first);
    }
  }

  // ----- the scan-free view -----

  /** The scan-free view lists every configured endpoint whose type exists, in order, with what is stored
      of it and of its services. */
  lemma ViewShows(c: Context, e: EndpointRow)
    ensures var m := LastKnownView(c, e);
            && m.endpointId == Some(e.id) && m.typeId == Some(e.typeId) && m.source == Configured
            && match IpOf(c.cfg.endpointTypes, e)
               case None => ShowsUnprobed(c, e, m)
               case Some(ip) => m.ip == Addr(ip) && Kept(Get(c.hosts, ip), c.now, m.status, m.changedAt)
  {
    if IpOf(c.cfg.endpointTypes, e) == None {
      WithoutIpShows(c, e);
    }
  }
}
