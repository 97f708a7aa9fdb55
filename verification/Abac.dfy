/** Role and scope evaluation: four code paths that answer whether a user may use a permission on a
    device, and the metadata patch check. */
module Abac {
  import opened Wrappers
  import opened TypedEntities

  datatype ScopeValue = One(value: Value) | Many(values: seq<Value>)

  datatype Rule = All | Any

  datatype Scope = Scope(attr: map<string, ScopeValue>, rule: Rule)

  datatype Team = Team(scope: Option<Scope>, roles: seq<set<string>>)

  datatype User = User(isAdmin: bool, teams: seq<Team>)

  // ----- evaluate_permission -----

  predicate KeyMatches(key: string, wanted: ScopeValue, meta: Data) {
    var actual := Lookup(meta, key);
    actual != Null &&
    match wanted
    case One(v) => PyEq(actual, v)
    case Many(vs) => exists i :: 0 <= i < |vs| && PyEq(actual, vs[i])
  }

  predicate MatchesScope(s: Scope, meta: Data) {
    s.attr == map[] ||
    match s.rule
    case All => forall k | k in s.attr :: KeyMatches(k, s.attr[k], meta)
    case Any => exists k | k in s.attr :: KeyMatches(k, s.attr[k], meta)
  }

  /** The scope with one of the attributes alone. */
  function Alone(s: Scope, k: string): Scope
    requires k in s.attr
  {
    s.(attr := map[k := s.attr[k]])
  }

  /** A scope of one attribute admits a device that has a value there and the wanted value, or one of
      the wanted ones; the rule makes no difference. */
  lemma OneAttributeScope(k: string, wanted: ScopeValue, rule: Rule, meta: Data)
    ensures MatchesScope(Scope(map[k := wanted], rule), meta) <==>
            k in meta && meta[k] != Null &&
            match wanted
            case One(v) => PyEq(meta[k], v)
            case Many(vs) => exists v :: v in vs && PyEq(meta[k], v)
  {
    var attr := map[k := wanted];
    assert k in attr && attr != map[];
    assert KeyMatches(k, attr[k], meta) <==> MatchesScope(Scope(attr, rule), meta);
    if wanted.Many? && k in meta {
      if v :| v in wanted.values && PyEq(meta[k], v) {
        var i :| 0 <= i < |wanted.values| && wanted.values[i] == v;
      }
    }
  }

  /** An ALL scope asks for each of its attributes, a non-empty ANY scope for one of them, and a scope
      without attributes for nothing. */
  lemma ScopeByAttributes(s: Scope, meta: Data)
    ensures s.attr == map[] ==> MatchesScope(s, meta)
    ensures s.rule.All? ==> (MatchesScope(s, meta) <==> forall k :: k in s.attr ==> MatchesScope(Alone(s, k), meta))
    ensures s.rule.Any? && s.attr != map[] ==>
              (MatchesScope(s, meta) <==> exists k :: k in s.attr && MatchesScope(Alone(s, k), meta))
  {
    forall k | k in s.attr
      ensures MatchesScope(Alone(s, k), meta) <==> KeyMatches(k, s.attr[k], meta)
    {
      var one := Alone(s, k);
      assert k in one.attr && one.attr[k] == s.attr[k] && one.attr != map[];
    }
  }

  predicate Grants(t: Team, permission: string) {
    exists r :: r in t.roles && permission in r
  }

  function TeamsWithPermission(teams: seq<Team>, permission: string): seq<Team> {
    if teams == [] then []
    else
      var front := TeamsWithPermission(teams[..|teams| - 1], permission);
      if Grants(teams[|teams| - 1], permission) then front + [teams[|teams| - 1]] else front
  }

  predicate SomeUnscoped(teams: seq<Team>) {
    exists t :: t in teams && t.scope.None?
  }

  /** Some scoped team of the list matches. */
  predicate SomeScopeMatches(teams: seq<Team>, meta: Data) {
    exists t :: t in teams && t.scope.Some? && MatchesScope(t.scope.value, meta)
  }

  function EvaluatePermission(permission: string, user: User, meta: Option<Data>): bool {
    if user.isAdmin then true
    else
      var teams := TeamsWithPermission(user.teams, permission);
      if teams == [] then false
      else if meta.None? then true
      else if SomeUnscoped(teams) then true
      else SomeScopeMatches(teams, meta.value)
  }

  /** What a permission on a device means, independently of how it is computed. */
  predicate MayAccess(permission: string, user: User, meta: Data) {
    user.isAdmin ||
    exists t :: t in user.teams && Grants(t, permission) && (t.scope.None? || MatchesScope(t.scope.value, meta))
  }

  lemma {:induction false} TeamsSpec(teams: seq<Team>, permission: string)
    ensures forall t :: t in TeamsWithPermission(teams, permission) <==> t in teams && Grants(t, permission)
  {
    if teams != [] {
      TeamsSpec(teams[..|teams| - 1], permission);
      assert teams == teams[..|teams| - 1] + [teams[|teams| - 1]];
    }
  }

  /** Without metadata only the role matters; with metadata some granting team must be unscoped or
      match. */
  lemma EvaluateMeansAccess(permission: string, user: User, meta: Data)
    ensures EvaluatePermission(permission, user, Some(meta)) <==> MayAccess(permission, user, meta)
    ensures EvaluatePermission(permission, user, None) <==>
              user.isAdmin || exists t :: t in user.teams && Grants(t, permission)
    ensures EvaluatePermission(permission, user, Some(meta)) ==> EvaluatePermission(permission, user, None)
  {
    TeamsSpec(user.teams, permission);
    var teams := TeamsWithPermission(user.teams, permission);
    if t :| t in user.teams && Grants(t, permission) {
      assert t in teams;
    }
    if teams != [] {
      assert teams[0] in teams;
    }
  }

  // ----- the checks -----

  datatype Denial =
    | NoUserId | UserNotFound | NoTeams | NoRole | NoDevice | DeviceNotFound | OutOfScope | ResultOutOfScope

  /** What a check looks up: the token's user id, the user, and the device metadata by id. */
  datatype World = World(users: map<string, User>, devices: map<string, Data>)

  function Find<V>(m: map<string, V>, k: string): Option<V> {
    if k in m then Some(m[k]) else None
  }

  /** The shared evaluation: the device is only looked up when some scope has to be evaluated.
      `patch` is the metadata change whose result must stay in scope, if any. */
  method Authorize(world: World, permission: string, userId: Option<string>, device: Option<string>, requireDevice: bool,
                   patch: Option<Data>)
    returns (denial: Option<Denial>)
    ensures denial == Authorized(world, permission, userId, device, requireDevice, patch)
  {
    if userId.None? || userId.value == "" {
      return Some(NoUserId);
    }
    var user := Find(world.users, userId.value);
    if user.None? {
      return Some(UserNotFound);
    }
    var meta: Option<Data> := None;
    var scopeRequired := false;
    if !user.value.isAdmin {
      if user.value.teams == [] {
        return Some(NoTeams);
      }
      var teams := TeamsWithPermission(user.value.teams, permission);
      if teams == [] {
        return Some(NoRole);
      }
      scopeRequired := !SomeUnscoped(teams);
    }
    if scopeRequired && device.None? && requireDevice {
      return Some(NoDevice);
    }
    if device.Some? && scopeRequired {
      meta := Find(world.devices, device.value);
      if meta.None? {
        return Some(DeviceNotFound);
      }
    }
    if !EvaluatePermission(permission, user.value, meta) {
      return Some(OutOfScope);
    }
    if patch.Some? && meta.Some? {
      if !EvaluatePermission(permission, user.value, Some(PatchData(meta.value, patch.value))) {
        return Some(ResultOutOfScope);
      }
    }
    return None;
  }

  function Authorized(world: World, permission: string, userId: Option<string>, device: Option<string>,
                      requireDevice: bool, patch: Option<Data>): Option<Denial>
  {
    if userId.None? || userId.value == "" then Some(NoUserId)
    else
      match Find(world.users, userId.value)
      case None => Some(UserNotFound)
      case Some(user) => AuthorizedUser(world, permission, user, device, requireDevice, patch)
  }

  function AuthorizedUser(world: World, permission: string, user: User, device: Option<string>, requireDevice: bool,
                          patch: Option<Data>): Option<Denial>
  {
    var teams := TeamsWithPermission(user.teams, permission);
    var scopeRequired := !user.isAdmin && !SomeUnscoped(teams);
    if !user.isAdmin && user.teams == [] then Some(NoTeams)
    else if !user.isAdmin && teams == [] then Some(NoRole)
    else if scopeRequired && device.None? then (if requireDevice then Some(NoDevice) else None)
    else if scopeRequired && Find(world.devices, device.value).None? then Some(DeviceNotFound)
    else
      var meta := if scopeRequired then Find(world.devices, device.value) else None;
      if !EvaluatePermission(permission, user, meta) then Some(OutOfScope)
      else if patch.Some? && meta.Some?
              && !EvaluatePermission(permission, user, Some(PatchData(meta.value, patch.value)))
      then Some(ResultOutOfScope)
      else None
  }

  /** The per-device check of routes that learn the device late. */
  function RequireDevicePermission(world: World, permission: string, device: string, userId: string): Option<Denial> {
    match Find(world.users, userId)
    case None => Some(UserNotFound)
    case Some(user) =>
      if user.isAdmin then None
      else
        var teams := TeamsWithPermission(user.teams, permission);
        if teams == [] then Some(NoRole)
        else if SomeUnscoped(teams) then None
        else
          match Find(world.devices, device)
          case None => Some(DeviceNotFound)
          case Some(meta) => if EvaluatePermission(permission, user, Some(meta)) then None else Some(OutOfScope)
  }

  datatype ListFilter = ListFilter(unrestricted: bool, scopes: seq<Scope>)

  function ScopesOf(teams: seq<Team>): seq<Scope>
    requires !SomeUnscoped(teams)
  {
    if teams == [] then [] else ScopesOf(teams[..|teams| - 1]) + [teams[|teams| - 1].scope.value]
  }

  /** The filter of list endpoints. */
  function DeviceListFilter(world: World, permission: string, userId: Option<string>): Result<ListFilter, Denial> {
    if userId.None? || userId.value == "" then Err(NoUserId)
    else
      match Find(world.users, userId.value)
      case None => Err(UserNotFound)
      case Some(user) =>
        if user.isAdmin then Ok(ListFilter(true, []))
        else if user.teams == [] then Err(NoTeams)
        else
          var teams := TeamsWithPermission(user.teams, permission);
          if teams == [] then Err(NoRole)
          else if SomeUnscoped(teams) then Ok(ListFilter(true, []))
          else Ok(ListFilter(false, ScopesOf(teams)))
  }

  predicate FilterDevice(f: ListFilter, meta: Data) {
    f.unrestricted || exists s :: s in f.scopes && MatchesScope(s, meta)
  }

  /** Creating a device evaluates the proposed metadata instead of stored metadata. */
  function AuthorizeCreate(world: World, permission: string, userId: Option<string>, meta: Data): Option<Denial> {
    if userId.None? || userId.value == "" then Some(NoUserId)
    else
      match Find(world.users, userId.value)
      case None => Some(UserNotFound)
      case Some(user) =>
        if user.isAdmin then None
        else if user.teams == [] then Some(NoTeams)
        else if !EvaluatePermission(permission, user, None) then Some(NoRole)
        else if !EvaluatePermission(permission, user, Some(meta)) then Some(OutOfScope)
        else None
  }

  lemma {:induction false} ScopesSpec(teams: seq<Team>, meta: Data)
    requires !SomeUnscoped(teams)
    ensures (exists s :: s in ScopesOf(teams) && MatchesScope(s, meta)) <==> SomeScopeMatches(teams, meta)
  {
    if teams != [] {
      var front, last := teams[..|teams| - 1], teams[|teams| - 1];
      assert teams == front + [last];
      assert last in teams;
      ScopesSpec(front, meta);
      if t :| t in teams && t.scope.Some? && MatchesScope(t.scope.value, meta) {
        assert t in front || t == last;
      }
      assert last.scope.value in ScopesOf(teams);
    }
  }

  /** For every user, permission and existing device, every path accepts exactly when
      `evaluate_permission` does. */
  lemma PathsAgree(world: World, permission: string, userId: string, device: string, requireDevice: bool)
    requires userId != "" && userId in world.users && device in world.devices
    ensures var user, meta := world.users[userId], world.devices[device];
            var accepts := EvaluatePermission(permission, user, Some(meta));
            && (Authorized(world, permission, Some(userId), Some(device), requireDevice, None) == None <==> accepts)
            && (RequireDevicePermission(world, permission, device, userId) == None <==> accepts)
            && (AuthorizeCreate(world, permission, Some(userId), meta) == None <==> accepts)
            && (match DeviceListFilter(world, permission, Some(userId))
                case Ok(f) => FilterDevice(f, meta) <==> accepts
                case Err(_) => !accepts)
  {
    var user, meta := world.users[userId], world.devices[device];
    var teams := TeamsWithPermission(user.teams, permission);
    EvaluateMeansAccess(permission, user, meta);
    if !user.isAdmin && teams != [] && !SomeUnscoped(teams) {
      ScopesSpec(teams, meta);
    }
  }

  /** The device has no value, or none of the wanted ones, at an attribute of the scope. */
  predicate Differs(s: Scope, k: string, meta: Data) {
    k in s.attr &&
    (k !in meta || meta[k] == Null ||
     match s.attr[k]
     case One(v) => !PyEq(meta[k], v)
     case Many(vs) => forall v :: v in vs ==> !PyEq(meta[k], v))
  }

  /** A device that differs in one attribute of every granting team's ALL scope is refused on every
      path, however many attributes agree. */
  lemma OneDifferenceRefuses(world: World, permission: string, userId: string, device: string, requireDevice: bool)
    requires userId != "" && userId in world.users && device in world.devices && !world.users[userId].isAdmin
    requires forall t | t in world.users[userId].teams && Grants(t, permission) ::
               t.scope.Some? && t.scope.value.rule.All? && exists k :: Differs(t.scope.value, k, world.devices[device])
    ensures Authorized(world, permission, Some(userId), Some(device), requireDevice, None) != None
    ensures RequireDevicePermission(world, permission, device, userId) != None
    ensures AuthorizeCreate(world, permission, Some(userId), world.devices[device]) != None
    ensures var f := DeviceListFilter(world, permission, Some(userId));
            f.Ok? ==> !FilterDevice(f.value, world.devices[device])
  {
    var user, meta := world.users[userId], world.devices[device];
    forall t | t in user.teams && Grants(t, permission)
      ensures !MatchesScope(t.scope.value, meta)
    {
      var s := t.scope.value;
      var k :| Differs(s, k, meta);
      ScopeByAttributes(s, meta);
      OneAttributeScope(k, s.attr[k], s.rule, meta);
      assert Alone(s, k) == Scope(map[k := s.attr[k]], s.rule);
    }
    EvaluateMeansAccess(permission, user, meta);
    PathsAgree(world, permission, userId, device, requireDevice);
  }

  /** A device that agrees in every attribute of one granting team's ALL scope is accepted on every
      path, and so it is when it agrees in one attribute of an ANY scope. */
  lemma AgreementAccepts(world: World, permission: string, userId: string, device: string, requireDevice: bool, t: Team)
    requires userId != "" && userId in world.users && device in world.devices
    requires t in world.users[userId].teams && Grants(t, permission) && t.scope.Some?
    requires var s, meta := t.scope.value, world.devices[device];
             if s.rule.All? then forall k :: k in s.attr ==> !Differs(s, k, meta)
             else exists k :: k in s.attr && !Differs(s, k, meta)
    ensures Authorized(world, permission, Some(userId), Some(device), requireDevice, None) == None
    ensures RequireDevicePermission(world, permission, device, userId) == None
    ensures AuthorizeCreate(world, permission, Some(userId), world.devices[device]) == None
    ensures var f := DeviceListFilter(world, permission, Some(userId));
            f.Ok? && FilterDevice(f.value, world.devices[device])
  {
    var user, meta := world.users[userId], world.devices[device];
    var s := t.scope.value;
    forall k | k in s.attr
      ensures MatchesScope(Alone(s, k), meta) <==> !Differs(s, k, meta)
    {
      OneAttributeScope(k, s.attr[k], s.rule, meta);
      assert Alone(s, k) == Scope(map[k := s.attr[k]], s.rule);
    }
    ScopeByAttributes(s, meta);
    EvaluateMeansAccess(permission, user, meta);
    PathsAgree(world, permission, userId, device, requireDevice);
  }

  /** A user who is no admin, has a granting team, and whose granting teams are all scoped: the only one a
      device matters for. */
  predicate Restricted(user: User, permission: string) {
    && !user.isAdmin && (exists t :: t in user.teams && Grants(t, permission))
    && forall t :: t in user.teams && Grants(t, permission) ==> t.scope.Some?
  }

  /** Why a known caller is refused, reason by reason; in all other cases it is not. */
  lemma DenialMeans(world: World, permission: string, userId: string, device: Option<string>, requireDevice: bool,
                    patch: Option<Data>)
    requires userId != "" && userId in world.users
    ensures var user, denial := world.users[userId], Authorized(world, permission, Some(userId), device, requireDevice, patch);
            var found := device.Some? && device.value in world.devices;
            && denial !in {Some(NoUserId), Some(UserNotFound)}
            && (denial == Some(NoTeams) <==> !user.isAdmin && user.teams == [])
            && (denial == Some(NoRole) <==>
                  !user.isAdmin && user.teams != [] && forall t :: t in user.teams ==> !Grants(t, permission))
            && (denial == Some(NoDevice) <==> Restricted(user, permission) && device.None? && requireDevice)
            && (denial == Some(DeviceNotFound) <==> Restricted(user, permission) && device.Some? && !found)
            && (denial == Some(OutOfScope) <==>
                  Restricted(user, permission) && found && !MayAccess(permission, user, world.devices[device.value]))
            && (denial == Some(ResultOutOfScope) <==>
                  && Restricted(user, permission) && found && MayAccess(permission, user, world.devices[device.value])
                  && patch.Some? && !MayAccess(permission, user, PatchData(world.devices[device.value], patch.value)))
  {
    var user := world.users[userId];
    var teams := TeamsWithPermission(user.teams, permission);
    TeamsSpec(user.teams, permission);
    RestrictedMeans(user, permission);
    EvaluateMeansAccess(permission, user, map[]);
    if device.Some? && device.value in world.devices {
      EvaluateMeansAccess(permission, user, world.devices[device.value]);
      if patch.Some? {
        EvaluateMeansAccess(permission, user, PatchData(world.devices[device.value], patch.value));
      }
    }
  }

  lemma RestrictedMeans(user: User, permission: string)
    ensures var teams := TeamsWithPermission(user.teams, permission);
            && (Restricted(user, permission) <==> !user.isAdmin && teams != [] && !SomeUnscoped(teams))
            && (teams == [] <==> forall t :: t in user.teams ==> !Grants(t, permission))
            && (user.teams == [] ==> teams == [])
  {
    TeamsSpec(user.teams, permission);
    var teams := TeamsWithPermission(user.teams, permission);
    if teams != [] {
      assert teams[0] in teams;
    }
  }

  /** A caller without a user id, or with one nobody has, is refused on every path. */
  lemma UnknownCallerRefused(world: World, permission: string, userId: Option<string>, device: Option<string>,
                             requireDevice: bool, patch: Option<Data>, meta: Data)
    requires userId.Some? && userId.value != "" ==> userId.value !in world.users
    ensures Authorized(world, permission, userId, device, requireDevice, patch) in {Some(NoUserId), Some(UserNotFound)}
    ensures AuthorizeCreate(world, permission, userId, meta) in {Some(NoUserId), Some(UserNotFound)}
    ensures DeviceListFilter(world, permission, userId) in {Err(NoUserId), Err(UserNotFound)}
    ensures userId.Some? && userId.value != "" && device.Some? ==>
              RequireDevicePermission(world, permission, device.value, userId.value) == Some(UserNotFound)
  {}

  /** A device that does not exist is refused to scope-restricted callers only, and a missing
      device id is refused only where the check requires one. */
  lemma MissingDevice(world: World, permission: string, userId: string, device: Option<string>, requireDevice: bool)
    requires userId != "" && userId in world.users
    requires device.Some? ==> device.value !in world.devices
    ensures var user := world.users[userId];
            var restricted := !user.isAdmin && !SomeUnscoped(TeamsWithPermission(user.teams, permission));
            && (Authorized(world, permission, Some(userId), device, requireDevice, None) == None <==>
                EvaluatePermission(permission, user, None) && (restricted ==> device.None? && !requireDevice))
            && (device.Some? ==>
                  (RequireDevicePermission(world, permission, device.value, userId) == None <==>
                   EvaluatePermission(permission, user, None) && !restricted))
  {
    var user := world.users[userId];
    EvaluateMeansAccess(permission, user, map[]);
    assert user.teams == [] ==> TeamsWithPermission(user.teams, permission) == [];
  }

  /** A patch is accepted exactly when the device is in scope before and after it. */
  lemma PatchAcceptedIff(world: World, permission: string, userId: string, device: string, patch: Data)
    requires userId != "" && userId in world.users && device in world.devices
    ensures var user, meta := world.users[userId], world.devices[device];
            Authorized(world, permission, Some(userId), Some(device), false, Some(patch)) == None <==>
            MayAccess(permission, user, meta) && MayAccess(permission, user, PatchData(meta, patch))
  {
    var user, meta := world.users[userId], world.devices[device];
    EvaluateMeansAccess(permission, user, meta);
    EvaluateMeansAccess(permission, user, PatchData(meta, patch));
    assert user.teams == [] ==> TeamsWithPermission(user.teams, permission) == [];
  }

  // ----- runs of metadata patches -----

  datatype PatchRequest = PatchRequest(userId: string, patch: Data)

  /** The route's permission, one device, and the device's effective schema. */
  datatype Patching = Patching(permission: string, device: string, fields: Fields, accepts: (FieldDef, Value) -> bool)

  /** The check of a request passes. */
  predicate Passes(world: World, c: Patching, r: PatchRequest) {
    Authorized(world, c.permission, Some(r.userId), Some(c.device), false, Some(r.patch)) == None
  }

  /** The validated update. */
  function Updated(world: World, c: Patching, patch: Data): World {
    if c.device !in world.devices then world
    else
      var merged := PatchData(world.devices[c.device], patch);
      if !ValidData(merged, c.fields, c.accepts) then world
      else world.(devices := world.devices[c.device := merged])
  }

  /** One request that nothing comes between: the check, then the update. */
  function PatchStep(world: World, c: Patching, r: PatchRequest): World {
    if Passes(world, c, r) then Updated(world, c, r.patch) else world
  }

  function PatchRun(world: World, c: Patching, requests: seq<PatchRequest>): World {
    if requests == [] then world
    else PatchStep(PatchRun(world, c, requests[..|requests| - 1]), c, requests[|requests| - 1])
  }

  predicate InScope(world: World, c: Patching, userId: string) {
    && userId in world.users && c.device in world.devices
    && MayAccess(c.permission, world.users[userId], world.devices[c.device])
  }

  /** No sequence of patches by one user takes a device out of that user's scope. */
  lemma {:induction false} PatchesStayInScope(world: World, c: Patching, requests: seq<PatchRequest>, userId: string)
    requires InScope(world, c, userId)
    requires forall r :: r in requests ==> r.userId == userId
    ensures InScope(PatchRun(world, c, requests), c, userId)
  {
    if requests != [] {
      var front, r := requests[..|requests| - 1], requests[|requests| - 1];
      PatchesStayInScope(world, c, front, userId);
      if userId != "" {
        PatchAcceptedIff(PatchRun(world, c, front), c.permission, userId, c.device, r.patch);
      }
    }
  }

  /** The index of the last request of a run that changed something. */
  function LastChange(world: World, c: Patching, requests: seq<PatchRequest>): (last: Option<nat>)
    ensures last.Some? ==> last.value < |requests|
  {
    if requests == [] then None
    else
      var front := requests[..|requests| - 1];
      if PatchRun(world, c, requests) != PatchRun(world, c, front) then Some(|requests| - 1)
      else LastChange(world, c, front)
  }

  lemma StepLeavesInScope(world: World, c: Patching, r: PatchRequest)
    requires c.device in world.devices && PatchStep(world, c, r) != world
    ensures InScope(PatchStep(world, c, r), c, r.userId)
    ensures ValidData(PatchStep(world, c, r).devices[c.device], c.fields, c.accepts)
  {
    PatchAcceptedIff(world, c.permission, r.userId, c.device, r.patch);
  }

  /** After a run of patches by anyone, the device is valid and in the scope of whoever changed it
      last; if nobody did, nothing has changed. */
  lemma {:induction false} LastPatcherHasAccess(world: World, c: Patching, requests: seq<PatchRequest>)
    requires c.device in world.devices
    ensures var after := PatchRun(world, c, requests);
            c.device in after.devices &&
            match LastChange(world, c, requests)
            case None => after == world
            case Some(i) =>
              InScope(after, c, requests[i].userId) && ValidData(after.devices[c.device], c.fields, c.accepts)
  {
    if requests != [] {
      var front, r := requests[..|requests| - 1], requests[|requests| - 1];
      LastPatcherHasAccess(world, c, front);
      if PatchRun(world, c, requests) != PatchRun(world, c, front) {
        StepLeavesInScope(PatchRun(world, c, front), c, r);
      }
    }
  }

  // ----- interleaved patches: the check reads the metadata, the update reads it again -----

  datatype PatchEvent = CheckPatch(r: PatchRequest) | UpdateDevice(i: nat)

  /** `pending` are the requests whose check has passed and whose update has not happened. */
  datatype PatchState = PatchState(world: World, pending: seq<PatchRequest>)

  function NextPatch(s: PatchState, c: Patching, e: PatchEvent): PatchState {
    match e
    case CheckPatch(r) => if Passes(s.world, c, r) then s.(pending := s.pending + [r]) else s
    case UpdateDevice(i) =>
      if i >= |s.pending| then s
      else PatchState(Updated(s.world, c, s.pending[i].patch), s.pending[..i] + s.pending[i + 1..])
  }

  function PatchEvents(s: PatchState, c: Patching, events: seq<PatchEvent>): PatchState {
    if events == [] then s
    else NextPatch(PatchEvents(s, c, events[..|events| - 1]), c, events[|events| - 1])
  }

  /** An update changes nothing, or its check would pass again at this moment. */
  predicate Timely(s: PatchState, c: Patching, e: PatchEvent) {
    e.UpdateDevice? && e.i < |s.pending| ==>
      Updated(s.world, c, s.pending[e.i].patch) == s.world || Passes(s.world, c, s.pending[e.i])
  }

  predicate AllTimely(s: PatchState, c: Patching, events: seq<PatchEvent>) {
    events == [] ||
    var front := events[..|events| - 1];
    AllTimely(s, c, front) && Timely(PatchEvents(s, c, front), c, events[|events| - 1])
  }

  predicate AlwaysInScope(s: PatchState, c: Patching, userId: string, events: seq<PatchEvent>) {
    && InScope(PatchEvents(s, c, events).world, c, userId)
    && (events == [] || AlwaysInScope(s, c, userId, events[..|events| - 1]))
  }

  /** A request whose update follows its check at once is the single step. */
  lemma UndisturbedIsPatchStep(s: PatchState, c: Patching, r: PatchRequest)
    ensures NextPatch(NextPatch(s, c, CheckPatch(r)), c, UpdateDevice(|s.pending|)) ==
            s.(world := PatchStep(s.world, c, r))
  {
    if Passes(s.world, c, r) {
      assert (s.pending + [r])[..|s.pending|] == s.pending;
    }
  }

  /** The check depends on the users and this device's metadata only. */
  lemma UnchangedIsTimely(earlier: World, now: World, c: Patching, r: PatchRequest)
    requires Passes(earlier, c, r)
    requires now.users == earlier.users && Find(now.devices, c.device) == Find(earlier.devices, c.device)
    ensures Passes(now, c, r)
  {
  }

  /** An update of a device in its user's scope keeps it there exactly when it is timely. */
  lemma UpdateKeepsScopeIff(world: World, c: Patching, r: PatchRequest)
    requires r.userId != "" && InScope(world, c, r.userId)
    ensures InScope(Updated(world, c, r.patch), c, r.userId) <==>
            Updated(world, c, r.patch) == world || Passes(world, c, r)
  {
    PatchAcceptedIff(world, c.permission, r.userId, c.device, r.patch);
  }

  lemma {:induction false} PendingIsOwn(s: PatchState, c: Patching, userId: string, events: seq<PatchEvent>)
    requires s.pending == []
    requires forall e :: e in events && e.CheckPatch? ==> e.r.userId == userId
    ensures forall r :: r in PatchEvents(s, c, events).pending ==> r.userId == userId && userId != ""
  {
    if events != [] {
      var front := events[..|events| - 1];
      assert events[|events| - 1] in events;
      PendingIsOwn(s, c, userId, front);
    }
  }

  /** Patches of one user, checked and updated in any interleaving, keep the device in that user's scope
      throughout exactly when every update is timely. */
  lemma {:induction false} InterleavedStayInScopeIff(s: PatchState, c: Patching, userId: string, events: seq<PatchEvent>)
    requires s.pending == [] && InScope(s.world, c, userId)
    requires forall e :: e in events && e.CheckPatch? ==> e.r.userId == userId
    ensures AlwaysInScope(s, c, userId, events) <==> AllTimely(s, c, events)
  {
    if events != [] {
      var front, e := events[..|events| - 1], events[|events| - 1];
      InterleavedStayInScopeIff(s, c, userId, front);
      PendingIsOwn(s, c, userId, front);
      var before := PatchEvents(s, c, front);
      if AllTimely(s, c, front) && e.UpdateDevice? && e.i < |before.pending| {
        UpdateKeepsScopeIff(before.world, c, before.pending[e.i]);
      }
    }
  }

  // ----- two interleaved patches that leave the scope together -----

  const BOTH_X: Data := map["a" := Str("x"), "b" := Str("x")]
  const BOTH_Y: Data := map["a" := Str("y"), "b" := Str("y")]
  const FIRST := PatchRequest("u", map["a" := Str("y")])
  const SECOND := PatchRequest("u", map["b" := Str("y")])
  const RACE := [CheckPatch(FIRST), CheckPatch(SECOND), UpdateDevice(0), UpdateDevice(0)]

  function RaceUser(): User {
    User(false, [Team(Some(Scope(map["a" := One(Str("x")), "b" := One(Str("x"))], Any)), [{"edit"}])])
  }

  function RaceWorld(): World {
    World(map["u" := RaceUser()], map["d" := BOTH_X])
  }

  function RaceDevice(): Patching {
    Patching("edit", "d", map[], (f, v) => true)
  }

  lemma RaceAccess(meta: Data)
    ensures MayAccess("edit", RaceUser(), meta) <==> Lookup(meta, "a") == Str("x") || Lookup(meta, "b") == Str("x")
  {
    var t := RaceUser().teams[0];
    var attr := t.scope.value.attr;
    assert attr["a"] == attr["b"] == One(Str("x"));
    assert {"edit"} in t.roles && Grants(t, "edit");
    assert MatchesScope(t.scope.value, meta) <==> KeyMatches("a", attr["a"], meta) || KeyMatches("b", attr["b"], meta);
  }

  lemma EventsOneMore(s: PatchState, c: Patching, events: seq<PatchEvent>, e: PatchEvent)
    ensures PatchEvents(s, c, events + [e]) == NextPatch(PatchEvents(s, c, events), c, e)
  {
    assert (events + [e])[..|events|] == events;
  }

  /** Two checks that pass, then the two updates. */
  lemma RaceEvents(world: World, c: Patching)
    requires Passes(world, c, FIRST) && Passes(world, c, SECOND)
    ensures PatchEvents(PatchState(world, []), c, RACE) ==
            PatchState(Updated(Updated(world, c, FIRST.patch), c, SECOND.patch), [])
  {
    var s, update := PatchState(world, []), UpdateDevice(0);
    var checks := [CheckPatch(FIRST)] + [CheckPatch(SECOND)];
    BothChecks(world, c);
    EventsTwoMore(s, c, checks, update, update);
    assert checks + [update] + [update] == RACE;
    BothUpdates(world, c);
  }

  lemma EventsTwoMore(s: PatchState, c: Patching, events: seq<PatchEvent>, e: PatchEvent, f: PatchEvent)
    ensures PatchEvents(s, c, events + [e] + [f]) == NextPatch(NextPatch(PatchEvents(s, c, events), c, e), c, f)
  {
    EventsOneMore(s, c, events, e);
    EventsOneMore(s, c, events + [e], f);
  }

  lemma BothChecks(world: World, c: Patching)
    requires Passes(world, c, FIRST) && Passes(world, c, SECOND)
    ensures PatchEvents(PatchState(world, []), c, [CheckPatch(FIRST)] + [CheckPatch(SECOND)]) ==
            PatchState(world, [FIRST, SECOND])
  {
    var s, first := PatchState(world, []), [CheckPatch(FIRST)];
    EventsOneMore(s, c, [], CheckPatch(FIRST));
    assert [] + first == first && [] + [FIRST] == [FIRST];
    EventsOneMore(s, c, first, CheckPatch(SECOND));
  }

  lemma BothUpdates(world: World, c: Patching)
    ensures NextPatch(NextPatch(PatchState(world, [FIRST, SECOND]), c, UpdateDevice(0)), c, UpdateDevice(0)) ==
            PatchState(Updated(Updated(world, c, FIRST.patch), c, SECOND.patch), [])
  {
    assert [FIRST, SECOND][..0] + [FIRST, SECOND][1..] == [SECOND];
  }

  lemma RacePasses()
    ensures Passes(RaceWorld(), RaceDevice(), FIRST) && Passes(RaceWorld(), RaceDevice(), SECOND)
    ensures InScope(RaceWorld(), RaceDevice(), "u")
  {
    var w := RaceWorld();
    assert Lookup(PatchData(BOTH_X, FIRST.patch), "b") == Str("x");
    assert Lookup(PatchData(BOTH_X, SECOND.patch), "a") == Str("x");
    RaceAccess(BOTH_X);
    RaceAccess(PatchData(BOTH_X, FIRST.patch));
    RaceAccess(PatchData(BOTH_X, SECOND.patch));
    PatchAcceptedIff(w, "edit", "u", "d", FIRST.patch);
    PatchAcceptedIff(w, "edit", "u", "d", SECOND.patch);
  }

  lemma RaceUpdates()
    ensures Updated(Updated(RaceWorld(), RaceDevice(), FIRST.patch), RaceDevice(), SECOND.patch).devices == map["d" := BOTH_Y]
    ensures Updated(Updated(RaceWorld(), RaceDevice(), FIRST.patch), RaceDevice(), SECOND.patch).users == RaceWorld().users
  {
    var once := map["a" := Str("y"), "b" := Str("x")];
    assert PatchData(BOTH_X, FIRST.patch) == once && PatchData(once, SECOND.patch) == BOTH_Y;
  }

  /** Each patch alone passes, and so would leave the device in scope; checked before either updates, the
      two take it out. */
  lemma InterleavedPatchesLeaveScope()
    ensures var s, c := PatchState(RaceWorld(), []), RaceDevice();
            && InScope(s.world, c, "u") && Passes(s.world, c, FIRST) && Passes(s.world, c, SECOND)
            && PatchEvents(s, c, RACE).world.devices == map["d" := BOTH_Y]
            && !InScope(PatchEvents(s, c, RACE).world, c, "u")
  {
    RacePasses();
    RaceEvents(RaceWorld(), RaceDevice());
    RaceUpdates();
    RaceAccess(BOTH_Y);
  }
}
