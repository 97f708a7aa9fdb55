/** The lifecycle of extensions in one process: database transactions, network waits, route builds and
    publications interleave freely, except that each extension has a lock. Registering takes no lock. */
module ExtensionLifecycle {
  import opened Wrappers
  import opened Extensions
  import opened LiveRoutes

  /** What the holder of an extension's lock has done so far. After the commit of a replace, an enable or
      a disable the handler reads the stored details back, which may fail, before it touches the live
      routes. `existed`, `changed` and `hadRoutes` are history: whether the extension was registered when
      its routes were built, whether the request changed the enabled flag, and whether there were routes
      before a replace. */
  datatype Phase =
    | ReplaceChecked(m: Manifest, oldActions: set<string>, wasEnabled: bool)
    | ReplaceCommitted(hadRoutes: bool)
    | Remounting
    | Disabling
    | Refreshed
    | Enabling(built: Tables, existed: bool)
    | EnableCommitted(built: Tables, existed: bool, changed: bool)
    | Publishing(built: Tables, existed: bool)
    | DisableCommitted(changed: bool)
    | Unmounting

  /** `handlers` are the validating handlers ever published by this process: a request may still be
      running one that has been unmounted. `phases` holds the locks taken, `allowed` the base URLs this
      process accepts for HTTP upstreams. */
  datatype Sys = Sys(
    db: Db, tables: Tables, cache: Cache, handlers: set<(nat, Schema)>, phases: map<string, Phase>, allowed: set<string>)

  function IsEnabled(db: Db, name: string): bool {
    name in db.extensions && db.extensions[name].enabled
  }

  function UpstreamKeys(db: Db, name: string): set<string> {
    if name in db.extensions then db.extensions[name].upstreams.Keys else {}
  }

  ghost function BuildPersisted(db: Db, name: string, listing: seq<nat>, broken: set<nat>): Option<Tables>
    requires IsListing(db, name, listing)
  {
    Build(db, UpstreamKeys(db, name), listing, broken)
  }

  function HandlersIn(routes: seq<Live>): set<(nat, Schema)> {
    set r | r in routes && r.Mounted? && r.declared.Some? :: (r.id, r.declared.value)
  }

  function HandlersOf(t: Tables): set<(nat, Schema)> {
    HandlersIn(t.public) + HandlersIn(t.internal) + HandlersIn(t.device)
  }

  function PublishIn(s: Sys, name: string, built: Tables): Sys {
    s.(tables := Publish(s.tables, name, built), cache := s.cache - AllIds(s.tables, name),
       handlers := s.handlers + HandlersOf(built))
  }

  function Lock(s: Sys, name: string, phase: Phase): Sys {
    s.(phases := s.phases[name := phase])
  }

  function Release(s: Sys, name: string): Sys {
    s.(phases := s.phases - {name})
  }

  // ----- steps -----

  datatype Step =
    | RegisterStep(m: Manifest, fetched: seq<Option<Schema>>, otherRules: bool)
    | ReplaceCheckStep(name: string, m: Manifest, otherRules: bool)
    | ReplaceCommitStep(name: string, fetched: seq<Option<Schema>>)
    | RemountStep(name: string, listing: seq<nat>, broken: set<nat>)
    | FinishDisableStep(name: string)
    | EnableRefreshStep(name: string, refetched: map<nat, Schema>)
    | EnableBuildStep(name: string, listing: seq<nat>, broken: set<nat>)
    | EnableCommitStep(name: string)
    | EnablePublishStep(name: string)
    | DetailStep(name: string)
    | DeregisterStep(name: string)
    | DisableStep(name: string)
    | UnmountStep(name: string)
    | GiveUpStep(name: string)
    | GrantStep(role: int, actions: set<string>)
    | RevokeStep(role: int, action: string)
    | DeleteRoleStep(role: int)
    | RequestStep(id: nat, schema: Schema)
    | RestartStep(start: Start)

  /** What a restart of the process depends on: whether and with what answers schemas are refetched, in
      which order and with which listings extensions are loaded, which routes cannot be built, and the
      base URLs the new process accepts. */
  datatype Start = Start(
    refreshed: bool, refetched: map<nat, Schema>, order: seq<string>, listings: map<string, seq<nat>>, broken: set<nat>,
    allowed: set<string>)

  /** One step; a step that is refused, or that this state does not allow, changes nothing but may give
      a lock back. */
  ghost function Next(s: Sys, step: Step): Sys {
    match step
    case RegisterStep(m, fetched, otherRules) => NextRegister(s, m, fetched, otherRules)
    case ReplaceCheckStep(name, m, otherRules) => NextReplaceCheck(s, name, m, otherRules)
    case ReplaceCommitStep(name, fetched) => NextReplaceCommit(s, name, fetched)
    case RemountStep(name, listing, broken) => NextRemount(s, name, listing, broken)
    case FinishDisableStep(name) => NextFinishDisable(s, name)
    case EnableRefreshStep(name, refetched) => NextEnableRefresh(s, name, refetched)
    case EnableBuildStep(name, listing, broken) => NextEnableBuild(s, name, listing, broken)
    case EnableCommitStep(name) => NextEnableCommit(s, name)
    case EnablePublishStep(name) => NextEnablePublish(s, name)
    case DetailStep(name) => NextDetail(s, name)
    case DeregisterStep(name) => NextDeregister(s, name)
    case DisableStep(name) => NextDisable(s, name)
    case UnmountStep(name) => NextUnmount(s, name)
    case GiveUpStep(name) => NextGiveUp(s, name)
    case GrantStep(role, actions) => s.(db := Grant(s.db, role, actions))
    case RevokeStep(role, action) => s.(db := Revoke(s.db, role, action))
    case DeleteRoleStep(role) => s.(db := DeleteRole(s.db, role))
    case RequestStep(id, schema) => NextRequest(s, id, schema)
    case RestartStep(start) => NextRestart(s, start)
  }

  function NextRegister(s: Sys, m: Manifest, fetched: seq<Option<Schema>>, otherRules: bool): Sys {
    if !ManifestOk(m, otherRules) || !UrlsAllowed(m.upstreams, s.allowed) || |fetched| != |m.routes| then s
    else
      match Register(s.db, m, fetched)
      case None => s
      case Some(db) => s.(db := db)
  }

  function NextReplaceCheck(s: Sys, name: string, m: Manifest, otherRules: bool): Sys {
    if name in s.phases || !ReplaceCheck(s.db, name, m, otherRules) || !UrlsAllowed(m.upstreams, s.allowed) then s
    else Lock(s, name, ReplaceChecked(m, OwnedActions(s.db, name), IsEnabled(s.db, name)))
  }

  function NextReplaceCommit(s: Sys, name: string, fetched: seq<Option<Schema>>): Sys {
    if name !in s.phases || !s.phases[name].ReplaceChecked? || |fetched| != |s.phases[name].m.routes| then s
    else
      var p := s.phases[name];
      match Replace(s.db, p.m, fetched, p.oldActions, p.wasEnabled)
      case None => Release(s, name)
      case Some(db) => Lock(s.(db := db), name, ReplaceCommitted(HasRoutes(s.db, name)))
  }

  ghost function NextRemount(s: Sys, name: string, listing: seq<nat>, broken: set<nat>): Sys {
    if name !in s.phases || !s.phases[name].Remounting? || !IsListing(s.db, name, listing) then s
    else
      match BuildPersisted(s.db, name, listing, broken)
      case None => Lock(PublishIn(s, name, NOTHING), name, Disabling)
      case Some(built) => Release(PublishIn(s, name, built), name)
  }

  function NextFinishDisable(s: Sys, name: string): Sys {
    if name !in s.phases || !s.phases[name].Disabling? then s
    else
      match Disable(s.db, name)
      case None => Release(s, name)
      case Some(db) => Release(s.(db := db), name)
  }

  function NextEnableRefresh(s: Sys, name: string, refetched: map<nat, Schema>): Sys {
    if name in s.phases then s else Lock(s.(db := Refresh(s.db, {name}, refetched)), name, Refreshed)
  }

  ghost function NextEnableBuild(s: Sys, name: string, listing: seq<nat>, broken: set<nat>): Sys {
    if name !in s.phases || !s.phases[name].Refreshed? || !IsListing(s.db, name, listing) then s
    else
      match BuildPersisted(s.db, name, listing, broken)
      case None => Release(s, name)
      case Some(built) => Lock(s, name, Enabling(built, name in s.db.extensions))
  }

  function NextEnableCommit(s: Sys, name: string): Sys {
    if name !in s.phases || !s.phases[name].Enabling? then s
    else
      match Enable(s.db, name)
      case None => Release(s, name)
      case Some(db) => Lock(s.(db := db), name, EnableCommitted(s.phases[name].built, s.phases[name].existed, !IsEnabled(s.db, name)))
  }

  function NextEnablePublish(s: Sys, name: string): Sys {
    if name !in s.phases || !s.phases[name].Publishing? then s
    else Release(PublishIn(s, name, s.phases[name].built), name)
  }

  function HasRoutes(db: Db, name: string): bool {
    exists id | id in db.routes :: db.routes[id].owner == name
  }

  /** The stored rows of an extension pass the response models again: every HTTP upstream is one this
      process allows, and every stored body is an object. */
  predicate DetailOk(db: Db, allowed: set<string>, name: string) {
    && name in db.extensions && UrlsAllowed(db.extensions[name].upstreams, allowed)
    && forall id | id in db.routes && db.routes[id].owner == name && db.routes[id].body.Some? :: db.routes[id].body.value.Object?
  }

  /** Reading the details back after a commit; a failure ends the request there, with the lock free. */
  function NextDetail(s: Sys, name: string): Sys {
    if name !in s.phases then s
    else
      match s.phases[name]
      case ReplaceCommitted(_) =>
        if DetailOk(s.db, s.allowed, name) && IsEnabled(s.db, name) then Lock(s, name, Remounting) else Release(s, name)
      case EnableCommitted(built, existed, _) =>
        if DetailOk(s.db, s.allowed, name) then Lock(s, name, Publishing(built, existed)) else Release(s, name)
      case DisableCommitted(_) =>
        if DetailOk(s.db, s.allowed, name) then Lock(s, name, Unmounting) else Release(s, name)
      case _ => s
  }

  function NextDeregister(s: Sys, name: string): Sys {
    if name in s.phases then s
    else
      match Deregister(s.db, name)
      case None => s
      case Some(db) => Lock(s.(db := db), name, Unmounting)
  }

  function NextDisable(s: Sys, name: string): Sys {
    if name in s.phases then s
    else
      match Disable(s.db, name)
      case None => s
      case Some(db) => Lock(s.(db := db), name, DisableCommitted(IsEnabled(s.db, name)))
  }

  function NextUnmount(s: Sys, name: string): Sys {
    if name !in s.phases || !s.phases[name].Unmounting? then s
    else Release(PublishIn(s, name, NOTHING), name)
  }

  /** A replace or enable request fails before its commit. */
  function NextGiveUp(s: Sys, name: string): Sys {
    if name in s.phases && (s.phases[name].ReplaceChecked? || s.phases[name].Refreshed? || s.phases[name].Enabling?)
    then Release(s, name)
    else s
  }

  /** A request reaches the validation in a handler published earlier, mounted or not. */
  function NextRequest(s: Sys, id: nat, schema: Schema): Sys {
    if (id, schema) in s.handlers then s.(cache := Cached(s.cache, id, schema)) else s
  }

  // ----- process restart -----

  function CoreOnly(routes: seq<Live>): seq<Live> {
    if routes == [] then []
    else CoreOnly(routes[..|routes| - 1]) + if routes[|routes| - 1].Core? then [routes[|routes| - 1]] else []
  }

  function CoreTables(t: Tables): Tables {
    Tables(CoreOnly(t.public), CoreOnly(t.internal), CoreOnly(t.device))
  }

  ghost predicate Listed(db: Db, order: seq<string>, listings: map<string, seq<nat>>) {
    forall n <- order :: IsEnabled(db, n) && n in listings && IsListing(db, n, listings[n])
  }

  /** Mounts the enabled extensions one after another, skipping those that cannot be built. */
  ghost function LoadAll(db: Db, t: Tables, order: seq<string>, listings: map<string, seq<nat>>, broken: set<nat>): Tables
    requires Listed(db, order, listings)
  {
    if order == [] then t
    else
      var name := order[|order| - 1];
      var before := LoadAll(db, t, order[..|order| - 1], listings, broken);
      match BuildPersisted(db, name, listings[name], broken)
      case None => before
      case Some(built) => Publish(before, name, built)
  }

  /** The enabled extensions a startup leaves unmounted: not reached, or not built. */
  ghost function LeftOut(db: Db, order: seq<string>, listings: map<string, seq<nat>>, broken: set<nat>): set<string>
    requires Listed(db, order, listings)
  {
    set n | n in EnabledNames(db) && (n in order ==> BuildPersisted(db, n, listings[n], broken).None?)
  }

  function Restarted(db: Db, start: Start): Db {
    if start.refreshed then Refresh(db, EnabledNames(db), start.refetched) else db
  }

  ghost function NextRestart(s: Sys, start: Start): Sys {
    var db := Restarted(s.db, start);
    if !Listed(db, start.order, start.listings) then s
    else
      var tables := LoadAll(db, CoreTables(s.tables), start.order, start.listings, start.broken);
      Sys(db, tables, map[], HandlersOf(tables), map[], start.allowed)
  }

  // ----- what every reachable state keeps -----

  ghost predicate LiveExactly(db: Db, t: Tables, name: string) {
    forall v :: multiset(Of(t.At(v), name)) == multiset(Persisted(db, name, v))
  }

  ghost predicate Unmounted(t: Tables, name: string) {
    forall v :: Of(t.At(v), name) == []
  }

  ghost predicate BuiltOk(db: Db, name: string, built: Tables, existed: bool) {
    if existed then name in db.extensions && Exactly(db, name, built) else built == NOTHING
  }

  /** What a lock holder knows, whatever happened before it took the lock. */
  ghost predicate PhaseOk(s: Sys, name: string, phase: Phase) {
    match phase
    case ReplaceChecked(m, oldActions, wasEnabled) =>
      && name in s.db.extensions && m.name == name && ManifestOk(m, true) && UrlsAllowed(m.upstreams, s.allowed)
      && oldActions == OwnedActions(s.db, name) && wasEnabled == IsEnabled(s.db, name)
    case ReplaceCommitted(_) => name in s.db.extensions
    case Remounting => IsEnabled(s.db, name)
    case Disabling => name in s.db.extensions && Unmounted(s.tables, name)
    case Refreshed => true
    case Enabling(built, existed) => BuiltOk(s.db, name, built, existed)
    case EnableCommitted(built, existed, _) => IsEnabled(s.db, name) && BuiltOk(s.db, name, built, existed)
    case Publishing(built, existed) => IsEnabled(s.db, name) && BuiltOk(s.db, name, built, existed)
    case DisableCommitted(_) => name in s.db.extensions && !IsEnabled(s.db, name)
    case Unmounting => !IsEnabled(s.db, name)
  }

  ghost predicate NameOk(s: Sys, name: string) {
    name in s.phases ==> PhaseOk(s, name, s.phases[name])
  }

  predicate DeclaresAs(db: Db, h: (nat, Schema)) {
    h.0 < db.nextId
    && (h.0 in db.routes ==> db.routes[h.0].mode == Declared && db.routes[h.0].body == Some(h.1))
  }

  /** One schema for each id, the stored one while the route is stored; caches hold only those. */
  ghost predicate HandlersOk(s: Sys) {
    && HandlersOf(s.tables) <= s.handlers
    && (forall h :: h in s.handlers ==> DeclaresAs(s.db, h))
    && (forall h, k :: h in s.handlers && k in s.handlers && h.0 == k.0 ==> h == k)
    && (forall id :: id in s.cache ==> (id, s.cache[id]) in s.handlers)
  }

  ghost predicate Inv(s: Sys, platform: set<string>) {
    Sound(s.db, platform) && HandlersOk(s) && forall name :: NameOk(s, name)
  }

  // ----- the right live routes -----

  /** Mounted exactly when enabled: each persisted route once, in the app of its visibility. */
  ghost predicate Right(s: Sys, name: string) {
    if IsEnabled(s.db, name) then LiveExactly(s.db, s.tables, name) else Unmounted(s.tables, name)
  }

  /** Only routes that a replace has dropped are live. */
  ghost predicate Stale(s: Sys, name: string) {
    forall v, r :: r in Of(s.tables.At(v), name) ==> r.Mounted? && r.id < s.db.nextId && r.id !in s.db.routes
  }

  /** Right, or on the way there under the lock. */
  ghost predicate OnTrack(s: Sys, name: string) {
    if name !in s.phases then Right(s, name)
    else
      match s.phases[name]
      case ReplaceChecked(_, _, _) => Right(s, name)
      case ReplaceCommitted(hadRoutes) =>
        if IsEnabled(s.db, name) then Stale(s, name) && (hadRoutes <==> !Unmounted(s.tables, name)) else Unmounted(s.tables, name)
      case Refreshed => Right(s, name)
      case Enabling(_, _) => Right(s, name)
      case EnableCommitted(_, _, changed) =>
        if changed then Unmounted(s.tables, name) else LiveExactly(s.db, s.tables, name)
      case DisableCommitted(changed) =>
        if changed then LiveExactly(s.db, s.tables, name) else Unmounted(s.tables, name)
      case _ => true
  }

  /** Reading the details back fails after a commit that calls for a change of the live routes. */
  predicate DetailBreaks(s: Sys, name: string) {
    && name in s.phases && !DetailOk(s.db, s.allowed, name)
    && match s.phases[name]
       case ReplaceCommitted(hadRoutes) => IsEnabled(s.db, name) && (hadRoutes || HasRoutes(s.db, name))
       case EnableCommitted(_, _, changed) => changed && HasRoutes(s.db, name)
       case DisableCommitted(changed) => changed && HasRoutes(s.db, name)
       case _ => false
  }

  /** An enable request that had found no extension publishes its empty build for one that has routes. */
  predicate LateBreaks(s: Sys, name: string) {
    name in s.phases && s.phases[name].Publishing? && !s.phases[name].existed && HasRoutes(s.db, name)
  }

  /** A restart does not reach, or cannot build, an enabled extension that has routes. */
  ghost predicate StartBreaks(s: Sys, start: Start, name: string) {
    var db := Restarted(s.db, start);
    && Listed(db, start.order, start.listings) && HasRoutes(db, name)
    && name in LeftOut(db, start.order, start.listings, start.broken)
  }

  /** The steps after which an extension's live routes are wrong. */
  ghost predicate Breaks(s: Sys, step: Step, name: string) {
    match step
    case DetailStep(n) => n == name && DetailBreaks(s, name)
    case EnablePublishStep(n) => n == name && LateBreaks(s, name)
    case RestartStep(start) => StartBreaks(s, start, name)
    case _ => false
  }
}
