/** The stored state of the extension system, relation by relation, and the transactions on it. A
    transaction is a function that yields the new state, or None when it is refused or raises, in
    which case the enclosing block is rolled back and nothing changes. */
module Extensions {
  import opened Wrappers
  import opened ReplaceFilters

  /** A JSON value in the place of a body schema: an object, or anything else but null. */
  datatype Schema = Object(text: string) | Bare(text: string)

  datatype Visibility = Public | Internal | Device

  datatype Upstream = Http(baseUrl: string) | IotEdge

  datatype Mode = Declared | UpstreamDeclared | UnreachableRef | NoBody

  // ----- manifests -----

  datatype RouteSpec = RouteSpec(
    upstream: string, visibility: Visibility, requiredAction: Option<string>, scoped: bool,
    body: Option<Schema>, bodyRef: bool)

  datatype Contribution = Contribution(
    target: string, placement: string, when: Filter, requiredAction: Option<string>)

  datatype Ui = Ui(remoteName: string, contributions: seq<Contribution>)

  datatype Manifest = Manifest(
    name: string, upstreams: map<string, Upstream>, actions: seq<string>, routes: seq<RouteSpec>, ui: Option<Ui>)

  /** An optional action name that is there and not empty: the only ones the code looks at. */
  predicate Named(action: Option<string>) {
    action.Some? && action.value != ""
  }

  predicate RouteOk(upstreams: map<string, Upstream>, r: RouteSpec) {
    && r.upstream in upstreams
    && (r.visibility == Public && r.scoped ==> Named(r.requiredAction))
    && (r.visibility == Public && upstreams[r.upstream].IotEdge? ==> r.scoped)
    && (r.visibility == Device ==> upstreams[r.upstream].Http? && !r.scoped && !Named(r.requiredAction))
    && (r.bodyRef ==> upstreams[r.upstream].Http? && r.body.None?)
    && (r.body.Some? ==> r.body.value.Object?)
  }

  /** Every HTTP upstream has a base URL the deployment allows. */
  predicate UrlsAllowed(upstreams: map<string, Upstream>, allowed: set<string>) {
    forall k | k in upstreams && upstreams[k].Http? :: upstreams[k].baseUrl in allowed
  }

  /** The manifest-wide rules; `otherRules` stands for text formats and JSON Schema checks. */
  predicate ManifestOk(m: Manifest, otherRules: bool) {
    && otherRules
    && (forall i, j :: 0 <= i < j < |m.actions| ==> m.actions[i] != m.actions[j])
    && forall i :: 0 <= i < |m.routes| ==> RouteOk(m.upstreams, m.routes[i])
  }

  // ----- stored rows -----

  datatype ExtensionRow = ExtensionRow(enabled: bool, ui: Option<Ui>, upstreams: map<string, Upstream>)

  datatype RouteRow = RouteRow(
    owner: string, upstream: string, visibility: Visibility, requiredAction: Option<string>, scoped: bool,
    bodyRef: bool, mode: Mode, body: Option<Schema>)

  /** `owners` are the rows (action, extension), `grants` the rows (role, action); route ids are
      handed out once and never again. */
  datatype Db = Db(
    extensions: map<string, ExtensionRow>, routes: map<nat, RouteRow>, actions: set<string>,
    owners: set<(string, string)>, roles: set<int>, grants: set<(int, string)>, nextId: nat)

  predicate Owned(db: Db, action: string) {
    exists p | p in db.owners :: p.0 == action
  }

  predicate OwnedByOther(db: Db, action: string, current: Option<string>) {
    exists p | p in db.owners :: p.0 == action && current != Some(p.1)
  }

  function OwnedActions(db: Db, name: string): set<string> {
    set p | p in db.owners && p.1 == name :: p.0
  }

  predicate Granted(db: Db, action: string) {
    exists g | g in db.grants :: g.1 == action
  }

  predicate Referenced(db: Db, action: string) {
    exists id | id in db.routes :: db.routes[id].requiredAction == Some(action)
  }

  function ActionSet(m: Manifest): set<string> {
    set a | a in m.actions
  }

  // ----- checks before a write -----

  /** A manifest may claim its own or unknown actions, and its routes may require those or actions
      nobody owns. */
  predicate OwnershipOk(db: Db, m: Manifest, current: Option<string>) {
    && (forall a | a in m.actions ::
          !OwnedByOther(db, a, current) && (Owned(db, a) || a !in db.actions))
    && (forall i | 0 <= i < |m.routes| ::
          Named(m.routes[i].requiredAction) && m.routes[i].requiredAction.value !in m.actions ==>
            !Owned(db, m.routes[i].requiredAction.value) && m.routes[i].requiredAction.value in db.actions)
  }

  predicate RemoteNameTaken(db: Db, remoteName: string, current: Option<string>) {
    exists n | n in db.extensions ::
      current != Some(n) && db.extensions[n].ui.Some? && db.extensions[n].ui.value.remoteName == remoteName
  }

  predicate UiOk(db: Db, m: Manifest, current: Option<string>) {
    m.ui.None? || (
      && !RemoteNameTaken(db, m.ui.value.remoteName, current)
      && forall i | 0 <= i < |m.ui.value.contributions| ::
           var a := m.ui.value.contributions[i].requiredAction;
           Named(a) ==> a.value in m.actions || a.value in db.actions)
  }

  predicate IsReplacement(c: Contribution) {
    "replace:" <= c.placement
  }

  /** Two UI sections replace the same thing in overlapping contexts. */
  predicate Clash(mine: Ui, other: Ui) {
    exists i, j | 0 <= i < |mine.contributions| && 0 <= j < |other.contributions| ::
      Collide(mine.contributions[i], other.contributions[j])
  }

  predicate Collide(c: Contribution, d: Contribution) {
    IsReplacement(c) && d.target == c.target && d.placement == c.placement && WhenOverlaps(c.when, d.when)
  }

  /** Two contributions collide exactly when both replace the same slot of the same target and their
      filters overlap. */
  lemma CollideMeans(c: Contribution, d: Contribution)
    ensures Collide(c, d) <==>
            c.target == d.target && WhenOverlaps(c.when, d.when) &&
            exists slot :: c.placement == "replace:" + slot && d.placement == "replace:" + slot
  {
    if IsReplacement(c) {
      assert c.placement == "replace:" + c.placement[8..];
    }
  }

  /** An enabled extension already replaces something this UI section would replace. */
  predicate ReplaceConflict(db: Db, name: string, ui: Option<Ui>) {
    ui.Some? &&
    exists n | n in db.extensions ::
      n != name && db.extensions[n].enabled && db.extensions[n].ui.Some? && Clash(ui.value, db.extensions[n].ui.value)
  }

  /** A conflict, spelled out. */
  lemma ConflictMeans(db: Db, name: string, ui: Option<Ui>)
    ensures ReplaceConflict(db, name, ui) <==>
            exists n, c, d ::
              && ui.Some? && c in ui.value.contributions
              && n in db.extensions && n != name && db.extensions[n].enabled
              && db.extensions[n].ui.Some? && d in db.extensions[n].ui.value.contributions && Collide(c, d)
  {
    if ReplaceConflict(db, name, ui) {
      var n :| n in db.extensions && n != name && db.extensions[n].enabled && db.extensions[n].ui.Some?
               && Clash(ui.value, db.extensions[n].ui.value);
      var i, j :| 0 <= i < |ui.value.contributions| && 0 <= j < |db.extensions[n].ui.value.contributions|
                  && Collide(ui.value.contributions[i], db.extensions[n].ui.value.contributions[j]);
      assert ui.value.contributions[i] in ui.value.contributions;
      assert db.extensions[n].ui.value.contributions[j] in db.extensions[n].ui.value.contributions;
    }
    if n, c, d :| ui.Some? && c in ui.value.contributions && n in db.extensions && n != name && db.extensions[n].enabled
                  && db.extensions[n].ui.Some? && d in db.extensions[n].ui.value.contributions && Collide(c, d) {
      var i :| 0 <= i < |ui.value.contributions| && ui.value.contributions[i] == c;
      var j :| 0 <= j < |db.extensions[n].ui.value.contributions| && db.extensions[n].ui.value.contributions[j] == d;
      assert Clash(ui.value, db.extensions[n].ui.value);
    }
  }

  // ----- repository operations -----

  /** Records the manifest's actions; the unique constraint refuses an action that has an owner row. */
  function EnrollActions(db: Db, name: string, actions: seq<string>): Option<Db> {
    if exists a | a in actions :: Owned(db, a) then None
    else Some(db.(actions := db.actions + (set a | a in actions),
                  owners := db.owners + (set a | a in actions :: (a, name))))
  }

  /** The stored form of a route; `fetched` is the outcome of fetching its upstream's schema. */
  function RowOf(name: string, r: RouteSpec, fetched: Option<Schema>): RouteRow {
    var (mode, body) :=
      if r.body.Some? then (Declared, r.body)
      else if r.bodyRef then (if fetched.Some? then (UpstreamDeclared, fetched) else (UnreachableRef, None))
      else (NoBody, None);
    RouteRow(name, r.upstream, r.visibility, r.requiredAction, r.scoped, r.bodyRef, mode, body)
  }

  function RoutesWithout(db: Db, name: string): map<nat, RouteRow> {
    map id | id in db.routes && db.routes[id].owner != name :: db.routes[id]
  }

  function NewRow(m: Manifest, fetched: seq<Option<Schema>>, from: nat, id: nat): RouteRow
    requires |fetched| == |m.routes| && from <= id < from + |m.routes|
  {
    RowOf(m.name, m.routes[id - from], fetched[id - from])
  }

  function NewRoutes(m: Manifest, fetched: seq<Option<Schema>>, from: nat): map<nat, RouteRow>
    requires |fetched| == |m.routes|
  {
    map id: nat | from <= id < from + |m.routes| :: NewRow(m, fetched, from, id)
  }

  /** Drops the extension's routes and upstreams and inserts the manifest's; the foreign key refuses
      a required action that does not exist. */
  function ReplaceRoutes(db: Db, m: Manifest, fetched: seq<Option<Schema>>): Option<Db>
    requires |fetched| == |m.routes| && m.name in db.extensions
  {
    if exists i | 0 <= i < |m.routes| ::
         m.routes[i].requiredAction.Some? && m.routes[i].requiredAction.value !in db.actions then None
    else Some(db.(
      extensions := db.extensions[m.name := db.extensions[m.name].(upstreams := m.upstreams)],
      routes := RoutesWithout(db, m.name) + NewRoutes(m, fetched, db.nextId),
      nextId := db.nextId + |m.routes|))
  }

  function Orphans(db: Db, actions: set<string>): set<string> {
    set a | a in actions && a in db.actions && !Owned(db, a) && !Granted(db, a)
  }

  /** Deletes the actions nobody owns and no role holds; the foreign key refuses to delete one that a
      route still requires. */
  function DeleteOrphans(db: Db, actions: set<string>): Option<Db> {
    if exists a | a in Orphans(db, actions) :: Referenced(db, a) then None
    else Some(db.(actions := db.actions - Orphans(db, actions)))
  }

  function ClearOwned(db: Db, name: string): Db {
    db.(owners := set p | p in db.owners && p.1 != name)
  }

  /** Deletes the extension; its upstreams, routes and owner rows cascade. */
  function DeleteExtension(db: Db, name: string): Db {
    ClearOwned(db.(extensions := db.extensions - {name}, routes := RoutesWithout(db, name)), name)
  }

  function StripGrants(db: Db, actions: set<string>): Db {
    db.(grants := set g | g in db.grants && g.1 !in actions)
  }

  function SetUi(db: Db, name: string, ui: Option<Ui>): Db
    requires name in db.extensions
  {
    db.(extensions := db.extensions[name := db.extensions[name].(ui := ui)])
  }

  function SetEnabled(db: Db, name: string, enabled: bool): Db
    requires name in db.extensions
  {
    db.(extensions := db.extensions[name := db.extensions[name].(enabled := enabled)])
  }

  // ----- transactions -----

  function Register(db: Db, m: Manifest, fetched: seq<Option<Schema>>): Option<Db>
    requires |fetched| == |m.routes|
  {
    if m.name in db.extensions || !OwnershipOk(db, m, None) || !UiOk(db, m, None) then None
    else
      var created := db.(extensions := db.extensions[m.name := ExtensionRow(false, m.ui, map[])]);
      match EnrollActions(created, m.name, m.actions)
      case None => None
      case Some(enrolled) => ReplaceRoutes(enrolled, m, fetched)
  }

  /** The check before replace's network waits: no dropped action may be granted. */
  predicate ReplaceCheck(db: Db, name: string, m: Manifest, otherRules: bool) {
    && m.name == name && name in db.extensions && ManifestOk(m, otherRules)
    && forall a | a in OwnedActions(db, name) - ActionSet(m) :: !Granted(db, a)
  }

  /** Replace's transaction, with what the check before it had read. */
  function Replace(db: Db, m: Manifest, fetched: seq<Option<Schema>>, oldActions: set<string>, wasEnabled: bool): Option<Db>
    requires |fetched| == |m.routes|
  {
    if m.name !in db.extensions || !OwnershipOk(db, m, Some(m.name)) || !UiOk(db, m, Some(m.name))
       || (wasEnabled && ReplaceConflict(db, m.name, m.ui))
    then None
    else
      var cleared := ClearOwned(SetUi(db, m.name, m.ui), m.name);
      match EnrollActions(cleared, m.name, m.actions)
      case None => None
      case Some(enrolled) =>
        match ReplaceRoutes(enrolled, m, fetched)
        case None => None
        case Some(routed) => DeleteOrphans(routed, oldActions - ActionSet(m))
  }

  function Deregister(db: Db, name: string): Option<Db> {
    if name !in db.extensions then None
    else
      var actions := OwnedActions(db, name);
      DeleteOrphans(DeleteExtension(StripGrants(db, actions), name), actions)
  }

  function Enable(db: Db, name: string): Option<Db> {
    if name !in db.extensions || ReplaceConflict(db, name, db.extensions[name].ui) then None
    else Some(SetEnabled(db, name, true))
  }

  function Disable(db: Db, name: string): Option<Db> {
    if name !in db.extensions then None else Some(SetEnabled(db, name, false))
  }

  /** The routes whose schema is fetched from their upstream. */
  predicate IsRefRoute(db: Db, id: nat) {
    && id in db.routes && db.routes[id].bodyRef
    && db.routes[id].owner in db.extensions
    && db.routes[id].upstream in db.extensions[db.routes[id].owner].upstreams
    && db.extensions[db.routes[id].owner].upstreams[db.routes[id].upstream].Http?
  }

  /** Stores freshly fetched schemas for the referring routes of some extensions. */
  function Refresh(db: Db, names: set<string>, fetched: map<nat, Schema>): Db {
    db.(routes := map id | id in db.routes ::
      if IsRefRoute(db, id) && db.routes[id].owner in names then
        if id in fetched then db.routes[id].(mode := UpstreamDeclared, body := Some(fetched[id]))
        else db.routes[id].(mode := UnreachableRef, body := None)
      else db.routes[id])
  }

  function EnabledNames(db: Db): set<string> {
    set n | n in db.extensions && db.extensions[n].enabled
  }

  // ----- role administration -----

  /** Roles are given existing actions only. */
  function Grant(db: Db, role: int, actions: set<string>): Db {
    db.(roles := db.roles + {role}, grants := db.grants + (set a | a in actions && a in db.actions :: (role, a)))
  }

  function Revoke(db: Db, role: int, action: string): Db {
    db.(grants := db.grants - {(role, action)})
  }

  function DeleteRole(db: Db, role: int): Db {
    db.(roles := db.roles - {role}, grants := set g | g in db.grants && g.0 != role)
  }

  // ----- invariants of the stored state -----

  /** Each action has at most one owner, which exists; owned actions exist. */
  ghost predicate OwnersSound(db: Db) {
    && (forall p, q :: p in db.owners && q in db.owners && p.0 == q.0 ==> p == q)
    && (forall p :: p in db.owners ==> p.0 in db.actions && p.1 in db.extensions)
  }

  /** Platform actions exist and belong to no extension. */
  ghost predicate PlatformSafe(db: Db, platform: set<string>) {
    platform <= db.actions && forall p :: p in db.owners ==> p.0 !in platform
  }

  ghost predicate GrantsSound(db: Db) {
    forall g :: g in db.grants ==> g.0 in db.roles && g.1 in db.actions
  }

  /** A route belongs to an existing extension, goes to one of its upstreams, and requires an action
      that exists; a named one is unowned or owned by the route's own extension. Public scoped routes
      name their action, public routes to IoT Edge are scoped, device routes go to HTTP upstreams and
      require nothing. */
  ghost predicate RouteSound(db: Db, r: RouteRow) {
    && r.owner in db.extensions && r.upstream in db.extensions[r.owner].upstreams
    && (r.requiredAction.Some? ==> r.requiredAction.value in db.actions)
    && (Named(r.requiredAction) ==> !OwnedByOther(db, r.requiredAction.value, Some(r.owner)))
    && (r.mode == Declared ==> r.body.Some? && r.body.value.Object? && !r.bodyRef)
    && (r.body.Some? && !r.bodyRef ==> r.mode == Declared)
    && (r.bodyRef ==> db.extensions[r.owner].upstreams[r.upstream].Http?)
    && (r.visibility == Public && r.scoped ==> Named(r.requiredAction))
    && (r.visibility == Public && db.extensions[r.owner].upstreams[r.upstream].IotEdge? ==> r.scoped)
    && (r.visibility == Device ==>
          db.extensions[r.owner].upstreams[r.upstream].Http? && !r.scoped && !Named(r.requiredAction))
  }

  ghost predicate RoutesSound(db: Db) {
    forall id :: id in db.routes ==> id < db.nextId && RouteSound(db, db.routes[id])
  }

  predicate BothHaveUi(db: Db, a: string, b: string) {
    a in db.extensions && b in db.extensions && a != b && db.extensions[a].ui.Some? && db.extensions[b].ui.Some?
  }

  predicate BothActive(db: Db, a: string, b: string) {
    BothHaveUi(db, a, b) && db.extensions[a].enabled && db.extensions[b].enabled
  }

  /** No two distinct enabled extensions replace the same thing in overlapping contexts. */
  ghost predicate ReplacementsExclusive(db: Db) {
    forall a, b :: BothActive(db, a, b) ==>
      !Clash(db.extensions[a].ui.value, db.extensions[b].ui.value)
  }

  ghost predicate RemoteNamesUnique(db: Db) {
    forall a, b :: BothHaveUi(db, a, b) ==>
      db.extensions[a].ui.value.remoteName != db.extensions[b].ui.value.remoteName
  }

  ghost predicate Sound(db: Db, platform: set<string>) {
    && OwnersSound(db) && PlatformSafe(db, platform) && GrantsSound(db) && RoutesSound(db)
    && ReplacementsExclusive(db) && RemoteNamesUnique(db)
  }

  lemma ClashSymmetric(a: Ui, b: Ui)
    ensures Clash(a, b) <==> Clash(b, a)
  {
    if Clash(a, b) {
      ClashFlips(a, b);
    }
    if Clash(b, a) {
      ClashFlips(b, a);
    }
  }

  lemma ClashFlips(a: Ui, b: Ui)
    requires Clash(a, b)
    ensures Clash(b, a)
  {
    var i, j :| 0 <= i < |a.contributions| && 0 <= j < |b.contributions| && Collide(a.contributions[i], b.contributions[j]);
    OverlapIsSymmetric(a.contributions[i].when, b.contributions[j].when);
    assert Collide(b.contributions[j], a.contributions[i]);
  }
}
