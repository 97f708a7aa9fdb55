/** What every transaction on the extension tables keeps, and what deregistering and replacing leave
    behind. */
module ExtensionLaws {
  import opened Wrappers
  import opened ReplaceFilters
  import opened Extensions

  // ----- register -----

  lemma RegisterShape(db: Db, m: Manifest, fetched: seq<Option<Schema>>)
    requires |fetched| == |m.routes| && Register(db, m, fetched).Some?
    ensures var after := Register(db, m, fetched).value;
            && m.name !in db.extensions && OwnershipOk(db, m, None) && UiOk(db, m, None)
            && after.extensions == db.extensions[m.name := ExtensionRow(false, m.ui, m.upstreams)]
            && after.routes == RoutesWithout(db, m.name) + NewRoutes(m, fetched, db.nextId)
            && after.actions == db.actions + ActionSet(m)
            && after.owners == db.owners + (set a | a in m.actions :: (a, m.name))
            && after.roles == db.roles && after.grants == db.grants
            && after.nextId == db.nextId + |m.routes|
            && (forall a | a in m.actions :: !Owned(db, a))
            && (forall i | 0 <= i < |m.routes| ::
                  m.routes[i].requiredAction.Some? ==> m.routes[i].requiredAction.value in after.actions)
  {}

  /** Routes that were there, and the rows built from the manifest. */
  lemma NewRouteIs(m: Manifest, fetched: seq<Option<Schema>>, db: Db, after: map<nat, RouteRow>, id: nat)
    requires |fetched| == |m.routes|
    requires after == RoutesWithout(db, m.name) + NewRoutes(m, fetched, db.nextId) && id in after
    ensures if db.nextId <= id < db.nextId + |m.routes|
            then after[id] == RowOf(m.name, m.routes[id - db.nextId], fetched[id - db.nextId])
            else id in db.routes && db.routes[id].owner != m.name && after[id] == db.routes[id]
  {}

  lemma RegisterKeepsOwners(db: Db, m: Manifest, fetched: seq<Option<Schema>>, platform: set<string>)
    requires |fetched| == |m.routes| && Register(db, m, fetched).Some? && Sound(db, platform)
    ensures var after := Register(db, m, fetched).value;
            OwnersSound(after) && PlatformSafe(after, platform) && GrantsSound(after)
  {
    RegisterShape(db, m, fetched);
    EnrollKeepsOwners(db, Register(db, m, fetched).value, m, platform);
  }

  /** Adding owner rows for actions that had none. */
  lemma EnrollKeepsOwners(db: Db, after: Db, m: Manifest, platform: set<string>)
    requires OwnersSound(db) && PlatformSafe(db, platform)
    requires forall a | a in m.actions :: !Owned(db, a) && a !in db.actions
    requires after.actions == db.actions + ActionSet(m)
    requires after.owners == db.owners + (set a | a in m.actions :: (a, m.name))
    requires forall n :: n in db.extensions || n == m.name ==> n in after.extensions
    ensures OwnersSound(after) && PlatformSafe(after, platform)
  {
    forall p | p in after.owners
      ensures p.0 in after.actions && p.1 in after.extensions && p.0 !in platform
      ensures p in db.owners || (p.0 in m.actions && p.1 == m.name)
    {}
    assert forall p | p in db.owners :: Owned(db, p.0);
    forall p, q | p in after.owners && q in after.owners && p.0 == q.0
      ensures p == q
    {}
  }

  lemma RegisterKeepsRoutes(db: Db, m: Manifest, fetched: seq<Option<Schema>>, platform: set<string>)
    requires |fetched| == |m.routes| && Register(db, m, fetched).Some? && Sound(db, platform)
    requires ManifestOk(m, true)
    ensures RoutesSound(Register(db, m, fetched).value)
  {
    var after := Register(db, m, fetched).value;
    RegisterShape(db, m, fetched);
    forall id | id in after.routes
      ensures id < after.nextId && RouteSound(after, after.routes[id])
    {
      NewRouteIs(m, fetched, db, after.routes, id);
      if db.nextId <= id < db.nextId + |m.routes| {
        NewRouteSound(db, after, m, fetched, id - db.nextId, None);
      } else {
        OldRouteSound(db, after, m, db.routes[id]);
      }
    }
  }

  /** A route of the manifest just stored. */
  lemma NewRouteSound(db: Db, after: Db, m: Manifest, fetched: seq<Option<Schema>>, i: nat, current: Option<string>)
    requires i < |m.routes| == |fetched| && ManifestOk(m, true) && OwnershipOk(db, m, current)
    requires m.name in after.extensions && after.extensions[m.name].upstreams == m.upstreams
    requires m.routes[i].requiredAction.Some? ==> m.routes[i].requiredAction.value in after.actions
    requires forall p :: p in after.owners ==> p in db.owners || p.1 == m.name
    requires forall p :: p in after.owners && p.0 in m.actions ==> p.1 == m.name
    ensures RouteSound(after, RowOf(m.name, m.routes[i], fetched[i]))
  {
    var r := m.routes[i];
    assert RouteOk(m.upstreams, r);
    assert forall p | p in db.owners :: Owned(db, p.0);
  }

  /** A route of another extension after the manifest's actions were enrolled. */
  lemma OldRouteSound(db: Db, after: Db, m: Manifest, r: RouteRow)
    requires RouteSound(db, r) && r.owner != m.name
    requires r.owner in after.extensions && after.extensions[r.owner].upstreams == db.extensions[r.owner].upstreams
    requires r.requiredAction.Some? ==> r.requiredAction.value in after.actions
    requires forall a | a in m.actions :: (Owned(db, a) ==> OwnedByOther(db, a, Some(r.owner))) && (Owned(db, a) || a !in db.actions)
    requires forall p :: p in after.owners ==> p in db.owners || (p.0 in m.actions && p.1 == m.name)
    ensures RouteSound(after, r)
  {
    assert forall p | p in db.owners && p.1 != r.owner :: OwnedByOther(db, p.0, Some(r.owner));
  }

  lemma RegisterKeepsUi(db: Db, m: Manifest, fetched: seq<Option<Schema>>, platform: set<string>)
    requires |fetched| == |m.routes| && Register(db, m, fetched).Some? && Sound(db, platform)
    ensures var after := Register(db, m, fetched).value; ReplacementsExclusive(after) && RemoteNamesUnique(after)
  {
    RegisterShape(db, m, fetched);
    var after := Register(db, m, fetched).value;
    assert forall a, b :: BothActive(after, a, b) ==> BothActive(db, a, b);
    NamesStayUnique(db, after, m, None);
  }

  lemma NamesStayUnique(db: Db, after: Db, m: Manifest, current: Option<string>)
    requires RemoteNamesUnique(db) && UiOk(db, m, current)
    requires current == Some(m.name) || (current == None && m.name !in db.extensions)
    requires m.name in after.extensions && after.extensions[m.name].ui == m.ui
    requires forall n :: n in after.extensions && n != m.name ==> n in db.extensions && after.extensions[n].ui == db.extensions[n].ui
    ensures RemoteNamesUnique(after)
  {
    forall a, b | BothHaveUi(after, a, b)
      ensures after.extensions[a].ui.value.remoteName != after.extensions[b].ui.value.remoteName
    {
      if a != m.name && b != m.name {
        assert BothHaveUi(db, a, b);
      } else {
        var n := if a == m.name then b else a;
        assert n in db.extensions && current != Some(n);
        assert !RemoteNameTaken(db, m.ui.value.remoteName, current);
      }
    }
  }

  /** Registering keeps everything. */
  lemma RegisterKeepsSound(db: Db, m: Manifest, fetched: seq<Option<Schema>>, platform: set<string>)
    requires |fetched| == |m.routes| && Register(db, m, fetched).Some? && Sound(db, platform)
    requires ManifestOk(m, true)
    ensures Sound(Register(db, m, fetched).value, platform)
  {
    RegisterKeepsOwners(db, m, fetched, platform);
    RegisterKeepsRoutes(db, m, fetched, platform);
    RegisterKeepsUi(db, m, fetched, platform);
  }

  // ----- replace -----

  lemma ReplaceShape(db: Db, m: Manifest, fetched: seq<Option<Schema>>, oldActions: set<string>, wasEnabled: bool)
    requires |fetched| == |m.routes| && Replace(db, m, fetched, oldActions, wasEnabled).Some?
    ensures var after := Replace(db, m, fetched, oldActions, wasEnabled).value;
            && m.name in db.extensions && OwnershipOk(db, m, Some(m.name)) && UiOk(db, m, Some(m.name))
            && (wasEnabled ==> !ReplaceConflict(db, m.name, m.ui))
            && after.extensions == db.extensions[m.name := db.extensions[m.name].(ui := m.ui, upstreams := m.upstreams)]
            && after.routes == RoutesWithout(db, m.name) + NewRoutes(m, fetched, db.nextId)
            && after.owners == (set p | p in db.owners && p.1 != m.name) + (set a | a in m.actions :: (a, m.name))
            && after.roles == db.roles && after.grants == db.grants
            && after.nextId == db.nextId + |m.routes|
            && after.actions <= db.actions + ActionSet(m)
            && (forall a :: a in db.actions + ActionSet(m) && a !in after.actions ==>
                  a in oldActions && a !in m.actions && !Owned(after, a) && !Granted(after, a) && !Referenced(after, a))
            && (forall a | a in oldActions && a !in m.actions && a in after.actions :: Owned(after, a) || Granted(after, a))
            && (forall i | 0 <= i < |m.routes| ::
                  m.routes[i].requiredAction.Some? ==> m.routes[i].requiredAction.value in db.actions + ActionSet(m))
  {
    var cleared := ClearOwned(SetUi(db, m.name, m.ui), m.name);
    var enrolled := EnrollActions(cleared, m.name, m.actions).value;
    var routed := ReplaceRoutes(enrolled, m, fetched).value;
    var gone := Orphans(routed, oldActions - ActionSet(m));
    var after := Replace(db, m, fetched, oldActions, wasEnabled).value;
    assert after == routed.(actions := routed.actions - gone);
    assert forall a :: Owned(after, a) == Owned(routed, a) && Granted(after, a) == Granted(routed, a);
    assert forall a :: Referenced(after, a) == Referenced(routed, a);
  }

  lemma ReplaceKeepsOwners(db: Db, m: Manifest, fetched: seq<Option<Schema>>, wasEnabled: bool, platform: set<string>)
    requires |fetched| == |m.routes| && Sound(db, platform)
    requires Replace(db, m, fetched, OwnedActions(db, m.name), wasEnabled).Some?
    ensures var after := Replace(db, m, fetched, OwnedActions(db, m.name), wasEnabled).value;
            OwnersSound(after) && PlatformSafe(after, platform) && GrantsSound(after)
  {
    var after := Replace(db, m, fetched, OwnedActions(db, m.name), wasEnabled).value;
    ReplaceShape(db, m, fetched, OwnedActions(db, m.name), wasEnabled);
    forall p, q | p in after.owners && q in after.owners && p.0 == q.0
      ensures p == q
    {
      ReplacedOwner(db, after, m, p);
      ReplacedOwner(db, after, m, q);
    }
    forall p | p in after.owners
      ensures p.0 in after.actions && p.1 in after.extensions && p.0 !in platform
    {
      ReplacedOwner(db, after, m, p);
      assert Owned(after, p.0);
    }
    forall a | a in platform
      ensures a in after.actions
    {
      assert a !in OwnedActions(db, m.name);
    }
    forall g | g in after.grants
      ensures g.1 in after.actions
    {
      assert Granted(after, g.1);
    }
  }

  /** An owner row after a replace: untouched and for an action the manifest does not claim, or the
      extension's own. */
  lemma ReplacedOwner(db: Db, after: Db, m: Manifest, p: (string, string))
    requires OwnershipOk(db, m, Some(m.name)) && p in after.owners
    requires after.owners == (set q | q in db.owners && q.1 != m.name) + (set a | a in m.actions :: (a, m.name))
    ensures (p in db.owners && p.1 != m.name && p.0 !in m.actions) || (p.1 == m.name && p.0 in m.actions)
  {
    assert p in db.owners && p.1 != m.name ==> OwnedByOther(db, p.0, Some(m.name));
  }

  /** What a replace leaves of the catalog, as far as routes are concerned. */
  ghost predicate Replaced(db: Db, after: Db, m: Manifest, fetched: seq<Option<Schema>>)
    requires |fetched| == |m.routes|
  {
    && m.name in db.extensions && m.name in after.extensions && after.extensions[m.name].upstreams == m.upstreams
    && (forall n :: n in db.extensions && n != m.name ==> n in after.extensions && after.extensions[n] == db.extensions[n])
    && after.routes == RoutesWithout(db, m.name) + NewRoutes(m, fetched, db.nextId)
    && after.nextId == db.nextId + |m.routes|
    && (forall p :: p in after.owners ==> p in db.owners || (p.0 in m.actions && p.1 == m.name))
    && (forall p :: p in after.owners && p.0 in m.actions ==> p.1 == m.name)
    && (forall a :: a in db.actions + ActionSet(m) && a !in after.actions ==> !Referenced(after, a))
    && (forall i | 0 <= i < |m.routes| ::
          m.routes[i].requiredAction.Some? ==> m.routes[i].requiredAction.value in db.actions + ActionSet(m))
  }

  lemma ReplaceKeepsRoutes(db: Db, m: Manifest, fetched: seq<Option<Schema>>, wasEnabled: bool, platform: set<string>)
    requires |fetched| == |m.routes| && Sound(db, platform) && ManifestOk(m, true)
    requires Replace(db, m, fetched, OwnedActions(db, m.name), wasEnabled).Some?
    ensures RoutesSound(Replace(db, m, fetched, OwnedActions(db, m.name), wasEnabled).value)
  {
    var after := Replace(db, m, fetched, OwnedActions(db, m.name), wasEnabled).value;
    ReplaceShape(db, m, fetched, OwnedActions(db, m.name), wasEnabled);
    forall p | p in after.owners
      ensures p in db.owners || (p.0 in m.actions && p.1 == m.name)
      ensures p.0 in m.actions ==> p.1 == m.name
    {
      ReplacedOwner(db, after, m, p);
    }
    forall id | id in after.routes
      ensures id < after.nextId && RouteSound(after, after.routes[id])
    {
      ReplacedRouteSound(db, after, m, fetched, id);
    }
  }

  lemma ReplacedRouteSound(db: Db, after: Db, m: Manifest, fetched: seq<Option<Schema>>, id: nat)
    requires |fetched| == |m.routes| && RoutesSound(db) && ManifestOk(m, true) && OwnershipOk(db, m, Some(m.name))
    requires Replaced(db, after, m, fetched) && id in after.routes
    ensures id < after.nextId && RouteSound(after, after.routes[id])
  {
    NewRouteIs(m, fetched, db, after.routes, id);
    RequiredStays(db, after, m, id);
    if db.nextId <= id < db.nextId + |m.routes| {
      NewRouteSound(db, after, m, fetched, id - db.nextId, Some(m.name));
    } else {
      ClaimedElsewhere(db, m, db.routes[id].owner);
      OldRouteSound(db, after, m, db.routes[id]);
    }
  }

  /** No action a stored route requires was deleted. */
  lemma RequiredStays(db: Db, after: Db, m: Manifest, id: nat)
    requires id in after.routes
    requires forall a :: a in db.actions + ActionSet(m) && a !in after.actions ==> !Referenced(after, a)
    requires after.routes[id].requiredAction.Some? ==> after.routes[id].requiredAction.value in db.actions + ActionSet(m)
    ensures after.routes[id].requiredAction.Some? ==> after.routes[id].requiredAction.value in after.actions
  {
    if after.routes[id].requiredAction.Some? {
      assert Referenced(after, after.routes[id].requiredAction.value);
    }
  }

  /** The manifest's claimed actions belong to its extension, not to another one. */
  lemma ClaimedElsewhere(db: Db, m: Manifest, other: string)
    requires OwnershipOk(db, m, Some(m.name)) && other != m.name
    ensures forall a | a in m.actions ::
              (Owned(db, a) ==> OwnedByOther(db, a, Some(other))) && (Owned(db, a) || a !in db.actions)
  {
    forall a | a in m.actions && Owned(db, a)
      ensures OwnedByOther(db, a, Some(other))
    {
      var p :| p in db.owners && p.0 == a;
      assert !OwnedByOther(db, a, Some(m.name));
      assert p.1 == m.name;
    }
  }

  lemma ReplaceKeepsUi(db: Db, m: Manifest, fetched: seq<Option<Schema>>, platform: set<string>)
    requires |fetched| == |m.routes| && Sound(db, platform) && m.name in db.extensions
    requires Replace(db, m, fetched, OwnedActions(db, m.name), db.extensions[m.name].enabled).Some?
    ensures var after := Replace(db, m, fetched, OwnedActions(db, m.name), db.extensions[m.name].enabled).value;
            ReplacementsExclusive(after) && RemoteNamesUnique(after)
  {
    var after := Replace(db, m, fetched, OwnedActions(db, m.name), db.extensions[m.name].enabled).value;
    ReplaceShape(db, m, fetched, OwnedActions(db, m.name), db.extensions[m.name].enabled);
    NamesStayUnique(db, after, m, Some(m.name));
    NoConflictIsExclusive(db, after, m.name);
  }

  /** Changing or enabling one extension whose UI section conflicts with no enabled one. */
  lemma NoConflictIsExclusive(db: Db, after: Db, name: string)
    requires ReplacementsExclusive(db) && name in after.extensions
    requires after.extensions[name].enabled ==> !ReplaceConflict(db, name, after.extensions[name].ui)
    requires forall n :: n in after.extensions && n != name ==> n in db.extensions && after.extensions[n] == db.extensions[n]
    ensures ReplacementsExclusive(after)
  {
    forall a, b | BothActive(after, a, b)
      ensures !Clash(after.extensions[a].ui.value, after.extensions[b].ui.value)
    {
      ClashSymmetric(after.extensions[a].ui.value, after.extensions[b].ui.value);
      if a != name && b != name {
        assert BothActive(db, a, b);
      }
    }
  }

  /** Replacing keeps everything, whatever role grants happened since the check before it. */
  lemma ReplaceKeepsSound(db: Db, m: Manifest, fetched: seq<Option<Schema>>, platform: set<string>)
    requires |fetched| == |m.routes| && Sound(db, platform) && ManifestOk(m, true) && m.name in db.extensions
    requires Replace(db, m, fetched, OwnedActions(db, m.name), db.extensions[m.name].enabled).Some?
    ensures Sound(Replace(db, m, fetched, OwnedActions(db, m.name), db.extensions[m.name].enabled).value, platform)
  {
    ReplaceKeepsOwners(db, m, fetched, db.extensions[m.name].enabled, platform);
    ReplaceKeepsRoutes(db, m, fetched, db.extensions[m.name].enabled, platform);
    ReplaceKeepsUi(db, m, fetched, platform);
  }

  /** Replace revokes no grant; an action it drops while some role holds it stays in the catalog,
      owned by nobody. */
  lemma ReplaceRevokesNothing(db: Db, m: Manifest, fetched: seq<Option<Schema>>, platform: set<string>, a: string)
    requires |fetched| == |m.routes| && Sound(db, platform) && m.name in db.extensions
    requires Replace(db, m, fetched, OwnedActions(db, m.name), db.extensions[m.name].enabled).Some?
    ensures var after := Replace(db, m, fetched, OwnedActions(db, m.name), db.extensions[m.name].enabled).value;
            && after.grants == db.grants
            && (a in OwnedActions(db, m.name) && a !in m.actions ==>
                  !Owned(after, a) && (a in after.actions <==> Granted(db, a)))
  {
    var after := Replace(db, m, fetched, OwnedActions(db, m.name), db.extensions[m.name].enabled).value;
    ReplaceShape(db, m, fetched, OwnedActions(db, m.name), db.extensions[m.name].enabled);
    ReplaceKeepsOwners(db, m, fetched, db.extensions[m.name].enabled, platform);
    assert Granted(db, a) == Granted(after, a);
    forall p | p in after.owners && p.0 in OwnedActions(db, m.name)
      ensures p.0 in m.actions
    {
      ReplacedOwner(db, after, m, p);
      assert (p.0, m.name) in db.owners;
    }
  }

  // ----- deregister -----

  lemma DeregisterShape(db: Db, name: string)
    requires Deregister(db, name).Some?
    ensures var after, names := Deregister(db, name).value, OwnedActions(db, name);
            && name in db.extensions
            && after.extensions == db.extensions - {name}
            && after.routes == RoutesWithout(db, name)
            && after.owners == (set p | p in db.owners && p.1 != name)
            && after.roles == db.roles
            && after.grants == (set g | g in db.grants && g.1 !in names)
            && after.nextId == db.nextId && after.actions <= db.actions
            && (forall a :: a in db.actions && a !in after.actions ==>
                  a in names && !Owned(after, a) && !Granted(after, a) && !Referenced(after, a))
            && (forall a | a in names && a in after.actions :: Owned(after, a) || Granted(after, a))
  {
    var names := OwnedActions(db, name);
    var deleted := DeleteExtension(StripGrants(db, names), name);
    var after := Deregister(db, name).value;
    assert after == deleted.(actions := deleted.actions - Orphans(deleted, names));
    assert forall a :: Owned(after, a) == Owned(deleted, a) && Granted(after, a) == Granted(deleted, a);
    assert forall a :: Referenced(after, a) == Referenced(deleted, a);
  }

  /** Deregistering keeps everything. */
  lemma DeregisterKeepsSound(db: Db, name: string, platform: set<string>)
    requires Sound(db, platform) && Deregister(db, name).Some?
    ensures Sound(Deregister(db, name).value, platform)
  {
    var after := Deregister(db, name).value;
    DeregisterShape(db, name);
    forall p | p in after.owners
      ensures p.0 in after.actions && p.1 in after.extensions
    {
      assert Owned(after, p.0);
    }
    forall a | a in platform
      ensures a in after.actions
    {
      assert a !in OwnedActions(db, name);
    }
    forall g | g in after.grants
      ensures g.1 in after.actions
    {
      assert Granted(after, g.1);
    }
    forall id | id in after.routes
      ensures id < after.nextId && RouteSound(after, after.routes[id])
    {
      var r := after.routes[id];
      assert r == db.routes[id];
      if r.requiredAction.Some? {
        assert Referenced(after, r.requiredAction.value);
      }
      assert OwnedByOther(after, GetAction(r), Some(r.owner)) ==> OwnedByOther(db, GetAction(r), Some(r.owner));
    }
    assert forall a, b :: BothHaveUi(after, a, b) ==> BothHaveUi(db, a, b);
    assert forall a, b :: BothActive(after, a, b) ==> BothActive(db, a, b);
  }

  function GetAction(r: RouteRow): string {
    if r.requiredAction.Some? then r.requiredAction.value else ""
  }

  /** A finished deregistration leaves no row, no route, no action and no grant of the extension. */
  lemma DeregisterLeavesNothing(db: Db, name: string, platform: set<string>, a: string)
    requires Sound(db, platform) && Deregister(db, name).Some?
    ensures var after := Deregister(db, name).value;
            && name !in after.extensions
            && (forall id :: id in after.routes ==> after.routes[id].owner != name)
            && OwnedActions(after, name) == {}
            && (a in OwnedActions(db, name) ==> a !in after.actions && !Granted(after, a) && !Owned(after, a))
  {
    var after := Deregister(db, name).value;
    DeregisterShape(db, name);
    assert a in OwnedActions(db, name) ==> (a, name) in db.owners;
    assert forall p | p in after.owners :: p.0 !in OwnedActions(db, name);
  }

  // ----- enable, disable, refresh, roles -----

  lemma EnableKeepsSound(db: Db, name: string, platform: set<string>)
    requires Sound(db, platform) && Enable(db, name).Some?
    ensures Sound(Enable(db, name).value, platform)
  {
    var after := Enable(db, name).value;
    NoConflictIsExclusive(db, after, name);
    SameUis(db, after, platform);
  }

  lemma DisableKeepsSound(db: Db, name: string, platform: set<string>)
    requires Sound(db, platform) && Disable(db, name).Some?
    ensures Sound(Disable(db, name).value, platform)
  {
    var after := Disable(db, name).value;
    assert forall a, b :: BothActive(after, a, b) ==> BothActive(db, a, b);
    SameUis(db, after, platform);
  }

  /** A change of `enabled` flags only. */
  lemma SameUis(db: Db, after: Db, platform: set<string>)
    requires Sound(db, platform) && ReplacementsExclusive(after)
    requires after == db.(extensions := after.extensions) && after.extensions.Keys == db.extensions.Keys
    requires forall n :: n in db.extensions ==> after.extensions[n] == db.extensions[n].(enabled := after.extensions[n].enabled)
    ensures Sound(after, platform)
  {
    assert forall a, b :: BothHaveUi(after, a, b) ==> BothHaveUi(db, a, b);
    forall id | id in after.routes
      ensures RouteSound(after, after.routes[id])
    {
      assert RouteSound(db, db.routes[id]);
      assert OwnedByOther(after, GetAction(db.routes[id]), Some(db.routes[id].owner)) ==>
             OwnedByOther(db, GetAction(db.routes[id]), Some(db.routes[id].owner));
    }
  }

  lemma RefreshKeepsSound(db: Db, names: set<string>, fetched: map<nat, Schema>, platform: set<string>)
    requires Sound(db, platform)
    ensures Sound(Refresh(db, names, fetched), platform)
  {
    var after := Refresh(db, names, fetched);
    forall id | id in after.routes
      ensures id < after.nextId && RouteSound(after, after.routes[id])
    {
      assert RouteSound(db, db.routes[id]);
      assert OwnedByOther(after, GetAction(db.routes[id]), Some(db.routes[id].owner)) ==>
             OwnedByOther(db, GetAction(db.routes[id]), Some(db.routes[id].owner));
    }
    assert forall a, b :: BothHaveUi(after, a, b) ==> BothHaveUi(db, a, b);
    assert forall a, b :: BothActive(after, a, b) ==> BothActive(db, a, b);
  }

  /** Refreshing a stored route gives the row that registering its manifest entry would have given with
      the new outcome of the fetch; entries that do not refer to their upstream's schema never change. */
  lemma RefreshIsReregistration(db: Db, names: set<string>, refetched: map<nat, Schema>, id: nat, r: RouteSpec,
                                fetched: Option<Schema>)
    requires id in db.routes && db.routes[id].owner in names && RouteSound(db, db.routes[id])
    requires RouteOk(db.extensions[db.routes[id].owner].upstreams, r)
    requires db.routes[id] == RowOf(db.routes[id].owner, r, fetched)
    ensures Refresh(db, names, refetched).routes[id] ==
            RowOf(db.routes[id].owner, r, if id in refetched then Some(refetched[id]) else None)
    ensures !r.bodyRef ==> Refresh(db, names, refetched).routes[id] == db.routes[id]
  {
    assert IsRefRoute(db, id) <==> r.bodyRef;
  }

  lemma RolesKeepSound(db: Db, after: Db, platform: set<string>)
    requires Sound(db, platform) && after == db.(roles := after.roles, grants := after.grants) && GrantsSound(after)
    ensures Sound(after, platform)
  {
    forall id | id in after.routes
      ensures RouteSound(after, after.routes[id])
    {
      assert RouteSound(db, db.routes[id]);
      assert OwnedByOther(after, GetAction(db.routes[id]), Some(db.routes[id].owner)) ==>
             OwnedByOther(db, GetAction(db.routes[id]), Some(db.routes[id].owner));
    }
    assert forall a, b :: BothHaveUi(after, a, b) ==> BothHaveUi(db, a, b);
    assert forall a, b :: BothActive(after, a, b) ==> BothActive(db, a, b);
  }

  lemma GrantsKeepSound(db: Db, role: int, actions: set<string>, action: string, platform: set<string>)
    requires Sound(db, platform)
    ensures Sound(Grant(db, role, actions), platform)
    ensures Sound(Revoke(db, role, action), platform)
    ensures Sound(DeleteRole(db, role), platform)
  {
    RolesKeepSound(db, Grant(db, role, actions), platform);
    RolesKeepSound(db, Revoke(db, role, action), platform);
    RolesKeepSound(db, DeleteRole(db, role), platform);
  }
}
