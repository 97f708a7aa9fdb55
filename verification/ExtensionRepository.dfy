/** The extension tables as the repository and the registry change them, row by row, and the
    transactions that undo everything when a step is refused. */
module ExtensionRepository {
  import opened Wrappers
  import opened ReplaceFilters
  import opened Extensions

  class Repository {
    var extensions: map<string, ExtensionRow>
    var routes: map<nat, RouteRow>
    var actions: set<string>
    var owners: set<(string, string)>
    var roles: set<int>
    var grants: set<(int, string)>
    var nextId: nat

    /** The whole stored state. */
    function Snapshot(): Db
      reads this
    {
      Db(extensions, routes, actions, owners, roles, grants, nextId)
    }

    constructor (db: Db)
      ensures Snapshot() == db
    {
      extensions, routes, actions, owners := db.extensions, db.routes, db.actions, db.owners;
      roles, grants, nextId := db.roles, db.grants, db.nextId;
    }

    /** Rolling back to a state saved at the start of the transaction. */
    method Restore(db: Db)
      modifies this
      ensures Snapshot() == db
    {
      extensions, routes, actions, owners := db.extensions, db.routes, db.actions, db.owners;
      roles, grants, nextId := db.roles, db.grants, db.nextId;
    }

    // ----- reading -----

    method GetActionOwner(action: string) returns (owner: Option<string>)
      ensures owner.Some? <==> Owned(Snapshot(), action)
      ensures owner.Some? ==> (action, owner.value) in owners
    {
      if p :| p in owners && p.0 == action {
        owner := Some(p.1);
      } else {
        owner := None;
      }
    }

    method ListExtensionActions(name: string) returns (names: set<string>)
      ensures names == OwnedActions(Snapshot(), name)
    {
      names := set p | p in owners && p.1 == name :: p.0;
    }

    method ValidateActionOwnership(m: Manifest, current: Option<string>) returns (ok: bool)
      requires OwnersSound(Snapshot())
      ensures ok <==> OwnershipOk(Snapshot(), m, current)
    {
      for i := 0 to |m.actions|
        invariant forall j | 0 <= j < i ::
          !OwnedByOther(Snapshot(), m.actions[j], current)
          && (Owned(Snapshot(), m.actions[j]) || m.actions[j] !in actions)
      {
        var action := m.actions[i];
        var owner := GetActionOwner(action);
        assert action in m.actions;
        if owner.Some? && owner != current {
          return false;
        }
        if owner.None? && action in actions {
          return false;
        }
      }
      for i := 0 to |m.routes|
        invariant forall j | 0 <= j < i ::
          Named(m.routes[j].requiredAction) && m.routes[j].requiredAction.value !in m.actions ==>
            !Owned(Snapshot(), m.routes[j].requiredAction.value) && m.routes[j].requiredAction.value in actions
      {
        var action := m.routes[i].requiredAction;
        if !Named(action) || action.value in m.actions {
          continue;
        }
        var owner := GetActionOwner(action.value);
        if owner.Some? || action.value !in actions {
          return false;
        }
      }
      ok := true;
    }

    method ValidateUiRequiredActions(m: Manifest, current: Option<string>) returns (ok: bool)
      ensures ok <==> UiOk(Snapshot(), m, current)
    {
      if m.ui.None? {
        return true;
      }
      if n :| n in extensions && current != Some(n) && extensions[n].ui.Some?
              && extensions[n].ui.value.remoteName == m.ui.value.remoteName {
        assert RemoteNameTaken(Snapshot(), m.ui.value.remoteName, current);
        return false;
      }
      var contributions := m.ui.value.contributions;
      for i := 0 to |contributions|
        invariant forall j | 0 <= j < i ::
          Named(contributions[j].requiredAction) ==>
            contributions[j].requiredAction.value in m.actions || contributions[j].requiredAction.value in actions
      {
        var action := contributions[i].requiredAction;
        if Named(action) && action.value !in m.actions && action.value !in actions {
          return false;
        }
      }
      ok := true;
    }

    /** Whether some contribution of `mine` collides with one of `theirs`, checked pair by pair. */
    static method FindClash(mine: Ui, theirs: Ui) returns (found: bool)
      ensures found <==> Clash(mine, theirs)
    {
      for j := 0 to |theirs.contributions|
        invariant forall i, k | 0 <= i < |mine.contributions| && 0 <= k < j ::
          !Collide(mine.contributions[i], theirs.contributions[k])
      {
        for i := 0 to |mine.contributions|
          invariant forall k | 0 <= k < i :: !Collide(mine.contributions[k], theirs.contributions[j])
        {
          if Collide(mine.contributions[i], theirs.contributions[j]) {
            return true;
          }
        }
      }
      found := false;
    }

    method CheckReplaceConflicts(name: string, ui: Option<Ui>) returns (conflict: bool)
      ensures conflict <==> ReplaceConflict(Snapshot(), name, ui)
    {
      if ui.None? {
        return false;
      }
      var rows := extensions.Keys;
      while rows != {}
        invariant rows <= extensions.Keys
        invariant forall n | n in extensions.Keys - rows ::
          n != name && extensions[n].enabled && extensions[n].ui.Some? ==> !Clash(ui.value, extensions[n].ui.value)
        decreases rows
      {
        var n :| n in rows;
        rows := rows - {n};
        if n == name || !extensions[n].enabled || extensions[n].ui.None? {
          continue;
        }
        var found := FindClash(ui.value, extensions[n].ui.value);
        if found {
          return true;
        }
      }
      conflict := false;
    }

    // ----- writing -----

    method UpsertAction(action: string)
      modifies this`actions
      ensures actions == old(actions) + {action}
    {
      if action !in actions {
        actions := actions + {action};
      }
    }

    /** Adds one owner row per action; the unique constraint stops at the first one already owned. */
    method RecordExtensionActions(name: string, names: seq<string>) returns (ok: bool)
      requires forall i, j :: 0 <= i < j < |names| ==> names[i] != names[j]
      modifies this`owners
      ensures ok <==> forall a | a in names :: !Owned(old(Snapshot()), a)
      ensures ok ==> owners == old(owners) + set a | a in names :: (a, name)
    {
      for i := 0 to |names|
        invariant owners == old(owners) + set a | a in names[..i] :: (a, name)
        invariant forall j | 0 <= j < i :: !Owned(old(Snapshot()), names[j])
      {
        assert names[..i + 1] == names[..i] + [names[i]];
        if p :| p in owners && p.0 == names[i] {
          assert p in old(owners);
          assert names[i] in names && Owned(old(Snapshot()), names[i]);
          return false;
        }
        owners := owners + {(names[i], name)};
      }
      assert names[..|names|] == names;
      ok := true;
    }

    method EnrollActions(name: string, names: seq<string>) returns (ok: bool)
      requires forall i, j :: 0 <= i < j < |names| ==> names[i] != names[j]
      modifies this`actions, this`owners
      ensures ok <==> Extensions.EnrollActions(old(Snapshot()), name, names).Some?
      ensures ok ==> Snapshot() == Extensions.EnrollActions(old(Snapshot()), name, names).value
    {
      for i := 0 to |names|
        invariant actions == old(actions) + set a | a in names[..i]
        invariant owners == old(owners)
      {
        UpsertAction(names[i]);
        assert names[..i + 1] == names[..i] + [names[i]];
      }
      assert names[..|names|] == names;
      assert forall a :: Owned(Snapshot(), a) == Owned(old(Snapshot()), a);
      ok := RecordExtensionActions(name, names);
    }

    method ClearExtensionActions(name: string)
      modifies this`owners
      ensures Snapshot() == ClearOwned(old(Snapshot()), name)
    {
      owners := set p | p in owners && p.1 != name;
    }

    /** Inserts the manifest's routes one by one; the foreign key stops at a required action that does
        not exist. */
    method InsertRoutes(m: Manifest, fetched: seq<Option<Schema>>) returns (ok: bool)
      requires |fetched| == |m.routes|
      modifies this`routes, this`nextId
      ensures ok <==> forall i | 0 <= i < |m.routes| ::
        m.routes[i].requiredAction.Some? ==> m.routes[i].requiredAction.value in actions
      ensures ok ==> routes == old(routes) + NewRoutes(m, fetched, old(nextId)) && nextId == old(nextId) + |m.routes|
    {
      for i := 0 to |m.routes|
        invariant nextId == old(nextId) + i
        invariant routes == old(routes) + FirstRoutes(m, fetched, old(nextId), i)
        invariant forall j | 0 <= j < i :: m.routes[j].requiredAction.Some? ==> m.routes[j].requiredAction.value in actions
      {
        var r := m.routes[i];
        if r.requiredAction.Some? && r.requiredAction.value !in actions {
          return false;
        }
        FirstRoutesMore(m, fetched, old(nextId), i, old(routes));
        routes := routes[nextId := RowOf(m.name, r, fetched[i])];
        nextId := nextId + 1;
      }
      ok := true;
    }

    /** Drops the stored routes and upstreams, then inserts the manifest's. */
    method ReplaceUpstreamsAndRoutes(m: Manifest, fetched: seq<Option<Schema>>) returns (ok: bool)
      requires |fetched| == |m.routes| && m.name in extensions
      modifies this`extensions, this`routes, this`nextId
      ensures ok <==> ReplaceRoutes(old(Snapshot()), m, fetched).Some?
      ensures ok ==> Snapshot() == ReplaceRoutes(old(Snapshot()), m, fetched).value
    {
      routes := map id | id in routes && routes[id].owner != m.name :: routes[id];
      extensions := extensions[m.name := extensions[m.name].(upstreams := m.upstreams)];
      assert routes == RoutesWithout(old(Snapshot()), m.name);
      ok := InsertRoutes(m, fetched);
    }

    /** Deletes, one after another, the named actions nobody owns and no role holds. */
    method DeleteOrphanedActions(names: set<string>) returns (ok: bool)
      modifies this`actions
      ensures ok <==> DeleteOrphans(old(Snapshot()), names).Some?
      ensures ok ==> Snapshot() == DeleteOrphans(old(Snapshot()), names).value
    {
      var rest := names;
      while rest != {}
        invariant rest <= names
        invariant actions == old(actions) - Orphans(old(Snapshot()), names - rest)
        invariant forall a | a in Orphans(old(Snapshot()), names - rest) :: !Referenced(old(Snapshot()), a)
        decreases rest
      {
        var action :| action in rest;
        assert names - (rest - {action}) == (names - rest) + {action};
        OrphansMore(old(Snapshot()), names - rest, action);
        rest := rest - {action};
        var owner := GetActionOwner(action);
        if owner.Some? {
          continue;
        }
        if g :| g in grants && g.1 == action {
          continue;
        }
        if action in actions {
          if id :| id in routes && routes[id].requiredAction == Some(action) {
            assert Referenced(old(Snapshot()), action);
            assert action in Orphans(old(Snapshot()), names);
            return false;
          }
          actions := actions - {action};
        }
      }
      assert names - rest == names;
      ok := true;
    }

    /** Revokes each action from each role that holds it. */
    method StripActionsFromAllRoles(names: set<string>)
      requires GrantsSound(Snapshot())
      modifies this`grants
      ensures Snapshot() == StripGrants(old(Snapshot()), names)
    {
      var rest := roles;
      while rest != {}
        invariant rest <= roles
        invariant grants == set g | g in old(grants) && (g.0 in rest || g.1 !in names)
        decreases rest
      {
        HasMember(rest);
        var role :| role in rest;
        StripActions(role, names);
        rest := rest - {role};
      }
    }

    method StripActions(role: int, names: set<string>)
      modifies this`grants
      ensures grants == set g | g in old(grants) && (g.0 != role || g.1 !in names)
    {
      var rest := names;
      while rest != {}
        invariant rest <= names
        invariant grants == set g | g in old(grants) && (g.0 != role || g.1 in rest || g.1 !in names)
        decreases rest
      {
        var action :| action in rest;
        if (role, action) in grants {
          grants := grants - {(role, action)};
        }
        rest := rest - {action};
      }
    }

    method DeleteExtensionRow(name: string)
      modifies this`extensions, this`routes, this`owners
      ensures Snapshot() == DeleteExtension(old(Snapshot()), name)
    {
      extensions := extensions - {name};
      routes := map id | id in routes && routes[id].owner != name :: routes[id];
      owners := set p | p in owners && p.1 != name;
    }

    /** Writes every refetched schema, route by route. */
    method RefreshPending(names: set<string>, refetched: map<nat, Schema>)
      modifies this`routes
      ensures Snapshot() == Refresh(old(Snapshot()), names, refetched)
    {
      var pending := set id | id in routes && IsRefRoute(Snapshot(), id) && routes[id].owner in names;
      var rest := pending;
      while rest != {}
        invariant rest <= pending && routes.Keys == old(routes).Keys
        invariant forall id | id in routes ::
          routes[id] == if id in pending - rest then Refresh(old(Snapshot()), names, refetched).routes[id] else old(routes)[id]
        decreases rest
      {
        var id :| id in rest;
        routes := routes[id :=
          if id in refetched then routes[id].(mode := UpstreamDeclared, body := Some(refetched[id]))
          else routes[id].(mode := UnreachableRef, body := None)];
        rest := rest - {id};
      }
    }

    // ----- transactions -----

    method RegisterExtension(m: Manifest, fetched: seq<Option<Schema>>) returns (ok: bool)
      requires |fetched| == |m.routes| && OwnersSound(Snapshot()) && ManifestOk(m, true)
      modifies this
      ensures ok <==> Register(old(Snapshot()), m, fetched).Some?
      ensures Snapshot() == if ok then Register(old(Snapshot()), m, fetched).value else old(Snapshot())
    {
      var saved := Snapshot();
      ok := m.name !in extensions;
      if ok {
        ok := ValidateActionOwnership(m, None);
      }
      if ok {
        ok := ValidateUiRequiredActions(m, None);
      }
      if ok {
        extensions := extensions[m.name := ExtensionRow(false, m.ui, map[])];
        ok := EnrollActions(m.name, m.actions);
        if ok {
          ok := ReplaceUpstreamsAndRoutes(m, fetched);
        }
      }
      if !ok {
        Restore(saved);
      }
    }

    method ReplaceExtension(m: Manifest, fetched: seq<Option<Schema>>, oldActions: set<string>, wasEnabled: bool) returns (ok: bool)
      requires |fetched| == |m.routes| && OwnersSound(Snapshot()) && ManifestOk(m, true)
      requires m.name in extensions
      modifies this
      ensures ok <==> Replace(old(Snapshot()), m, fetched, oldActions, wasEnabled).Some?
      ensures Snapshot() == if ok then Replace(old(Snapshot()), m, fetched, oldActions, wasEnabled).value else old(Snapshot())
    {
      var saved := Snapshot();
      ok := ValidateActionOwnership(m, Some(m.name));
      if ok {
        ok := ValidateUiRequiredActions(m, Some(m.name));
      }
      if ok && wasEnabled {
        var conflict := CheckReplaceConflicts(m.name, m.ui);
        ok := !conflict;
      }
      if ok {
        extensions := extensions[m.name := extensions[m.name].(ui := m.ui)];
        ClearExtensionActions(m.name);
        ok := EnrollActions(m.name, m.actions);
        if ok {
          ok := ReplaceUpstreamsAndRoutes(m, fetched);
        }
        if ok {
          ok := DeleteOrphanedActions(oldActions - ActionSet(m));
        }
      }
      if !ok {
        Restore(saved);
      }
    }

    method DeregisterExtension(name: string) returns (ok: bool)
      requires GrantsSound(Snapshot())
      modifies this
      ensures ok <==> Deregister(old(Snapshot()), name).Some?
      ensures Snapshot() == if ok then Deregister(old(Snapshot()), name).value else old(Snapshot())
    {
      var saved := Snapshot();
      if name !in extensions {
        return false;
      }
      var names := ListExtensionActions(name);
      StripActionsFromAllRoles(names);
      DeleteExtensionRow(name);
      ok := DeleteOrphanedActions(names);
      if !ok {
        Restore(saved);
      }
    }

    method EnableExtension(name: string) returns (ok: bool)
      modifies this`extensions
      ensures ok <==> Enable(old(Snapshot()), name).Some?
      ensures Snapshot() == if ok then Enable(old(Snapshot()), name).value else old(Snapshot())
    {
      if name !in extensions {
        return false;
      }
      var conflict := CheckReplaceConflicts(name, extensions[name].ui);
      if conflict {
        return false;
      }
      extensions := extensions[name := extensions[name].(enabled := true)];
      ok := true;
    }

    method DisableExtension(name: string) returns (ok: bool)
      modifies this`extensions
      ensures ok <==> Disable(old(Snapshot()), name).Some?
      ensures Snapshot() == if ok then Disable(old(Snapshot()), name).value else old(Snapshot())
    {
      if name !in extensions {
        return false;
      }
      extensions := extensions[name := extensions[name].(enabled := false)];
      ok := true;
    }
  }

  lemma HasMember(s: set<int>)
    requires s != {}
    ensures exists x :: x in s
  {
    assert (forall x :: x !in s) ==> s == {};
  }

  /** The rows of the first `n` routes of a manifest. */
  function FirstRoutes(m: Manifest, fetched: seq<Option<Schema>>, from: nat, n: nat): map<nat, RouteRow>
    requires n <= |fetched| == |m.routes|
  {
    map id: nat | from <= id < from + n :: NewRow(m, fetched, from, id)
  }

  lemma FirstRoutesMore(m: Manifest, fetched: seq<Option<Schema>>, from: nat, n: nat, kept: map<nat, RouteRow>)
    requires n < |fetched| == |m.routes|
    ensures (kept + FirstRoutes(m, fetched, from, n))[from + n := RowOf(m.name, m.routes[n], fetched[n])]
            == kept + FirstRoutes(m, fetched, from, n + 1)
  {}

  lemma OrphansMore(db: Db, names: set<string>, action: string)
    ensures Orphans(db, names + {action}) ==
            Orphans(db, names) + if action in db.actions && !Owned(db, action) && !Granted(db, action) then {action} else {}
  {}
}
