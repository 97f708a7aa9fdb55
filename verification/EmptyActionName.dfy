/** The ownership check skips a required action that is the empty string (registry.py:216), although
    the empty string can be the name of an action. What that costs, and exactly when. */
module EmptyActionName {
  import opened Wrappers
  import opened Extensions
  import opened ExtensionLaws

  /** What the ownership check should give: no route of the extension requires an action another one
      owns. */
  ghost predicate OwnRoutesStrict(db: Db, name: string) {
    forall id | id in db.routes && db.routes[id].owner == name && db.routes[id].requiredAction.Some? ::
      !OwnedByOther(db, db.routes[id].requiredAction.value, Some(name))
  }

  ghost predicate AllStrict(db: Db) {
    forall n :: OwnRoutesStrict(db, n)
  }

  predicate UsesEmptyName(m: Manifest) {
    exists i | 0 <= i < |m.routes| :: m.routes[i].requiredAction == Some("")
  }

  /** Every route that requires the empty name comes with a manifest that claims it. */
  predicate ClaimsEmptyName(m: Manifest) {
    UsesEmptyName(m) ==> "" in m.actions
  }

  ghost predicate Registers(db: Db, m: Manifest, fetched: seq<Option<Schema>>, platform: set<string>)
    requires |fetched| == |m.routes|
  {
    Sound(db, platform) && Register(db, m, fetched).Some?
  }

  /** Registration gives strictly owned routes in every sound state exactly when the manifest claims
      the empty name or does not use it. */
  lemma StrictExactlyWhenClaimed(m: Manifest, fetched: seq<Option<Schema>>)
    requires |fetched| == |m.routes| && ManifestOk(m, true)
    ensures (forall db, platform :: Registers(db, m, fetched, platform) ==>
               OwnRoutesStrict(Register(db, m, fetched).value, m.name))
            <==> ClaimsEmptyName(m)
  {
    if ClaimsEmptyName(m) {
      forall db, platform | Registers(db, m, fetched, platform)
        ensures OwnRoutesStrict(Register(db, m, fetched).value, m.name)
      {
        ClaimedIsStrict(db, m, fetched, platform);
      }
    } else {
      var i :| 0 <= i < |m.routes| && m.routes[i].requiredAction == Some("");
      WitnessRegisters(m, fetched);
      WitnessIsNotStrict(m, fetched, i);
    }
  }

  lemma ClaimedIsStrict(db: Db, m: Manifest, fetched: seq<Option<Schema>>, platform: set<string>)
    requires |fetched| == |m.routes| && ManifestOk(m, true) && ClaimsEmptyName(m)
    requires Registers(db, m, fetched, platform)
    ensures OwnRoutesStrict(Register(db, m, fetched).value, m.name)
  {
    var after := Register(db, m, fetched).value;
    RegisterShape(db, m, fetched);
    RegisterKeepsOwners(db, m, fetched, platform);
    RegisterKeepsRoutes(db, m, fetched, platform);
    forall id | id in after.routes && after.routes[id].owner == m.name && after.routes[id].requiredAction.Some?
      ensures !OwnedByOther(after, after.routes[id].requiredAction.value, Some(m.name))
    {
      assert RouteSound(after, after.routes[id]);
      NewRouteIs(m, fetched, db, after.routes, id);
      assert "" in m.actions ==> ("", m.name) in after.owners;
    }
  }

  // ----- a state in which an unclaimed empty name slips through -----

  /** Another extension, different from the manifest's. */
  function Other(m: Manifest): string {
    m.name + "x"
  }

  function UiNeeds(cs: seq<Contribution>): set<string> {
    set i | 0 <= i < |cs| && Named(cs[i].requiredAction) :: cs[i].requiredAction.value
  }

  function RoutesNeed(rs: seq<RouteSpec>): set<string> {
    set i | 0 <= i < |rs| && Named(rs[i].requiredAction) :: rs[i].requiredAction.value
  }

  function Needed(m: Manifest): set<string> {
    RoutesNeed(m.routes) + UiNeeds(if m.ui.Some? then m.ui.value.contributions else []) - ActionSet(m)
  }

  /** The other extension owns the empty name; every other action the manifest needs is a platform one. */
  function Witness(m: Manifest): Db {
    Db(map[Other(m) := ExtensionRow(false, None, map[])], map[], Needed(m) + {""}, {("", Other(m))}, {}, {}, 0)
  }

  lemma WitnessRegisters(m: Manifest, fetched: seq<Option<Schema>>)
    requires |fetched| == |m.routes| && "" !in m.actions
    ensures Registers(Witness(m), m, fetched, Needed(m))
  {
    var db := Witness(m);
    assert Owned(db, "") by { assert ("", Other(m)) in db.owners; }
    assert OwnershipOk(db, m, None);
    assert UiOk(db, m, None);
    assert Sound(db, Needed(m));
  }

  lemma WitnessIsNotStrict(m: Manifest, fetched: seq<Option<Schema>>, i: nat)
    requires |fetched| == |m.routes| && i < |m.routes| && m.routes[i].requiredAction == Some("") && "" !in m.actions
    requires Registers(Witness(m), m, fetched, Needed(m))
    ensures !OwnRoutesStrict(Register(Witness(m), m, fetched).value, m.name)
  {
    var db := Witness(m);
    var after := Register(db, m, fetched).value;
    RegisterShape(db, m, fetched);
    assert NewRow(m, fetched, 0, i) == RowOf(m.name, m.routes[i], fetched[i]);
    assert after.routes[i].requiredAction == Some("") && after.routes[i].owner == m.name;
    assert ("", Other(m)) in after.owners;
  }

  // ----- registering and replacing, state by state -----

  /** The stored routes of a manifest are strictly owned exactly when none of them requires an empty
      name that belongs to another extension. */
  lemma StoredStrictIff(db: Db, after: Db, m: Manifest, fetched: seq<Option<Schema>>, current: Option<string>)
    requires |fetched| == |m.routes| && OwnershipOk(db, m, current)
    requires current == Some(m.name) || (current == None && forall p :: p in db.owners ==> p.1 != m.name)
    requires after.routes == RoutesWithout(db, m.name) + NewRoutes(m, fetched, db.nextId)
    requires after.owners == (set p | p in db.owners && p.1 != m.name) + (set a | a in m.actions :: (a, m.name))
    requires forall id :: id in db.routes ==> id < db.nextId
    ensures OwnRoutesStrict(after, m.name) <==> ClaimsEmptyName(m) || !OwnedByOther(db, "", Some(m.name))
  {
    forall a
      ensures OwnedByOther(after, a, Some(m.name)) <==> OwnedByOther(db, a, Some(m.name))
    {
      SameOtherOwners(db, after, m, a);
    }
    if ClaimsEmptyName(m) || !OwnedByOther(db, "", Some(m.name)) {
      forall id | id in after.routes && after.routes[id].owner == m.name && after.routes[id].requiredAction.Some?
        ensures !OwnedByOther(db, after.routes[id].requiredAction.value, Some(m.name))
      {
        NewRouteIs(m, fetched, db, after.routes, id);
        OthersUnclaimed(db, m, id - db.nextId, current);
      }
    } else {
      var i :| 0 <= i < |m.routes| && m.routes[i].requiredAction == Some("");
      assert NewRow(m, fetched, db.nextId, db.nextId + i) == RowOf(m.name, m.routes[i], fetched[i]);
      assert after.routes[db.nextId + i].requiredAction == Some("");
    }
  }

  lemma SameOtherOwners(db: Db, after: Db, m: Manifest, a: string)
    requires after.owners == (set p | p in db.owners && p.1 != m.name) + (set b | b in m.actions :: (b, m.name))
    ensures OwnedByOther(after, a, Some(m.name)) <==> OwnedByOther(db, a, Some(m.name))
  {
    if p :| p in db.owners && p.0 == a && p.1 != m.name {
      assert p in after.owners;
    }
    assert forall p | p in after.owners && p.1 != m.name :: p in db.owners;
  }

  /** A manifest that passed the check names no action of another extension, but for the empty name. */
  lemma OthersUnclaimed(db: Db, m: Manifest, i: nat, current: Option<string>)
    requires i < |m.routes| && OwnershipOk(db, m, current) && m.routes[i].requiredAction.Some?
    requires current == Some(m.name) || (current == None && forall p :: p in db.owners ==> p.1 != m.name)
    requires m.routes[i].requiredAction == Some("") ==> "" in m.actions || !OwnedByOther(db, "", Some(m.name))
    ensures !OwnedByOther(db, m.routes[i].requiredAction.value, Some(m.name))
  {
    var a := m.routes[i].requiredAction.value;
    if a in m.actions {
      assert !OwnedByOther(db, a, current);
    } else if a != "" {
      assert !Owned(db, a);
    }
  }

  /** A registration leaves strictly owned routes exactly when its manifest claims the empty name, does
      not use it, or nobody owns it. */
  lemma RegisterStrictIff(db: Db, m: Manifest, fetched: seq<Option<Schema>>, platform: set<string>)
    requires |fetched| == |m.routes| && Registers(db, m, fetched, platform)
    ensures OwnRoutesStrict(Register(db, m, fetched).value, m.name) <==> ClaimsEmptyName(m) || !Owned(db, "")
  {
    RegisterShape(db, m, fetched);
    StoredStrictIff(db, Register(db, m, fetched).value, m, fetched, None);
    assert Owned(db, "") <==> OwnedByOther(db, "", Some(m.name));
  }

  /** A replacement does exactly when its manifest claims the empty name, does not use it, or no other
      extension owns it. */
  lemma ReplaceStrictIff(db: Db, m: Manifest, fetched: seq<Option<Schema>>, oldActions: set<string>, wasEnabled: bool,
                         platform: set<string>)
    requires |fetched| == |m.routes| && Sound(db, platform) && Replace(db, m, fetched, oldActions, wasEnabled).Some?
    ensures OwnRoutesStrict(Replace(db, m, fetched, oldActions, wasEnabled).value, m.name) <==>
            ClaimsEmptyName(m) || !OwnedByOther(db, "", Some(m.name))
  {
    ReplaceShape(db, m, fetched, oldActions, wasEnabled);
    StoredStrictIff(db, Replace(db, m, fetched, oldActions, wasEnabled).value, m, fetched, Some(m.name));
  }

  /** The empty name of extension "b", required by a route that a replacement gives to extension "a". */
  lemma ReplaceCanTakeEmptyName()
    ensures var db := Db(map["a" := ExtensionRow(true, None, map[]), "b" := ExtensionRow(true, None, map[])], map[], {""},
                         {("", "b")}, {}, {}, 0);
            var m := Manifest("a", map["u" := Http("h")], [], [RouteSpec("u", Public, Some(""), false, None, false)], None);
            && Sound(db, {}) && ReplaceCheck(db, "a", m, true) && Replace(db, m, [None], {}, true).Some?
            && !OwnRoutesStrict(Replace(db, m, [None], {}, true).value, "a")
  {
    var db := Db(map["a" := ExtensionRow(true, None, map[]), "b" := ExtensionRow(true, None, map[])], map[], {""},
                 {("", "b")}, {}, {}, 0);
    var m := Manifest("a", map["u" := Http("h")], [], [RouteSpec("u", Public, Some(""), false, None, false)], None);
    assert OwnedActions(db, "a") == {};
    assert m.routes[0].requiredAction == Some("");
    assert OwnershipOk(db, m, Some("a")) && UiOk(db, m, Some("a"));
    ReplaceSucceedsIff(db, m, [None], true, {});
    TakesIt(db, m);
  }

  lemma TakesIt(db: Db, m: Manifest)
    requires Sound(db, {}) && ("", "b") in db.owners && m.name == "a" && |m.routes| == 1 && Replace(db, m, [None], {}, true).Some?
    requires m.routes[0].requiredAction == Some("") && m.actions == []
    ensures !OwnRoutesStrict(Replace(db, m, [None], {}, true).value, "a")
  {
    ReplaceStrictIff(db, m, [None], {}, true, {});
  }

  /** Neither makes the routes of another extension lose what they had. */
  lemma OthersStayStrict(db: Db, after: Db, m: Manifest, fetched: seq<Option<Schema>>, n: string, platform: set<string>)
    requires |fetched| == |m.routes| && Sound(db, platform) && n != m.name && OwnRoutesStrict(db, n)
    requires after.routes == RoutesWithout(db, m.name) + NewRoutes(m, fetched, db.nextId)
    requires after.owners == (set p | p in db.owners && p.1 != m.name) + (set a | a in m.actions :: (a, m.name))
    requires forall a | a in m.actions :: Owned(db, a) || a !in db.actions
    requires forall a | a in m.actions :: !OwnedByOther(db, a, Some(m.name))
    ensures OwnRoutesStrict(after, n)
  {
    forall id | id in after.routes && after.routes[id].owner == n && after.routes[id].requiredAction.Some?
      ensures !OwnedByOther(after, after.routes[id].requiredAction.value, Some(n))
    {
      NewRouteIs(m, fetched, db, after.routes, id);
      var a := db.routes[id].requiredAction.value;
      assert RouteSound(db, db.routes[id]) && !OwnedByOther(db, a, Some(n));
      assert a in m.actions ==> Owned(db, a);
      assert forall p | p in after.owners && p.0 == a && p.1 != n :: p.1 == m.name && a in m.actions;
      UnclaimedByOther(db, m, a, n);
    }
  }

  /** An action of another extension's strict route is not one the manifest may claim. */
  lemma UnclaimedByOther(db: Db, m: Manifest, a: string, n: string)
    requires n != m.name && !OwnedByOther(db, a, Some(n)) && !(a in m.actions && OwnedByOther(db, a, Some(m.name)))
    requires a in m.actions ==> Owned(db, a)
    ensures a !in m.actions
  {
    if p :| p in db.owners && p.0 == a {
      assert p.1 == n;
    }
  }

  /** From a strict state: the state after a registration is strict exactly then. */
  lemma RegisterAllStrictIff(db: Db, m: Manifest, fetched: seq<Option<Schema>>, platform: set<string>)
    requires |fetched| == |m.routes| && Registers(db, m, fetched, platform) && AllStrict(db)
    ensures AllStrict(Register(db, m, fetched).value) <==> ClaimsEmptyName(m) || !Owned(db, "")
  {
    var after := Register(db, m, fetched).value;
    RegisterShape(db, m, fetched);
    RegisterStrictIff(db, m, fetched, platform);
    assert after.owners == (set p | p in db.owners && p.1 != m.name) + (set a | a in m.actions :: (a, m.name));
    forall a | a in m.actions
      ensures !OwnedByOther(db, a, Some(m.name))
    {
      assert !Owned(db, a);
    }
    forall n | n != m.name
      ensures OwnRoutesStrict(after, n)
    {
      OthersStayStrict(db, after, m, fetched, n, platform);
    }
  }

  lemma ReplaceAllStrictIff(db: Db, m: Manifest, fetched: seq<Option<Schema>>, oldActions: set<string>, wasEnabled: bool,
                            platform: set<string>)
    requires |fetched| == |m.routes| && Sound(db, platform) && AllStrict(db)
    requires Replace(db, m, fetched, oldActions, wasEnabled).Some?
    ensures AllStrict(Replace(db, m, fetched, oldActions, wasEnabled).value) <==>
            ClaimsEmptyName(m) || !OwnedByOther(db, "", Some(m.name))
  {
    var after := Replace(db, m, fetched, oldActions, wasEnabled).value;
    ReplaceShape(db, m, fetched, oldActions, wasEnabled);
    ReplaceStrictIff(db, m, fetched, oldActions, wasEnabled, platform);
    forall n | n != m.name
      ensures OwnRoutesStrict(after, n)
    {
      OthersStayStrict(db, after, m, fetched, n, platform);
    }
  }

  /** Transactions that add no route requirement and no owner. */
  lemma FewerStayStrict(db: Db, after: Db)
    requires AllStrict(db) && after.owners <= db.owners
    requires forall id :: id in after.routes ==>
      id in db.routes && after.routes[id].owner == db.routes[id].owner
        && after.routes[id].requiredAction == db.routes[id].requiredAction
    ensures AllStrict(after)
  {
    forall n, id | id in after.routes && after.routes[id].owner == n && after.routes[id].requiredAction.Some?
      ensures !OwnedByOther(after, after.routes[id].requiredAction.value, Some(n))
    {
      assert OwnRoutesStrict(db, n);
    }
  }

  // ----- when a replacement is refused over the empty name -----

  /** The manifest requires the empty name, and there is no such action. */
  predicate EmptyNameMissing(db: Db, m: Manifest) {
    UsesEmptyName(m) && "" !in db.actions && "" !in m.actions
  }

  /** The manifest drops the empty name, nobody holds it, and some route will still require it. */
  predicate EmptyNameStillNeeded(db: Db, m: Manifest) {
    && "" in OwnedActions(db, m.name) && "" !in m.actions && !Granted(db, "")
    && (UsesEmptyName(m) || exists id | id in db.routes :: db.routes[id].owner != m.name && db.routes[id].requiredAction == Some(""))
  }

  /** A replacement that passes the checks goes through exactly when the foreign keys have no quarrel
      over the empty name. */
  lemma ReplaceSucceedsIff(db: Db, m: Manifest, fetched: seq<Option<Schema>>, wasEnabled: bool, platform: set<string>)
    requires |fetched| == |m.routes| && Sound(db, platform) && m.name in db.extensions
    requires OwnershipOk(db, m, Some(m.name)) && UiOk(db, m, Some(m.name))
    requires wasEnabled ==> !ReplaceConflict(db, m.name, m.ui)
    ensures Replace(db, m, fetched, OwnedActions(db, m.name), wasEnabled).Some? <==>
            !EmptyNameMissing(db, m) && !EmptyNameStillNeeded(db, m)
  {
    var cleared := ClearOwned(SetUi(db, m.name, m.ui), m.name);
    ClaimsAreFree(db, m);
    var enrolled := EnrollActions(cleared, m.name, m.actions).value;
    OnlyEmptyMissing(db, m);
    if !EmptyNameMissing(db, m) {
      var routed := ReplaceRoutes(enrolled, m, fetched).value;
      OnlyEmptyNeeded(db, m, fetched, routed, platform);
    }
  }

  lemma ClaimsAreFree(db: Db, m: Manifest)
    requires m.name in db.extensions && OwnershipOk(db, m, Some(m.name))
    ensures EnrollActions(ClearOwned(SetUi(db, m.name, m.ui), m.name), m.name, m.actions).Some?
  {
    var cleared := ClearOwned(SetUi(db, m.name, m.ui), m.name);
    forall a | a in m.actions
      ensures !Owned(cleared, a)
    {
      assert !OwnedByOther(db, a, Some(m.name));
    }
  }

  lemma OnlyEmptyMissing(db: Db, m: Manifest)
    requires OwnershipOk(db, m, Some(m.name))
    ensures (exists i | 0 <= i < |m.routes| ::
               m.routes[i].requiredAction.Some? && m.routes[i].requiredAction.value !in db.actions + ActionSet(m))
            <==> EmptyNameMissing(db, m)
  {}

  lemma OnlyEmptyNeeded(db: Db, m: Manifest, fetched: seq<Option<Schema>>, routed: Db, platform: set<string>)
    requires |fetched| == |m.routes| && Sound(db, platform) && OwnershipOk(db, m, Some(m.name))
    requires routed.routes == RoutesWithout(db, m.name) + NewRoutes(m, fetched, db.nextId)
    requires routed.owners == (set p | p in db.owners && p.1 != m.name) + (set a | a in m.actions :: (a, m.name))
    requires routed.actions == db.actions + ActionSet(m) && routed.grants == db.grants
    ensures DeleteOrphans(routed, OwnedActions(db, m.name) - ActionSet(m)).Some? <==> !EmptyNameStillNeeded(db, m)
  {
    var dropped := OwnedActions(db, m.name) - ActionSet(m);
    forall a | a in dropped
      ensures a in Orphans(routed, dropped) <==> !Granted(db, a)
      ensures Referenced(routed, a) ==> a == ""
    {
      DroppedAction(db, m, fetched, routed, a, platform);
    }
    if "" in dropped {
      EmptyReferenced(db, m, fetched, routed);
    }
  }

  lemma DroppedAction(db: Db, m: Manifest, fetched: seq<Option<Schema>>, routed: Db, a: string, platform: set<string>)
    requires |fetched| == |m.routes| && Sound(db, platform) && OwnershipOk(db, m, Some(m.name))
    requires routed.routes == RoutesWithout(db, m.name) + NewRoutes(m, fetched, db.nextId)
    requires routed.owners == (set p | p in db.owners && p.1 != m.name) + (set b | b in m.actions :: (b, m.name))
    requires routed.actions == db.actions + ActionSet(m) && routed.grants == db.grants
    requires a in OwnedActions(db, m.name) - ActionSet(m)
    ensures a in routed.actions && !Owned(routed, a) && (Granted(routed, a) <==> Granted(db, a))
    ensures Referenced(routed, a) ==> a == ""
  {
    assert (a, m.name) in db.owners && a !in m.actions;
    assert Owned(db, a);
    forall id | id in routed.routes && routed.routes[id].requiredAction == Some(a)
      ensures a == ""
    {
      NewRouteIs(m, fetched, db, routed.routes, id);
      if !(db.nextId <= id < db.nextId + |m.routes|) {
        assert RouteSound(db, db.routes[id]);
        assert db.routes[id].owner != m.name ==> OwnedByOther(db, a, Some(db.routes[id].owner));
      }
    }
  }

  lemma EmptyReferenced(db: Db, m: Manifest, fetched: seq<Option<Schema>>, routed: Db)
    requires |fetched| == |m.routes| && forall id :: id in db.routes ==> id < db.nextId
    requires routed.routes == RoutesWithout(db, m.name) + NewRoutes(m, fetched, db.nextId)
    ensures Referenced(routed, "") <==>
            UsesEmptyName(m) || exists id | id in db.routes :: db.routes[id].owner != m.name && db.routes[id].requiredAction == Some("")
  {
    if i :| 0 <= i < |m.routes| && m.routes[i].requiredAction == Some("") {
      assert NewRow(m, fetched, db.nextId, db.nextId + i) == RowOf(m.name, m.routes[i], fetched[i]);
      assert routed.routes[db.nextId + i].requiredAction == Some("");
    }
    if id :| id in db.routes && db.routes[id].owner != m.name && db.routes[id].requiredAction == Some("") {
      assert id in routed.routes && routed.routes[id] == db.routes[id];
    }
    forall id | id in routed.routes && routed.routes[id].requiredAction == Some("")
      ensures UsesEmptyName(m) || (id in db.routes && db.routes[id].owner != m.name && db.routes[id].requiredAction == Some(""))
    {
      NewRouteIs(m, fetched, db, routed.routes, id);
    }
  }

  // ----- and what it blocks -----

  /** Another extension's route requires the empty name this one owns. */
  ghost predicate Blocked(db: Db, name: string) {
    "" in OwnedActions(db, name)
    && exists id | id in db.routes :: db.routes[id].owner != name && db.routes[id].requiredAction == Some("")
  }

  /** In a sound state an extension can be deregistered exactly when it exists and is not blocked so;
      otherwise the foreign key on required actions refuses the delete. */
  lemma DeregisterSucceedsIff(db: Db, name: string, platform: set<string>)
    requires Sound(db, platform)
    ensures Deregister(db, name).Some? <==> name in db.extensions && !Blocked(db, name)
  {
    if name in db.extensions {
      var names := OwnedActions(db, name);
      var deleted := DeleteExtension(StripGrants(db, names), name);
      AllOwnedAreOrphans(db, name, platform);
      if Blocked(db, name) {
        var id :| id in db.routes && db.routes[id].owner != name && db.routes[id].requiredAction == Some("");
        assert id in deleted.routes;
        assert Referenced(deleted, "");
      } else {
        forall a | a in names
          ensures !Referenced(deleted, a)
        {
          forall id | id in deleted.routes
            ensures deleted.routes[id].requiredAction != Some(a)
          {
            assert RouteSound(db, db.routes[id]);
            assert (a, name) in db.owners;
          }
        }
      }
    }
  }

  lemma AllOwnedAreOrphans(db: Db, name: string, platform: set<string>)
    requires Sound(db, platform)
    ensures var names := OwnedActions(db, name);
            Orphans(DeleteExtension(StripGrants(db, names), name), names) == names
  {
    var names := OwnedActions(db, name);
    var deleted := DeleteExtension(StripGrants(db, names), name);
    forall a | a in names
      ensures a in deleted.actions && !Owned(deleted, a) && !Granted(deleted, a)
    {
      assert (a, name) in db.owners;
      assert forall p | p in deleted.owners :: p.0 != a;
    }
  }
}
