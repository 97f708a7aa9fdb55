/** When each transaction on the extension tables goes through, and what exactly it changes, said of the
    stored rows. */
module ExtensionEffects {
  import opened Wrappers
  import opened ReplaceFilters
  import opened Grouping
  import opened Extensions
  import opened ExtensionLaws
  import opened EmptyActionName

  // ----- manifests -----

  /** A route entry is accepted exactly when the row it becomes is sound, where its action exists and is
      no other extension's. */
  lemma AcceptedIffSound(db: Db, name: string, r: RouteSpec)
    requires name in db.extensions
    requires r.requiredAction.Some? ==> r.requiredAction.value in db.actions
    requires r.requiredAction.Some? ==> forall p :: p in db.owners && p.0 == r.requiredAction.value ==> p.1 == name
    ensures RouteOk(db.extensions[name].upstreams, r) <==> RouteSound(db, RowOf(name, r, None))
  {
    assert r.requiredAction.Some? ==> !OwnedByOther(db, r.requiredAction.value, Some(name));
  }

  /** A manifest keeps the rules exactly when the other rules hold, no action is claimed twice and every
      route entry is accepted. */
  lemma ManifestMeans(m: Manifest, otherRules: bool)
    ensures ManifestOk(m, otherRules) <==>
            otherRules && |ActionSet(m)| == |m.actions| && forall r :: r in m.routes ==> RouteOk(m.upstreams, r)
  {
    DistinctIsCount(m.actions, (a: string) => a);
    assert Images(m.actions, (a: string) => a) == ActionSet(m);
    if forall r :: r in m.routes ==> RouteOk(m.upstreams, r) {
      assert forall i :: 0 <= i < |m.routes| ==> m.routes[i] in m.routes;
    }
  }

  // ----- registering and replacing -----

  /** The action is unowned. */
  ghost predicate Free(db: Db, a: string) {
    forall p :: p in db.owners ==> p.0 != a
  }

  /** A route entry may require what the manifest claims, or what exists and, unless it is the empty name,
      belongs to nobody. */
  ghost predicate MayRequire(db: Db, m: Manifest, r: RouteSpec) {
    r.requiredAction.Some? ==>
      var a := r.requiredAction.value;
      a in m.actions || (a in db.actions && (a == "" || Free(db, a)))
  }

  /** No other extension has the remote name, and every named action of a contribution exists or is
      claimed. */
  ghost predicate UiFits(db: Db, m: Manifest) {
    m.ui.Some? ==>
      && (forall n :: n in db.extensions && n != m.name && db.extensions[n].ui.Some? ==>
            db.extensions[n].ui.value.remoteName != m.ui.value.remoteName)
      && forall c :: c in m.ui.value.contributions && c.requiredAction.Some? && c.requiredAction.value != "" ==>
           c.requiredAction.value in m.actions || c.requiredAction.value in db.actions
  }

  lemma UiMeans(db: Db, m: Manifest, current: Option<string>)
    requires current == Some(m.name) || (current == None && m.name !in db.extensions)
    ensures UiOk(db, m, current) <==> UiFits(db, m)
  {
    if m.ui.Some? {
      var cs := m.ui.value.contributions;
      forall c | c in cs
        ensures exists i :: 0 <= i < |cs| && cs[i] == c
      {}
      assert RemoteNameTaken(db, m.ui.value.remoteName, current) <==>
             !(forall n :: n in db.extensions && n != m.name && db.extensions[n].ui.Some? ==>
                 db.extensions[n].ui.value.remoteName != m.ui.value.remoteName);
    }
  }

  lemma FreeMeans(db: Db)
    ensures forall a :: Owned(db, a) <==> !Free(db, a)
  {
    forall a
      ensures Owned(db, a) <==> !Free(db, a)
    {
      if p :| p in db.owners && p.0 == a {
        assert Owned(db, a);
      }
    }
  }

  /** A registration goes through exactly when the name is free, every claimed action is new, every
      required one may be, and the UI section fits. */
  lemma RegisterSucceedsIff(db: Db, m: Manifest, fetched: seq<Option<Schema>>, platform: set<string>)
    requires |fetched| == |m.routes| && Sound(db, platform)
    ensures Register(db, m, fetched).Some? <==>
            && m.name !in db.extensions && (forall a :: a in m.actions ==> a !in db.actions)
            && (forall r :: r in m.routes ==> MayRequire(db, m, r)) && UiFits(db, m)
  {
    if m.name !in db.extensions {
      UiMeans(db, m, None);
    }
    RequirementsMean(db, m);
    ClaimsMean(db, m);
    NoneOwns(db);
  }

  lemma NoneOwns(db: Db)
    ensures forall a :: OwnedByOther(db, a, None) <==> Owned(db, a)
  {
    forall a
      ensures OwnedByOther(db, a, None) <==> Owned(db, a)
    {
      if p :| p in db.owners && p.0 == a {
        assert OwnedByOther(db, a, None);
      }
    }
  }

  lemma ClaimsMean(db: Db, m: Manifest)
    requires OwnersSound(db)
    ensures (forall a | a in m.actions :: !OwnedByOther(db, a, None) && (Owned(db, a) || a !in db.actions)) <==>
            (forall a :: a in m.actions ==> a !in db.actions)
  {
    NoneOwns(db);
    forall a
      ensures !OwnedByOther(db, a, None) && (Owned(db, a) || a !in db.actions) <==> a !in db.actions
    {}
  }

  /** What a route's requirement is checked for: a named one by the manifest check, any by the foreign
      key. */
  predicate RequirementOk(db: Db, m: Manifest, r: RouteSpec) {
    && (Named(r.requiredAction) && r.requiredAction.value !in m.actions ==>
          !Owned(db, r.requiredAction.value) && r.requiredAction.value in db.actions)
    && (r.requiredAction.Some? ==> r.requiredAction.value in db.actions + ActionSet(m))
  }

  lemma RequirementMeans(db: Db, m: Manifest, r: RouteSpec)
    ensures RequirementOk(db, m, r) <==> MayRequire(db, m, r)
  {
    FreeMeans(db);
  }

  lemma RequirementsMean(db: Db, m: Manifest)
    ensures (forall r :: r in m.routes ==> MayRequire(db, m, r)) <==>
            forall i | 0 <= i < |m.routes| :: RequirementOk(db, m, m.routes[i])
  {
    forall r
      ensures RequirementOk(db, m, r) <==> MayRequire(db, m, r)
    {
      RequirementMeans(db, m, r);
    }
    if forall r :: r in m.routes ==> MayRequire(db, m, r) {
      forall i | 0 <= i < |m.routes|
        ensures RequirementOk(db, m, m.routes[i])
      {
        assert m.routes[i] in m.routes;
      }
    }
  }

  /** A replacement passes its transaction's checks exactly when every claimed action is new or the
      extension's own, every required one may be, the UI section fits and, if the extension was enabled,
      conflicts with no enabled one; and it goes through exactly when, besides, the foreign keys have no
      quarrel over the empty name. */
  lemma ReplaceGoesThroughIff(db: Db, m: Manifest, fetched: seq<Option<Schema>>, wasEnabled: bool, platform: set<string>)
    requires |fetched| == |m.routes| && Sound(db, platform)
    ensures Replace(db, m, fetched, OwnedActions(db, m.name), wasEnabled).Some? <==>
            && m.name in db.extensions
            && (forall a :: a in m.actions && a in db.actions ==> (a, m.name) in db.owners)
            && (forall r :: r in m.routes ==> MayRequire(db, m, r)) && UiFits(db, m)
            && (wasEnabled ==> !ReplaceConflict(db, m.name, m.ui))
            && !EmptyNameStillNeeded(db, m)
  {
    if m.name in db.extensions {
      UiMeans(db, m, Some(m.name));
      OwnClaimsMean(db, m);
      RequirementsMean(db, m);
      if OwnershipOk(db, m, Some(m.name)) && UiOk(db, m, Some(m.name)) && (wasEnabled ==> !ReplaceConflict(db, m.name, m.ui)) {
        ReplaceSucceedsIff(db, m, fetched, wasEnabled, platform);
        CheckedRequirements(db, m);
      } else if !OwnershipOk(db, m, Some(m.name)) {
        Unchecked(db, m);
      }
    }
  }

  lemma Unchecked(db: Db, m: Manifest)
    requires !OwnershipOk(db, m, Some(m.name))
    ensures (forall a | a in m.actions :: !OwnedByOther(db, a, Some(m.name)) && (Owned(db, a) || a !in db.actions)) ==>
              exists i | 0 <= i < |m.routes| :: !RequirementOk(db, m, m.routes[i])
  {
    if forall a | a in m.actions :: !OwnedByOther(db, a, Some(m.name)) && (Owned(db, a) || a !in db.actions) {
      var i :| 0 <= i < |m.routes| && Named(m.routes[i].requiredAction) && m.routes[i].requiredAction.value !in m.actions
               && !(!Owned(db, m.routes[i].requiredAction.value) && m.routes[i].requiredAction.value in db.actions);
      assert !RequirementOk(db, m, m.routes[i]);
    }
  }

  lemma CheckedRequirements(db: Db, m: Manifest)
    requires OwnershipOk(db, m, Some(m.name))
    ensures (forall i | 0 <= i < |m.routes| :: RequirementOk(db, m, m.routes[i])) <==> !EmptyNameMissing(db, m)
  {
    OnlyEmptyMissing(db, m);
    if !EmptyNameMissing(db, m) {
      forall i | 0 <= i < |m.routes|
        ensures RequirementOk(db, m, m.routes[i])
      {}
    } else {
      var i :| 0 <= i < |m.routes| && m.routes[i].requiredAction.Some?
               && m.routes[i].requiredAction.value !in db.actions + ActionSet(m);
      assert !RequirementOk(db, m, m.routes[i]);
    }
  }

  lemma OwnClaimsMean(db: Db, m: Manifest)
    requires OwnersSound(db)
    ensures (forall a | a in m.actions :: !OwnedByOther(db, a, Some(m.name)) && (Owned(db, a) || a !in db.actions)) <==>
            (forall a :: a in m.actions && a in db.actions ==> (a, m.name) in db.owners)
  {
    forall a
      ensures !OwnedByOther(db, a, Some(m.name)) && (Owned(db, a) || a !in db.actions) <==>
              (a in db.actions ==> (a, m.name) in db.owners)
    {
      if p :| p in db.owners && p.0 == a {
        assert p.1 != m.name ==> OwnedByOther(db, a, Some(m.name));
        assert p == (p.0, p.1);
      }
    }
  }

  /** The check before a replacement's network waits: the extension exists, the manifest is its own and
      keeps the rules, and it keeps every action of the extension that some role holds. */
  lemma ReplaceCheckMeans(db: Db, name: string, m: Manifest, otherRules: bool)
    ensures ReplaceCheck(db, name, m, otherRules) <==>
            && name in db.extensions && m.name == name && ManifestOk(m, otherRules)
            && forall a, g :: (a, name) in db.owners && g in db.grants && g.1 == a ==> a in m.actions
  {
    if ReplaceCheck(db, name, m, otherRules) {
      forall a, g | (a, name) in db.owners && g in db.grants && g.1 == a
        ensures a in m.actions
      {
        assert a in OwnedActions(db, name) && Granted(db, a);
      }
    } else if name in db.extensions && m.name == name && ManifestOk(m, otherRules) {
      var a :| a in OwnedActions(db, name) - ActionSet(m) && Granted(db, a);
      var p :| p in db.owners && p.1 == name && p.0 == a;
      assert p == (a, name);
    }
  }

  // ----- the other transactions -----

  /** Enabling goes through exactly when the extension exists and no other enabled one replaces the same
      slot in an overlapping context; it sets one flag, and disabling clears it. */
  lemma FlagEffects(db: Db, name: string)
    ensures Enable(db, name).Some? <==> name in db.extensions && !ReplaceConflict(db, name, db.extensions[name].ui)
    ensures Disable(db, name).Some? <==> name in db.extensions
    ensures Enable(db, name).Some? ==>
              Enable(db, name).value.(extensions := db.extensions) == db && Flagged(db, Enable(db, name).value, name, true)
    ensures Disable(db, name).Some? ==>
              Disable(db, name).value.(extensions := db.extensions) == db && Flagged(db, Disable(db, name).value, name, false)
  {}

  ghost predicate Flagged(db: Db, after: Db, name: string, enabled: bool) {
    && after.extensions.Keys == db.extensions.Keys
    && forall n :: n in db.extensions ==>
         && after.extensions[n].ui == db.extensions[n].ui && after.extensions[n].upstreams == db.extensions[n].upstreams
         && after.extensions[n].enabled == if n == name then enabled else db.extensions[n].enabled
  }

  /** A refetch changes mode and body of the referring routes of the named extensions, to the schema
      fetched or to none, and nothing else. */
  lemma RefreshEffect(db: Db, names: set<string>, refetched: map<nat, Schema>, id: nat, platform: set<string>)
    requires Sound(db, platform)
    ensures var after := Refresh(db, names, refetched);
            && after.(routes := db.routes) == db && after.routes.Keys == db.routes.Keys
            && (id in db.routes ==>
                  var was, now := db.routes[id], after.routes[id];
                  if was.bodyRef && was.owner in names then
                    && now.(mode := was.mode, body := was.body) == was
                    && (id in refetched ==> now.mode == UpstreamDeclared && now.body == Some(refetched[id]))
                    && (id !in refetched ==> now.mode == UnreachableRef && now.body == None)
                  else now == was)
  {
    if id in db.routes {
      assert RouteSound(db, db.routes[id]);
    }
  }

  /** Granting gives a role the existing ones among some actions, revoking takes one away, and deleting
      takes the role with all it holds; the rest stays. */
  lemma RoleEffects(db: Db, role: int, actions: set<string>, action: string, g: (int, string), r: int)
    ensures g in Grant(db, role, actions).grants <==>
            g in db.grants || (g.0 == role && g.1 in actions && g.1 in db.actions)
    ensures r in Grant(db, role, actions).roles <==> r in db.roles || r == role
    ensures g in Revoke(db, role, action).grants <==> g in db.grants && !(g.0 == role && g.1 == action)
    ensures Revoke(db, role, action).roles == db.roles
    ensures g in DeleteRole(db, role).grants <==> g in db.grants && g.0 != role
    ensures r in DeleteRole(db, role).roles <==> r in db.roles && r != role
    ensures forall after :: after in {Grant(db, role, actions), Revoke(db, role, action), DeleteRole(db, role)} ==>
              after.(roles := db.roles, grants := db.grants) == db
  {}
}
