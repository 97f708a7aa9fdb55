/** Every step, a restart included, keeps the lifecycle invariant, and keeps an extension on track unless
    it is one of the steps that break its live routes. */
module LifecycleRuns {
  import opened Wrappers
  import opened Extensions
  import opened ExtensionLaws
  import opened LiveRoutes
  import opened ExtensionLifecycle
  import opened LifecycleLaws

  /** A step on behalf of one extension: the database and the handlers stay sound, and other extensions
      are not touched. */
  ghost predicate StepOk(s: Sys, t: Sys, name: string, platform: set<string>) {
    Sound(t.db, platform) && HandlersOk(t) && forall n :: n != name ==> Elsewhere(s, t, n)
  }

  lemma StepKeepsInv(s: Sys, t: Sys, name: string, platform: set<string>)
    requires Inv(s, platform) && StepOk(s, t, name, platform) && NameOk(t, name)
    ensures Inv(t, platform)
  {
    forall n | n != name
      ensures NameOk(t, n)
    {
      NameFrame(s, t, n);
    }
  }

  /** A step that only takes, moves or gives back one lock. */
  ghost predicate LockOnly(s: Sys, t: Sys, name: string) {
    t.(phases := s.phases) == s
    && forall n :: n != name ==> (n in s.phases <==> n in t.phases) && (n in s.phases ==> s.phases[n] == t.phases[n])
  }

  lemma LockStepOk(s: Sys, t: Sys, name: string, platform: set<string>)
    requires Inv(s, platform) && LockOnly(s, t, name)
    ensures StepOk(s, t, name, platform)
  {}

  /** A transaction together with a change of one lock. */
  lemma TransactionOk(s: Sys, after: Db, t: Sys, name: string, platform: set<string>)
    requires Sound(after, platform) && HandlersOk(s.(db := after)) && IdsAreNew(s.db, after)
    requires LockOnly(s.(db := after), t, name)
    requires forall n :: n != name ==> SameFor(s.db, after, n)
    ensures StepOk(s, t, name, platform)
  {}

  // ----- register -----

  lemma RegisterOk(s: Sys, t: Sys, m: Manifest, fetched: seq<Option<Schema>>, otherRules: bool, platform: set<string>)
    requires Inv(s, platform) && t == NextRegister(s, m, fetched, otherRules)
    ensures StepOk(s, t, m.name, platform)
    ensures NameOk(t, m.name)
  {
    assert NameOk(s, m.name);
    if t.db == s.db {
      LockStepOk(s, t, m.name, platform);
    } else {
      var after := Register(s.db, m, fetched).value;
      RegisterKeepsSound(s.db, m, fetched, platform);
      RegisterShape(s.db, m, fetched);
      NewRoutesKeepHandlers(s, m, fetched, after);
      forall n | n != m.name
        ensures SameFor(s.db, after, n)
      {
        RegisterSameFor(s.db, m, fetched, platform, n);
      }
      TransactionOk(s, after, t, m.name, platform);
    }
  }

  lemma NewRoutesKeepHandlers(s: Sys, m: Manifest, fetched: seq<Option<Schema>>, after: Db)
    requires HandlersOk(s) && |fetched| == |m.routes| && after.nextId == s.db.nextId + |m.routes|
    requires after.routes == RoutesWithout(s.db, m.name) + NewRoutes(m, fetched, s.db.nextId)
    ensures HandlersOk(s.(db := after)) && IdsAreNew(s.db, after)
  {
    HandlersFrame(s, after);
  }

  lemma RegisterTracks(s: Sys, t: Sys, m: Manifest, fetched: seq<Option<Schema>>, otherRules: bool)
    requires NameOk(s, m.name) && OnTrack(s, m.name) && t == NextRegister(s, m, fetched, otherRules)
    ensures OnTrack(t, m.name)
  {
    if ManifestOk(m, otherRules) && |fetched| == |m.routes| && Register(s.db, m, fetched).Some? {
      RegisterShape(s.db, m, fetched);
    }
  }

  // ----- replace -----

  lemma ReplaceCommitOk(s: Sys, t: Sys, name: string, fetched: seq<Option<Schema>>, platform: set<string>)
    requires Inv(s, platform) && t == NextReplaceCommit(s, name, fetched)
    ensures StepOk(s, t, name, platform)
    ensures NameOk(t, name)
  {
    assert NameOk(s, name);
    if t.db == s.db && LockOnly(s, t, name) {
      LockStepOk(s, t, name, platform);
      LockOnlyNameOk(s, t, name, fetched);
    } else {
      var p := s.phases[name];
      var after := Replace(s.db, p.m, fetched, p.oldActions, p.wasEnabled).value;
      ReplacedOk(s, p.m, fetched, after, platform);
      LockIsOnly(s.(db := after), name, ReplaceCommitted(HasRoutes(s.db, name)));
      TransactionOk(s, after, t, name, platform);
    }
  }

  lemma LockIsOnly(s: Sys, name: string, phase: Phase)
    ensures LockOnly(s, Lock(s, name, phase), name)
  {}

  lemma LockOnlyNameOk(s: Sys, t: Sys, name: string, fetched: seq<Option<Schema>>)
    requires NameOk(s, name) && t == NextReplaceCommit(s, name, fetched) && t.db == s.db
    ensures NameOk(t, name)
  {}

  lemma ReplacedOk(s: Sys, m: Manifest, fetched: seq<Option<Schema>>, after: Db, platform: set<string>)
    requires Inv(s, platform) && |fetched| == |m.routes| && m.name in s.db.extensions && ManifestOk(m, true)
    requires Replace(s.db, m, fetched, OwnedActions(s.db, m.name), s.db.extensions[m.name].enabled) == Some(after)
    ensures Sound(after, platform) && HandlersOk(s.(db := after)) && IdsAreNew(s.db, after) && m.name in after.extensions
    ensures forall n :: n != m.name ==> SameFor(s.db, after, n)
  {
    var oldActions, wasEnabled := OwnedActions(s.db, m.name), s.db.extensions[m.name].enabled;
    ReplaceKeepsSound(s.db, m, fetched, platform);
    ReplaceShape(s.db, m, fetched, oldActions, wasEnabled);
    NewRoutesKeepHandlers(s, m, fetched, after);
    forall n | n != m.name
      ensures SameFor(s.db, after, n)
    {
      ReplaceSameFor(s.db, m, fetched, oldActions, wasEnabled, platform, n);
    }
  }

  /** When no route of an extension is stored any more, the ones that are live are stale. */
  lemma DroppedAreStale(db: Db, t: Sys, name: string)
    requires LiveExactly(db, t.tables, name)
    requires forall id | id in db.routes && db.routes[id].owner == name :: id < t.db.nextId && id !in t.db.routes
    ensures Stale(t, name)
  {
    LiveMembers(db, t.tables, name);
  }

  lemma LiveMembers(db: Db, t: Tables, name: string)
    requires LiveExactly(db, t, name)
    ensures forall v, r :: r in Of(t.At(v), name) ==> r.Mounted? && r.id in db.routes && db.routes[r.id].owner == name
  {
    forall v, r | r in Of(t.At(v), name)
      ensures r.Mounted? && r.id in db.routes && db.routes[r.id].owner == name
    {
      LiveMember(db, t, name, v, r);
    }
  }

  /** A replace drops every route the extension had. */
  lemma ReplaceDropsAll(db: Db, m: Manifest, fetched: seq<Option<Schema>>, after: Db, platform: set<string>)
    requires Sound(db, platform) && |fetched| == |m.routes|
    requires after.routes == RoutesWithout(db, m.name) + NewRoutes(m, fetched, db.nextId)
    requires after.nextId == db.nextId + |m.routes|
    ensures forall id | id in db.routes && db.routes[id].owner == m.name :: id < after.nextId && id !in after.routes
  {
    forall id | id in db.routes && db.routes[id].owner == m.name
      ensures id < after.nextId && id !in after.routes
    {
      NewIds(db, m, fetched, id, platform);
    }
  }

  lemma NewIds(db: Db, m: Manifest, fetched: seq<Option<Schema>>, id: nat, platform: set<string>)
    requires Sound(db, platform) && |fetched| == |m.routes| && id in db.routes && db.routes[id].owner == m.name
    ensures id < db.nextId && id !in RoutesWithout(db, m.name) + NewRoutes(m, fetched, db.nextId)
  {}

  lemma LiveMember(db: Db, t: Tables, name: string, v: Visibility, r: Live)
    requires LiveExactly(db, t, name) && r in Of(t.At(v), name)
    ensures r.Mounted? && r.id in db.routes && db.routes[r.id].owner == name
  {
    assert r in multiset(Of(t.At(v), name));
    assert r in Persisted(db, name, v);
  }

  /** With exactly the persisted routes live, none is live exactly when none is stored. */
  lemma ExactlyNone(db: Db, t: Tables, name: string)
    requires LiveExactly(db, t, name)
    ensures HasRoutes(db, name) <==> !Unmounted(t, name)
  {
    if id :| id in db.routes && db.routes[id].owner == name {
      var v := db.routes[id].visibility;
      assert LiveOf(db, id) in Persisted(db, name, v);
      assert LiveOf(db, id) in multiset(Of(t.At(v), name));
    } else {
      forall v
        ensures Of(t.At(v), name) == []
      {
        assert Persisted(db, name, v) == {};
        assert |Of(t.At(v), name)| == |multiset(Of(t.At(v), name))|;
      }
    }
  }

  /** With none live, none live is exactly right for an extension without routes, and for no other. */
  lemma NoneExactly(db: Db, t: Tables, name: string)
    requires Unmounted(t, name)
    ensures LiveExactly(db, t, name) <==> !HasRoutes(db, name)
  {
    if HasRoutes(db, name) {
      if LiveExactly(db, t, name) {
        ExactlyNone(db, t, name);
      }
    } else {
      forall v
        ensures Persisted(db, name, v) == {}
      {}
    }
  }

  lemma ReplaceCommitTracks(s: Sys, t: Sys, name: string, fetched: seq<Option<Schema>>, platform: set<string>)
    requires Inv(s, platform) && OnTrack(s, name) && t == NextReplaceCommit(s, name, fetched)
    ensures OnTrack(t, name)
  {
    assert NameOk(s, name);
    if name in s.phases && s.phases[name].ReplaceChecked? && |fetched| == |s.phases[name].m.routes| {
      var p := s.phases[name];
      var replaced := Replace(s.db, p.m, fetched, p.oldActions, p.wasEnabled);
      if replaced.Some? {
        ReplacedTracks(s, p.m, fetched, replaced.value, platform);
        CommittedTracks(s.(db := replaced.value), name, HasRoutes(s.db, name));
      }
    }
  }

  lemma ReplacedTracks(s: Sys, m: Manifest, fetched: seq<Option<Schema>>, after: Db, platform: set<string>)
    requires Sound(s.db, platform) && m.name in s.db.extensions && |fetched| == |m.routes| && Right(s, m.name)
    requires Replace(s.db, m, fetched, OwnedActions(s.db, m.name), IsEnabled(s.db, m.name)) == Some(after)
    ensures if IsEnabled(after, m.name)
            then Stale(s.(db := after), m.name) && (HasRoutes(s.db, m.name) <==> !Unmounted(s.tables, m.name))
            else Unmounted(s.tables, m.name)
  {
    ReplaceShape(s.db, m, fetched, OwnedActions(s.db, m.name), IsEnabled(s.db, m.name));
    if IsEnabled(s.db, m.name) {
      ReplaceDropsAll(s.db, m, fetched, after, platform);
      DroppedAreStale(s.db, s.(db := after), m.name);
      ExactlyNone(s.db, s.tables, m.name);
    }
  }

  lemma CommittedTracks(c: Sys, name: string, hadRoutes: bool)
    requires if IsEnabled(c.db, name)
             then Stale(c, name) && (hadRoutes <==> !Unmounted(c.tables, name))
             else Unmounted(c.tables, name)
    ensures OnTrack(Lock(c, name, ReplaceCommitted(hadRoutes)), name)
  {}

  // ----- enable and disable -----

  lemma FlagOk(s: Sys, name: string, enabled: bool, t: Sys, platform: set<string>)
    requires Inv(s, platform) && name in s.db.extensions && Sound(SetEnabled(s.db, name, enabled), platform)
    requires LockOnly(s.(db := SetEnabled(s.db, name, enabled)), t, name)
    ensures StepOk(s, t, name, platform)
    ensures forall v :: Persisted(s.db, name, v) == Persisted(t.db, name, v)
  {
    var after := SetEnabled(s.db, name, enabled);
    HandlersFrame(s, after);
    forall n | n != name
      ensures SameFor(s.db, after, n)
    {
      FlagSameFor(s.db, name, enabled, n);
    }
    FlagSameFor(s.db, name, enabled, name);
    TransactionOk(s, after, t, name, platform);
  }

  lemma DisableOk(s: Sys, t: Sys, name: string, platform: set<string>)
    requires Inv(s, platform) && t == NextDisable(s, name)
    ensures StepOk(s, t, name, platform) && NameOk(t, name)
    ensures OnTrack(s, name) ==> OnTrack(t, name)
  {
    assert NameOk(s, name);
    if name !in s.phases && name in s.db.extensions {
      DisableKeepsSound(s.db, name, platform);
      FlagOk(s, name, false, t, platform);
    } else {
      LockStepOk(s, t, name, platform);
    }
  }

  lemma FinishDisableOk(s: Sys, t: Sys, name: string, platform: set<string>)
    requires Inv(s, platform) && t == NextFinishDisable(s, name)
    ensures StepOk(s, t, name, platform) && NameOk(t, name)
    ensures OnTrack(s, name) ==> OnTrack(t, name)
  {
    assert NameOk(s, name);
    if name in s.phases && s.phases[name].Disabling? {
      DisableKeepsSound(s.db, name, platform);
      FlagOk(s, name, false, t, platform);
    } else {
      LockStepOk(s, t, name, platform);
    }
  }

  lemma EnableCommitOk(s: Sys, t: Sys, name: string, platform: set<string>)
    requires Inv(s, platform) && t == NextEnableCommit(s, name)
    ensures StepOk(s, t, name, platform) && NameOk(t, name)
    ensures OnTrack(s, name) ==> OnTrack(t, name)
  {
    assert NameOk(s, name);
    if name in s.phases && s.phases[name].Enabling? && Enable(s.db, name).Some? {
      EnableKeepsSound(s.db, name, platform);
      FlagOk(s, name, true, t, platform);
      EnabledBuilt(s.db, t.db, name, s.phases[name].built, s.phases[name].existed);
    } else {
      LockStepOk(s, t, name, platform);
    }
  }

  lemma EnabledBuilt(db: Db, after: Db, name: string, built: Tables, existed: bool)
    requires BuiltOk(db, name, built, existed) && name in after.extensions
    requires forall v :: Persisted(db, name, v) == Persisted(after, name, v)
    ensures BuiltOk(after, name, built, existed)
  {}

  // ----- refreshing schemas, roles, deregistering -----

  lemma RefreshHandlers(s: Sys, names: set<string>, refetched: map<nat, Schema>)
    requires HandlersOk(s) && RoutesSound(s.db)
    ensures HandlersOk(s.(db := Refresh(s.db, names, refetched))) && IdsAreNew(s.db, Refresh(s.db, names, refetched))
  {
    var after := Refresh(s.db, names, refetched);
    forall id | id in after.routes && id < s.db.nextId
      ensures LiveOf(s.db, id) == LiveOf(after, id)
      ensures s.db.routes[id].mode == Declared ==> after.routes[id] == s.db.routes[id]
    {
      assert RouteSound(s.db, s.db.routes[id]);
    }
    HandlersFrame(s, after);
  }

  lemma RefreshedOk(s: Sys, names: set<string>, refetched: map<nat, Schema>, platform: set<string>)
    requires Inv(s, platform)
    ensures var after := Refresh(s.db, names, refetched);
            Sound(after, platform) && HandlersOk(s.(db := after)) && IdsAreNew(s.db, after) && forall n :: SameFor(s.db, after, n)
  {
    RefreshKeepsSound(s.db, names, refetched, platform);
    RefreshHandlers(s, names, refetched);
    forall n
      ensures SameFor(s.db, Refresh(s.db, names, refetched), n)
    {
      RefreshSameFor(s.db, names, refetched, platform, n);
    }
  }

  lemma EnableRefreshOk(s: Sys, t: Sys, name: string, refetched: map<nat, Schema>, platform: set<string>)
    requires Inv(s, platform) && t == NextEnableRefresh(s, name, refetched)
    ensures StepOk(s, t, name, platform)
    ensures NameOk(t, name)
    ensures OnTrack(s, name) ==> OnTrack(t, name)
  {
    assert NameOk(s, name);
    if name in s.phases {
      LockStepOk(s, t, name, platform);
    } else {
      RefreshedOk(s, {name}, refetched, platform);
      RefreshedLock(s, Refresh(s.db, {name}, refetched), name, platform);
    }
  }

  lemma RefreshedLock(s: Sys, after: Db, name: string, platform: set<string>)
    requires name !in s.phases && Sound(after, platform) && HandlersOk(s.(db := after)) && IdsAreNew(s.db, after)
    requires forall n :: SameFor(s.db, after, n)
    ensures StepOk(s, Lock(s.(db := after), name, Refreshed), name, platform)
    ensures OnTrack(s, name) ==> OnTrack(Lock(s.(db := after), name, Refreshed), name)
  {
    TransactionOk(s, after, Lock(s.(db := after), name, Refreshed), name, platform);
    assert SameFor(s.db, after, name);
  }

  lemma DeregisterOk(s: Sys, t: Sys, name: string, platform: set<string>)
    requires Inv(s, platform) && t == NextDeregister(s, name)
    ensures StepOk(s, t, name, platform) && NameOk(t, name)
    ensures OnTrack(s, name) ==> OnTrack(t, name)
  {
    assert NameOk(s, name);
    if name !in s.phases && Deregister(s.db, name).Some? {
      var after := Deregister(s.db, name).value;
      DeregisterKeepsSound(s.db, name, platform);
      DeregisterShape(s.db, name);
      HandlersFrame(s, after);
      forall n | n != name
        ensures SameFor(s.db, after, n)
      {
        DeregisterSameFor(s.db, name, n);
      }
      TransactionOk(s, after, t, name, platform);
    } else {
      LockStepOk(s, t, name, platform);
    }
  }

  lemma RolesOk(s: Sys, t: Sys, platform: set<string>)
    requires Inv(s, platform) && t == s.(db := s.db.(roles := t.db.roles, grants := t.db.grants)) && Sound(t.db, platform)
    ensures Inv(t, platform)
    ensures forall n :: Elsewhere(s, t, n)
  {
    HandlersFrame(s, t.db);
    forall n
      ensures Elsewhere(s, t, n) && NameOk(t, n)
    {
      RolesSameFor(s.db, t.db, n);
      NameFrame(s, t, n);
    }
  }

  // ----- steps on the live tables -----

  /** Publishing built routes, or none, and moving on. */
  lemma PublishOk(s: Sys, t: Sys, name: string, built: Tables, existed: bool, platform: set<string>)
    requires Inv(s, platform) && BuiltOk(s.db, name, built, existed)
    requires LockOnly(PublishIn(s, name, built), t, name)
    ensures StepOk(s, t, name, platform)
    ensures forall v :: Of(t.tables.At(v), name) == built.At(v)
  {
    PublishHandlers(s, name, built, existed);
    PublishTables(s, name, built, existed, name);
    forall n | n != name
      ensures Elsewhere(s, t, n)
    {
      PublishTables(s, name, built, existed, n);
    }
  }

  lemma RemountedOk(s: Sys, t: Sys, name: string, built: Tables, platform: set<string>)
    requires Inv(s, platform) && IsEnabled(s.db, name) && Exactly(s.db, name, built)
    requires t == Release(PublishIn(s, name, built), name)
    ensures StepOk(s, t, name, platform) && name !in t.phases && Right(t, name)
  {
    PublishOk(s, t, name, built, true, platform);
  }

  lemma RemountOk(s: Sys, t: Sys, name: string, listing: seq<nat>, broken: set<nat>, platform: set<string>)
    requires Inv(s, platform) && t == NextRemount(s, name, listing, broken)
    ensures StepOk(s, t, name, platform)
    ensures NameOk(t, name)
    ensures OnTrack(s, name) ==> OnTrack(t, name)
  {
    assert NameOk(s, name);
    if name in s.phases && s.phases[name].Remounting? && IsListing(s.db, name, listing) {
      match BuildPersisted(s.db, name, listing, broken) {
        case None => PublishOk(s, t, name, NOTHING, false, platform);
        case Some(built) =>
          PersistedBuild(s.db, name, listing, broken);
          RemountedOk(s, t, name, built, platform);
      }
    } else {
      LockStepOk(s, t, name, platform);
    }
  }

  lemma EnableBuildOk(s: Sys, t: Sys, name: string, listing: seq<nat>, broken: set<nat>, platform: set<string>)
    requires Inv(s, platform) && t == NextEnableBuild(s, name, listing, broken)
    ensures StepOk(s, t, name, platform)
    ensures NameOk(t, name)
    ensures OnTrack(s, name) ==> OnTrack(t, name)
  {
    assert NameOk(s, name);
    LockStepOk(s, t, name, platform);
    if name in s.phases && s.phases[name].Refreshed? && IsListing(s.db, name, listing) {
      if BuildPersisted(s.db, name, listing, broken).Some? {
        PersistedBuild(s.db, name, listing, broken);
      }
    }
  }

  /** The publication of an enable: right, unless the routes were built before the extension was there. */
  lemma EnablePublishOk(s: Sys, t: Sys, name: string, platform: set<string>)
    requires Inv(s, platform) && t == NextEnablePublish(s, name)
    ensures StepOk(s, t, name, platform) && NameOk(t, name)
    ensures OnTrack(s, name) && !LateBreaks(s, name) ==> OnTrack(t, name)
    ensures LateBreaks(s, name) ==>
              name !in t.phases && !Right(t, name)
  {
    assert NameOk(s, name);
    if name in s.phases && s.phases[name].Publishing? {
      PublishOk(s, t, name, s.phases[name].built, s.phases[name].existed, platform);
      if !s.phases[name].existed {
        NoneExactly(t.db, t.tables, name);
      }
    } else {
      LockStepOk(s, t, name, platform);
    }
  }

  lemma UnmountOk(s: Sys, t: Sys, name: string, platform: set<string>)
    requires Inv(s, platform) && t == NextUnmount(s, name)
    ensures StepOk(s, t, name, platform) && NameOk(t, name)
    ensures OnTrack(s, name) ==> OnTrack(t, name)
  {
    assert NameOk(s, name);
    if name in s.phases && s.phases[name].Unmounting? {
      PublishOk(s, t, name, NOTHING, false, platform);
      assert name !in t.phases && !IsEnabled(t.db, name);
    } else {
      LockStepOk(s, t, name, platform);
    }
  }

  /** Taking the lock for a replace. */
  lemma ReplaceCheckOk(s: Sys, t: Sys, name: string, m: Manifest, otherRules: bool, platform: set<string>)
    requires Inv(s, platform) && t == NextReplaceCheck(s, name, m, otherRules)
    ensures StepOk(s, t, name, platform) && NameOk(t, name)
  {
    assert NameOk(s, name);
    LockStepOk(s, t, name, platform);
  }

  lemma ReplaceCheckTracks(s: Sys, t: Sys, name: string, m: Manifest, otherRules: bool)
    requires OnTrack(s, name) && t == NextReplaceCheck(s, name, m, otherRules)
    ensures OnTrack(t, name)
  {}

  /** Giving a lock back before any commit. */
  lemma GiveUpOk(s: Sys, t: Sys, name: string, platform: set<string>)
    requires Inv(s, platform) && t == NextGiveUp(s, name)
    ensures StepOk(s, t, name, platform) && NameOk(t, name)
  {
    assert NameOk(s, name);
    LockStepOk(s, t, name, platform);
  }

  lemma GiveUpTracks(s: Sys, t: Sys, name: string)
    requires OnTrack(s, name) && t == NextGiveUp(s, name)
    ensures OnTrack(t, name)
  {}

  // ----- reading the details back -----

  lemma DetailStepOk(s: Sys, t: Sys, name: string, platform: set<string>)
    requires Inv(s, platform) && t == NextDetail(s, name)
    ensures StepOk(s, t, name, platform) && NameOk(t, name)
  {
    assert NameOk(s, name);
    DetailMovesLock(s, t, name);
    LockStepOk(s, t, name, platform);
  }

  lemma DetailMovesLock(s: Sys, t: Sys, name: string)
    requires NameOk(s, name) && t == NextDetail(s, name)
    ensures LockOnly(s, t, name) && NameOk(t, name)
  {}

  /** On track before it, an extension is on track after the step exactly when the step does not break
      it; broken, it is left with the lock free and the wrong live routes. */
  lemma DetailTracks(s: Sys, t: Sys, name: string)
    requires NameOk(s, name) && OnTrack(s, name) && t == NextDetail(s, name)
    ensures !DetailBreaks(s, name) ==> OnTrack(t, name)
    ensures DetailBreaks(s, name) ==> name !in t.phases && !Right(t, name)
  {
    if name in s.phases && !DetailOk(s.db, s.allowed, name) {
      match s.phases[name] {
        case ReplaceCommitted(hadRoutes) => StaleIsWrong(s, name, hadRoutes);
        case EnableCommitted(_, _, changed) => if changed { NoneExactly(s.db, s.tables, name); }
        case DisableCommitted(changed) => if changed { ExactlyNone(s.db, s.tables, name); }
        case _ =>
      }
    }
  }

  lemma StaleIsWrong(s: Sys, name: string, hadRoutes: bool)
    requires IsEnabled(s.db, name) ==> Stale(s, name) && (hadRoutes <==> !Unmounted(s.tables, name))
    ensures IsEnabled(s.db, name) ==> (LiveExactly(s.db, s.tables, name) <==> !hadRoutes && !HasRoutes(s.db, name))
  {
    if IsEnabled(s.db, name) {
      if hadRoutes {
        var v :| Of(s.tables.At(v), name) != [];
        var r := Of(s.tables.At(v), name)[0];
        assert r in Of(s.tables.At(v), name);
        if LiveExactly(s.db, s.tables, name) {
          LiveMember(s.db, s.tables, name, v, r);
        }
      } else {
        NoneExactly(s.db, s.tables, name);
      }
    }
  }

  // ----- restart -----

  lemma {:induction false} CoreHasNone(routes: seq<Live>, name: string)
    ensures Of(CoreOnly(routes), name) == []
    ensures forall r :: r in CoreOnly(routes) ==> r.Core?
  {
    if routes != [] {
      var init, last := routes[..|routes| - 1], routes[|routes| - 1];
      CoreHasNone(init, name);
      if last.Core? {
        OfMore(CoreOnly(init), last, name);
      } else {
        assert CoreOnly(routes) == CoreOnly(init);
      }
    }
  }

  ghost predicate Started(db: Db, t: Tables, order: seq<string>, listings: map<string, seq<nat>>, broken: set<nat>, n: string)
    requires Listed(db, order, listings)
  {
    if n in order && BuildPersisted(db, n, listings[n], broken).Some? then LiveExactly(db, t, n) else Unmounted(t, n)
  }

  /** After the startup loop: every extension it reached and could build is mounted, no other is. */
  lemma {:induction false} LoadAllMounts(db: Db, core: Tables, order: seq<string>, listings: map<string, seq<nat>>,
                                         broken: set<nat>, n: string)
    requires RoutesSound(db) && Listed(db, order, listings) && Unmounted(core, n)
    ensures Started(db, LoadAll(db, core, order, listings, broken), order, listings, broken, n)
    decreases |order|
  {
    if order != [] {
      var init, name := order[..|order| - 1], order[|order| - 1];
      assert order == init + [name];
      LoadAllMounts(db, core, init, listings, broken, n);
      if BuildPersisted(db, name, listings[name], broken).Some? {
        LoadOneMounts(db, LoadAll(db, core, init, listings, broken), name, listings[name], broken, n);
      }
    }
  }

  lemma LoadOneMounts(db: Db, t: Tables, name: string, listing: seq<nat>, broken: set<nat>, n: string)
    requires RoutesSound(db) && IsEnabled(db, name) && IsListing(db, name, listing)
    requires BuildPersisted(db, name, listing, broken).Some?
    ensures var built := BuildPersisted(db, name, listing, broken).value;
            && LiveExactly(db, Publish(t, name, built), name)
            && (n != name ==> forall v :: Of(Publish(t, name, built).At(v), n) == Of(t.At(v), n))
  {
    PersistedBuild(db, name, listing, broken);
    var s := Sys(db, t, map[], {}, map[], {});
    PublishTables(s, name, BuildPersisted(db, name, listing, broken).value, true, n);
  }

  lemma {:induction false} LoadAllLive(db: Db, core: Tables, order: seq<string>, listings: map<string, seq<nat>>,
                                       broken: set<nat>, v: Visibility, r: Live)
    requires RoutesSound(db) && Listed(db, order, listings) && (forall c <- core.At(v) :: c.Core?)
    requires r in LoadAll(db, core, order, listings, broken).At(v)
    ensures IsLive(db, r)
    decreases |order|
  {
    if order != [] {
      var init, name := order[..|order| - 1], order[|order| - 1];
      var before := LoadAll(db, core, init, listings, broken);
      match BuildPersisted(db, name, listings[name], broken) {
        case None => LoadAllLive(db, core, init, listings, broken, v, r);
        case Some(built) =>
          PersistedBuild(db, name, listings[name], broken);
          ExceptMembers(before.At(v), name, r);
          if r in built.At(v) {
            ExactMembers(db, name, built, v, r);
          } else {
            LoadAllLive(db, core, init, listings, broken, v, r);
          }
      }
    }
  }

  lemma LiveHandlers(db: Db, t: Tables, allowed: set<string>)
    requires RoutesSound(db) && forall v :: forall r <- t.At(v) :: IsLive(db, r)
    ensures HandlersOk(Sys(db, t, map[], HandlersOf(t), map[], allowed))
  {
    forall h | h in HandlersOf(t)
      ensures h.0 in db.routes && DeclaresAs(db, h)
    {
      var v := if h in HandlersIn(t.public) then Public else if h in HandlersIn(t.internal) then Internal else Device;
      var r :| r in t.At(v) && r.Mounted? && r.declared.Some? && h == (r.id, r.declared.value);
      assert IsLive(db, r);
    }
  }

  lemma CoreTablesEmpty(t: Tables, n: string)
    ensures Unmounted(CoreTables(t), n)
    ensures forall v :: forall c <- CoreTables(t).At(v) :: c.Core?
  {
    CoreHasNone(t.public, n);
    CoreHasNone(t.internal, n);
    CoreHasNone(t.device, n);
  }

  lemma LoadAllHandlers(db: Db, core: Tables, order: seq<string>, listings: map<string, seq<nat>>, broken: set<nat>,
                        allowed: set<string>)
    requires RoutesSound(db) && Listed(db, order, listings)
    requires forall v :: forall c <- core.At(v) :: c.Core?
    ensures var t := LoadAll(db, core, order, listings, broken); HandlersOk(Sys(db, t, map[], HandlersOf(t), map[], allowed))
  {
    var t := LoadAll(db, core, order, listings, broken);
    forall v, r | r in t.At(v)
      ensures IsLive(db, r)
    {
      LoadAllLive(db, core, order, listings, broken, v, r);
    }
    LiveHandlers(db, t, allowed);
  }

  lemma RestartedSound(db: Db, start: Start, platform: set<string>)
    requires Sound(db, platform)
    ensures Sound(Restarted(db, start), platform)
  {
    RefreshKeepsSound(db, EnabledNames(db), start.refetched, platform);
  }

  /** A restart from any state keeps the invariant. */
  lemma RestartKeeps(s: Sys, start: Start, platform: set<string>)
    requires Inv(s, platform)
    ensures Inv(NextRestart(s, start), platform)
  {
    RestartedSound(s.db, start, platform);
    if Listed(Restarted(s.db, start), start.order, start.listings) {
      CoreTablesEmpty(s.tables, "");
      LoadAllHandlers(Restarted(s.db, start), CoreTables(s.tables), start.order, start.listings, start.broken, start.allowed);
    }
  }

  /** A restart leaves every extension right, but for the enabled ones with routes it did not reach or
      could not build. */
  lemma RestartTracks(s: Sys, start: Start, platform: set<string>, n: string)
    requires Inv(s, platform) && OnTrack(s, n)
    ensures !StartBreaks(s, start, n) ==> OnTrack(NextRestart(s, start), n)
    ensures StartBreaks(s, start, n) ==> n !in NextRestart(s, start).phases && !Right(NextRestart(s, start), n)
  {
    var db := Restarted(s.db, start);
    RestartedSound(s.db, start, platform);
    if Listed(db, start.order, start.listings) {
      var t := NextRestart(s, start);
      CoreTablesEmpty(s.tables, n);
      LoadAllMounts(db, CoreTables(s.tables), start.order, start.listings, start.broken, n);
      if Unmounted(t.tables, n) {
        NoneExactly(db, t.tables, n);
      }
    }
  }
}
