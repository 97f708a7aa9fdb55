/** What holds in every state of every run of the extension system, and exactly which steps make an
    extension's live routes wrong. */
module LifecycleTheorems {
  import opened Wrappers
  import opened Extensions
  import opened ExtensionLaws
  import opened EmptyActionName
  import opened LiveRoutes
  import opened ExtensionLifecycle
  import opened LifecycleLaws
  import opened LifecycleRuns

  /** A first start: no extension yet, only the application's own routes. */
  ghost predicate Initial(s: Sys, platform: set<string>) {
    && s.db.extensions == map[] && s.db.routes == map[] && s.db.owners == {}
    && platform <= s.db.actions && GrantsSound(s.db)
    && s.tables == CoreTables(s.tables)
    && s == Sys(s.db, s.tables, map[], {}, map[], s.allowed)
  }

  ghost predicate IsRun(states: seq<Sys>, steps: seq<Step>) {
    && |states| == |steps| + 1
    && forall i :: 0 <= i < |steps| ==> states[i + 1] == Next(states[i], steps[i])
  }

  lemma InitialIsOk(s: Sys, platform: set<string>)
    requires Initial(s, platform)
    ensures Inv(s, platform)
  {
    CoreTablesEmpty(s.tables, "");
    forall v, r | r in s.tables.At(v)
      ensures IsLive(s.db, r)
    {
      assert r in CoreTables(s.tables).At(v);
    }
    LiveHandlers(s.db, s.tables, s.allowed);
    forall v
      ensures HandlersIn(s.tables.At(v)) == {}
    {
      assert forall r <- CoreTables(s.tables).At(v) :: r.Core?;
    }
    assert HandlersIn(s.tables.At(Public)) == HandlersIn(s.tables.At(Internal)) == HandlersIn(s.tables.At(Device)) == {};
  }

  lemma InitialIsRight(s: Sys, platform: set<string>, n: string)
    requires Initial(s, platform)
    ensures Right(s, n) && n !in s.phases
  {
    CoreTablesEmpty(s.tables, n);
  }

  // ----- one step -----

  predicate ForOne(step: Step) {
    !step.GrantStep? && !step.RevokeStep? && !step.DeleteRoleStep? && !step.RequestStep? && !step.RestartStep?
  }

  /** The extension a step is about. */
  function NameOf(step: Step): string
    requires ForOne(step)
  {
    if step.RegisterStep? then step.m.name else step.name
  }

  lemma OneStep(s: Sys, step: Step, platform: set<string>)
    requires Inv(s, platform) && ForOne(step)
    ensures StepOk(s, Next(s, step), NameOf(step), platform) && NameOk(Next(s, step), NameOf(step))
  {
    match step
    case RegisterStep(m, fetched, otherRules) => RegisterOk(s, Next(s, step), m, fetched, otherRules, platform);
    case ReplaceCheckStep(name, m, otherRules) => ReplaceCheckOk(s, Next(s, step), name, m, otherRules, platform);
    case ReplaceCommitStep(name, fetched) => ReplaceCommitOk(s, Next(s, step), name, fetched, platform);
    case RemountStep(name, listing, broken) => RemountOk(s, Next(s, step), name, listing, broken, platform);
    case FinishDisableStep(name) => FinishDisableOk(s, Next(s, step), name, platform);
    case DetailStep(name) => DetailStepOk(s, Next(s, step), name, platform);
    case DeregisterStep(name) => DeregisterOk(s, Next(s, step), name, platform);
    case DisableStep(name) => DisableOk(s, Next(s, step), name, platform);
    case UnmountStep(name) => UnmountOk(s, Next(s, step), name, platform);
    case GiveUpStep(name) => GiveUpOk(s, Next(s, step), name, platform);
    case _ => EnableStepOk(s, step, platform);
  }

  predicate ForEnable(step: Step) {
    step.EnableRefreshStep? || step.EnableBuildStep? || step.EnableCommitStep? || step.EnablePublishStep?
  }

  lemma EnableStepOk(s: Sys, step: Step, platform: set<string>)
    requires Inv(s, platform) && ForEnable(step)
    ensures StepOk(s, Next(s, step), step.name, platform) && NameOk(Next(s, step), step.name)
  {
    match step
    case EnableRefreshStep(name, refetched) => EnableRefreshOk(s, Next(s, step), name, refetched, platform);
    case EnableBuildStep(name, listing, broken) => EnableBuildOk(s, Next(s, step), name, listing, broken, platform);
    case EnableCommitStep(name) => EnableCommitOk(s, Next(s, step), name, platform);
    case EnablePublishStep(name) => EnablePublishOk(s, Next(s, step), name, platform);
  }

  lemma RequestKeeps(s: Sys, id: nat, schema: Schema, platform: set<string>)
    requires Inv(s, platform)
    ensures Inv(NextRequest(s, id, schema), platform)
    ensures forall n :: Elsewhere(s, NextRequest(s, id, schema), n)
  {
    var t := NextRequest(s, id, schema);
    assert t == s.(cache := t.cache);
    RequestHandlers(s, id, schema);
    CacheOnly(s, t.cache, platform);
  }

  lemma RequestHandlers(s: Sys, id: nat, schema: Schema)
    requires HandlersOk(s)
    ensures HandlersOk(NextRequest(s, id, schema))
  {}

  lemma CacheOnly(s: Sys, cache: Cache, platform: set<string>)
    requires Inv(s, platform) && HandlersOk(s.(cache := cache))
    ensures Inv(s.(cache := cache), platform)
    ensures forall n :: Elsewhere(s, s.(cache := cache), n)
  {
    var t := s.(cache := cache);
    forall n
      ensures NameOk(t, n)
    {
      assert NameOk(s, n);
      NameFrame(s, t, n);
    }
  }

  lemma RoleStepKeeps(s: Sys, step: Step, platform: set<string>)
    requires Inv(s, platform) && (step.GrantStep? || step.RevokeStep? || step.DeleteRoleStep?)
    ensures Inv(Next(s, step), platform)
    ensures forall n :: Elsewhere(s, Next(s, step), n)
  {
    RoleStepIs(s, step, platform);
    RolesOk(s, Next(s, step), platform);
  }

  lemma RoleStepIs(s: Sys, step: Step, platform: set<string>)
    requires Sound(s.db, platform) && (step.GrantStep? || step.RevokeStep? || step.DeleteRoleStep?)
    ensures var t := Next(s, step);
            t == s.(db := s.db.(roles := t.db.roles, grants := t.db.grants)) && Sound(t.db, platform)
  {
    match step
    case GrantStep(role, actions) => GrantsKeepSound(s.db, role, actions, "", platform);
    case RevokeStep(role, action) => GrantsKeepSound(s.db, role, {}, action, platform);
    case DeleteRoleStep(role) => GrantsKeepSound(s.db, role, {}, "", platform);
  }

  /** Every step keeps the invariant. */
  lemma StepKeeps(s: Sys, step: Step, platform: set<string>)
    requires Inv(s, platform)
    ensures Inv(Next(s, step), platform)
  {
    if ForOne(step) {
      OneStep(s, step, platform);
      StepKeepsInv(s, Next(s, step), NameOf(step), platform);
    } else {
      match step
      case RequestStep(id, schema) => RequestKeeps(s, id, schema, platform);
      case RestartStep(start) => RestartKeeps(s, start, platform);
      case _ => RoleStepKeeps(s, step, platform);
    }
  }

  /** On track before it, an extension is on track after a step of its own unless the step breaks it. */
  lemma OwnStepTracks(s: Sys, step: Step, platform: set<string>)
    requires Inv(s, platform) && ForOne(step) && OnTrack(s, NameOf(step))
    requires !step.DetailStep? && !step.EnablePublishStep?
    ensures OnTrack(Next(s, step), NameOf(step))
  {
    assert NameOk(s, NameOf(step));
    match step
    case RegisterStep(m, fetched, otherRules) => RegisterTracks(s, Next(s, step), m, fetched, otherRules);
    case ReplaceCheckStep(name, m, otherRules) => ReplaceCheckTracks(s, Next(s, step), name, m, otherRules);
    case ReplaceCommitStep(name, fetched) => ReplaceCommitTracks(s, Next(s, step), name, fetched, platform);
    case RemountStep(name, listing, broken) => RemountOk(s, Next(s, step), name, listing, broken, platform);
    case FinishDisableStep(name) => FinishDisableOk(s, Next(s, step), name, platform);
    case DeregisterStep(name) => DeregisterOk(s, Next(s, step), name, platform);
    case DisableStep(name) => DisableOk(s, Next(s, step), name, platform);
    case UnmountStep(name) => UnmountOk(s, Next(s, step), name, platform);
    case GiveUpStep(name) => GiveUpTracks(s, Next(s, step), name);
    case _ => EnableStepTracks(s, step, platform);
  }

  lemma EnableStepTracks(s: Sys, step: Step, platform: set<string>)
    requires Inv(s, platform) && ForEnable(step) && !step.EnablePublishStep? && OnTrack(s, step.name)
    ensures OnTrack(Next(s, step), step.name)
  {
    match step
    case EnableRefreshStep(name, refetched) => EnableRefreshOk(s, Next(s, step), name, refetched, platform);
    case EnableBuildStep(name, listing, broken) => EnableBuildOk(s, Next(s, step), name, listing, broken, platform);
    case EnableCommitStep(name) => EnableCommitOk(s, Next(s, step), name, platform);
  }

  /** Exactly the breaking steps take an extension off track, and they leave it so in the open. */
  lemma StepTracks(s: Sys, step: Step, platform: set<string>, n: string)
    requires Inv(s, platform) && OnTrack(s, n)
    ensures !Breaks(s, step, n) ==> OnTrack(Next(s, step), n)
    ensures Breaks(s, step, n) ==> n !in Next(s, step).phases && !Right(Next(s, step), n)
  {
    if step.RestartStep? {
      RestartTracks(s, step.start, platform, n);
    } else if !ForOne(step) {
      ElsewhereStep(s, step, platform, n);
    } else if NameOf(step) != n {
      OneStep(s, step, platform);
      TrackFrame(s, Next(s, step), n);
    } else if step.DetailStep? || step.EnablePublishStep? {
      BreakingStepTracks(s, step, platform, n);
    } else {
      OwnStepTracks(s, step, platform);
    }
  }

  lemma BreakingStepTracks(s: Sys, step: Step, platform: set<string>, n: string)
    requires Inv(s, platform) && OnTrack(s, n) && (step == DetailStep(n) || step == EnablePublishStep(n))
    ensures !Breaks(s, step, n) ==> OnTrack(Next(s, step), n)
    ensures Breaks(s, step, n) ==> n !in Next(s, step).phases && !Right(Next(s, step), n)
  {
    if step.DetailStep? {
      assert NameOk(s, n);
      DetailTracks(s, Next(s, step), n);
    } else {
      EnablePublishOk(s, Next(s, step), n, platform);
    }
  }

  lemma ElsewhereStep(s: Sys, step: Step, platform: set<string>, n: string)
    requires Inv(s, platform) && OnTrack(s, n) && !ForOne(step) && !step.RestartStep?
    ensures OnTrack(Next(s, step), n)
  {
    match step {
      case RequestStep(id, schema) => RequestKeeps(s, id, schema, platform);
      case _ => RoleStepKeeps(s, step, platform);
    }
    TrackFrame(s, Next(s, step), n);
  }

  lemma {:induction false} RunKeeps(states: seq<Sys>, steps: seq<Step>, platform: set<string>, k: nat)
    requires IsRun(states, steps) && Initial(states[0], platform) && k < |states|
    ensures Inv(states[k], platform)
  {
    if k == 0 {
      InitialIsOk(states[0], platform);
    } else {
      RunKeeps(states, steps, platform, k - 1);
      StepKeeps(states[k - 1], steps[k - 1], platform);
    }
  }

  // ----- live routes, over every run -----

  /** One step of a run. */
  lemma RunStepTracks(states: seq<Sys>, steps: seq<Step>, platform: set<string>, i: nat, n: string)
    requires IsRun(states, steps) && Initial(states[0], platform) && i < |steps| && OnTrack(states[i], n)
    ensures !Breaks(states[i], steps[i], n) ==> OnTrack(states[i + 1], n)
    ensures Breaks(states[i], steps[i], n) ==> n !in states[i + 1].phases && !Right(states[i + 1], n)
  {
    RunKeeps(states, steps, platform, i);
    StepTracks(states[i], steps[i], platform, n);
  }

  lemma {:induction false} TracksBetween(states: seq<Sys>, steps: seq<Step>, platform: set<string>, j: nat, k: nat, n: string)
    requires IsRun(states, steps) && Initial(states[0], platform) && j <= k < |states| && OnTrack(states[j], n)
    requires forall i | j <= i < k :: !Breaks(states[i], steps[i], n)
    ensures OnTrack(states[k], n)
    decreases k
  {
    if j < k {
      TracksBetween(states, steps, platform, j, k - 1, n);
      RunStepTracks(states, steps, platform, k - 1, n);
    }
  }

  lemma {:induction false} BreakShows(states: seq<Sys>, steps: seq<Step>, platform: set<string>, j: nat, k: nat, n: string)
    requires IsRun(states, steps) && Initial(states[0], platform) && j <= k < |states| && OnTrack(states[j], n)
    requires exists i | j <= i < k :: Breaks(states[i], steps[i], n)
    ensures exists i | j <= i <= k :: n !in states[i].phases && !Right(states[i], n)
    decreases k
  {
    if forall i | j <= i < k - 1 :: !Breaks(states[i], steps[i], n) {
      TracksBetween(states, steps, platform, j, k - 1, n);
      RunStepTracks(states, steps, platform, k - 1, n);
      assert n !in states[k].phases && !Right(states[k], n);
    } else {
      BreakShows(states, steps, platform, j, k - 1, n);
    }
  }

  /** Since any moment of any run at which an extension's lock was free and its live routes right -- its
      persisted routes, each once in the app of its visibility, when enabled, and none otherwise -- they
      have been right at every moment with its lock free exactly when no step in between broke them:
      no failing details after a commit that calls for other live routes, no publication of a build from
      before the registration, no startup that left it out. */
  lemma LiveSince(states: seq<Sys>, steps: seq<Step>, platform: set<string>, j: nat, k: nat, n: string)
    requires IsRun(states, steps) && Initial(states[0], platform) && j <= k < |states|
    requires n !in states[j].phases && Right(states[j], n)
    ensures (forall i | j <= i <= k && n !in states[i].phases :: Right(states[i], n)) <==>
            (forall i | j <= i < k :: !Breaks(states[i], steps[i], n))
  {
    if forall i | j <= i < k :: !Breaks(states[i], steps[i], n) {
      forall i | j <= i <= k && n !in states[i].phases
        ensures Right(states[i], n)
      {
        TracksBetween(states, steps, platform, j, i, n);
      }
    } else {
      BreakShows(states, steps, platform, j, k, n);
    }
  }

  /** In particular since the first start. */
  lemma LiveOverRuns(states: seq<Sys>, steps: seq<Step>, platform: set<string>, k: nat, n: string)
    requires IsRun(states, steps) && Initial(states[0], platform) && k < |states|
    ensures (forall i | 0 <= i <= k && n !in states[i].phases :: Right(states[i], n)) <==>
            (forall i | 0 <= i < k :: !Breaks(states[i], steps[i], n))
  {
    InitialIsRight(states[0], platform, n);
    LiveSince(states, steps, platform, 0, k, n);
  }

  /** A completed enable of an extension registered before its build makes its live routes right again,
      whatever they were. */
  lemma EnableMounts(s: Sys, name: string, platform: set<string>)
    requires Inv(s, platform) && name in s.phases && s.phases[name].Publishing? && s.phases[name].existed
    ensures var t := NextEnablePublish(s, name);
            name !in t.phases && IsEnabled(t.db, name) && LiveExactly(t.db, t.tables, name)
  {
    assert NameOk(s, name);
    PublishOk(s, NextEnablePublish(s, name), name, s.phases[name].built, true, platform);
  }

  /** After a replace of an enabled extension: mounted when it can be built; otherwise unmounted, and
      disabled once the request has ended. */
  lemma RemountMountsOrDisables(s: Sys, name: string, listing: seq<nat>, broken: set<nat>, platform: set<string>)
    requires Inv(s, platform) && name in s.phases && s.phases[name].Remounting? && IsListing(s.db, name, listing)
    ensures var t := NextRemount(s, name, listing, broken);
            if BuildPersisted(s.db, name, listing, broken).Some?
            then name !in t.phases && IsEnabled(t.db, name) && LiveExactly(t.db, t.tables, name)
            else t.phases[name] == Disabling && Unmounted(t.tables, name)
  {
    assert NameOk(s, name);
    var t := NextRemount(s, name, listing, broken);
    match BuildPersisted(s.db, name, listing, broken)
    case None => PublishOk(s, t, name, NOTHING, false, platform);
    case Some(built) =>
      PersistedBuild(s.db, name, listing, broken);
      PublishOk(s, t, name, built, true, platform);
  }

  lemma FailedRemountDisables(s: Sys, name: string, platform: set<string>)
    requires Inv(s, platform) && name in s.phases && s.phases[name].Disabling?
    ensures var t := NextFinishDisable(s, name);
            name !in t.phases && name in t.db.extensions && !IsEnabled(t.db, name) && Unmounted(t.tables, name)
  {
    assert NameOk(s, name);
  }

  // ----- the stored state, over every run -----

  /** In every reachable state: an action has at most one owner and platform actions none; a platform
      action is never deleted; grants name existing actions; required actions exist, and a named one is
      unowned or its own extension's. */
  lemma CatalogOverRuns(states: seq<Sys>, steps: seq<Step>, platform: set<string>, k: nat)
    requires IsRun(states, steps) && Initial(states[0], platform) && k < |states|
    ensures var db := states[k].db;
            && (forall a, x, y :: (a, x) in db.owners && (a, y) in db.owners ==> x == y)
            && (forall a <- platform :: a in db.actions && !Owned(db, a))
            && (forall g <- db.grants :: g.1 in db.actions)
            && (forall id | id in db.routes && db.routes[id].requiredAction.Some? ::
                  var a := db.routes[id].requiredAction.value;
                  a in db.actions && (a != "" && Owned(db, a) ==> a in OwnedActions(db, db.routes[id].owner)))
  {
    RunKeeps(states, steps, platform, k);
    var db := states[k].db;
    forall id | id in db.routes && db.routes[id].requiredAction.Some?
      ensures var a := db.routes[id].requiredAction.value;
              a in db.actions && (a != "" && Owned(db, a) ==> a in OwnedActions(db, db.routes[id].owner))
    {
      assert RouteSound(db, db.routes[id]);
    }
  }

  /** A registration or replacement takes effect whose routes require an empty name it does not claim and
      another extension owns. */
  predicate TakesEmptyName(s: Sys, step: Step) {
    match step
    case RegisterStep(m, fetched, otherRules) =>
      NextRegister(s, m, fetched, otherRules).db != s.db && !ClaimsEmptyName(m) && Owned(s.db, "")
    case ReplaceCommitStep(name, fetched) =>
      && NextReplaceCommit(s, name, fetched).db != s.db && !ClaimsEmptyName(s.phases[name].m)
      && OwnedByOther(s.db, "", Some(name))
    case _ => false
  }

  /** Neither adds an owner nor a requirement. */
  predicate AddsNone(db: Db, after: Db) {
    && after.owners <= db.owners
    && forall id | id in after.routes ::
         id in db.routes && after.routes[id].owner == db.routes[id].owner
         && after.routes[id].requiredAction == db.routes[id].requiredAction
  }

  lemma OtherStepsAddNone(s: Sys, step: Step)
    requires !step.RegisterStep? && !step.ReplaceCommitStep?
    ensures AddsNone(s.db, Next(s, step).db)
  {
    if step.DeregisterStep? {
      if Deregister(s.db, step.name).Some? {
        DeregisterShape(s.db, step.name);
      }
    } else if step.EnableRefreshStep? {
      RefreshAddsNone(s.db, {step.name}, step.refetched);
    } else if step.RestartStep? {
      RefreshAddsNone(s.db, EnabledNames(s.db), step.start.refetched);
    } else {
      assert Next(s, step).db.routes == s.db.routes && Next(s, step).db.owners == s.db.owners;
    }
  }

  lemma RefreshAddsNone(db: Db, names: set<string>, refetched: map<nat, Schema>)
    ensures AddsNone(db, Refresh(db, names, refetched))
  {}

  lemma StrictStep(s: Sys, step: Step, platform: set<string>)
    requires Inv(s, platform) && AllStrict(s.db)
    ensures AllStrict(Next(s, step).db) <==> !TakesEmptyName(s, step)
  {
    match step {
      case RegisterStep(m, fetched, otherRules) => StrictRegister(s, m, fetched, otherRules, platform);
      case ReplaceCommitStep(name, fetched) => StrictReplace(s, name, fetched, platform);
      case _ =>
        OtherStepsAddNone(s, step);
        FewerStayStrict(s.db, Next(s, step).db);
    }
  }

  lemma StrictRegister(s: Sys, m: Manifest, fetched: seq<Option<Schema>>, otherRules: bool, platform: set<string>)
    requires Inv(s, platform) && AllStrict(s.db)
    ensures AllStrict(NextRegister(s, m, fetched, otherRules).db) <==> !TakesEmptyName(s, RegisterStep(m, fetched, otherRules))
  {
    if NextRegister(s, m, fetched, otherRules).db != s.db {
      RegisterAllStrictIff(s.db, m, fetched, platform);
    }
  }

  lemma StrictReplace(s: Sys, name: string, fetched: seq<Option<Schema>>, platform: set<string>)
    requires Inv(s, platform) && AllStrict(s.db)
    ensures AllStrict(NextReplaceCommit(s, name, fetched).db) <==> !TakesEmptyName(s, ReplaceCommitStep(name, fetched))
  {
    assert NameOk(s, name);
    if NextReplaceCommit(s, name, fetched).db != s.db {
      var p := s.phases[name];
      ReplaceAllStrictIff(s.db, p.m, fetched, p.oldActions, p.wasEnabled, platform);
    }
  }

  /** In every state of a run each required action, the empty name included, is unowned or its own
      extension's, exactly when no registration or replacement takes another extension's empty name. */
  lemma {:induction false} StrictOverRuns(states: seq<Sys>, steps: seq<Step>, platform: set<string>, k: nat)
    requires IsRun(states, steps) && Initial(states[0], platform) && k < |states|
    ensures (forall i | 0 <= i <= k :: AllStrict(states[i].db)) <==> (forall i | 0 <= i < k :: !TakesEmptyName(states[i], steps[i]))
  {
    if k > 0 {
      StrictOverRuns(states, steps, platform, k - 1);
      if AllStrict(states[k - 1].db) {
        StrictAt(states, steps, platform, k);
      }
    }
  }

  lemma StrictAt(states: seq<Sys>, steps: seq<Step>, platform: set<string>, k: nat)
    requires IsRun(states, steps) && Initial(states[0], platform) && 0 < k < |states| && AllStrict(states[k - 1].db)
    ensures AllStrict(states[k].db) <==> !TakesEmptyName(states[k - 1], steps[k - 1])
  {
    RunKeeps(states, steps, platform, k - 1);
    StrictStep(states[k - 1], steps[k - 1], platform);
  }

  /** So it is enough that every manifest sent claims the empty name or does not use it. */
  lemma ClaimedIsStrictOverRuns(states: seq<Sys>, steps: seq<Step>, platform: set<string>, k: nat)
    requires IsRun(states, steps) && Initial(states[0], platform) && k < |states|
    requires forall i | 0 <= i < |steps| :: (steps[i].RegisterStep? || steps[i].ReplaceCheckStep?) ==> ClaimsEmptyName(steps[i].m)
    ensures AllStrict(states[k].db)
  {
    forall i | 0 <= i < k
      ensures !TakesEmptyName(states[i], steps[i])
    {
      CheckedClaim(states, steps, platform, i);
    }
    StrictOverRuns(states, steps, platform, k);
  }

  lemma {:induction false} CheckedClaim(states: seq<Sys>, steps: seq<Step>, platform: set<string>, k: nat)
    requires IsRun(states, steps) && Initial(states[0], platform) && k < |states|
    requires forall i | 0 <= i < |steps| :: (steps[i].RegisterStep? || steps[i].ReplaceCheckStep?) ==> ClaimsEmptyName(steps[i].m)
    ensures forall n | n in states[k].phases && states[k].phases[n].ReplaceChecked? :: ClaimsEmptyName(states[k].phases[n].m)
  {
    if k > 0 {
      CheckedClaim(states, steps, platform, k - 1);
      var s, step := states[k - 1], steps[k - 1];
      assert states[k] == Next(s, step);
      forall n | n in states[k].phases && states[k].phases[n].ReplaceChecked?
        ensures (n in s.phases && s.phases[n] == states[k].phases[n]) || (step.ReplaceCheckStep? && step.m == states[k].phases[n].m)
      {}
    }
  }

  /** In every reachable state no two distinct enabled extensions replace the same target and placement
      in overlapping contexts. */
  lemma ReplacementsOverRuns(states: seq<Sys>, steps: seq<Step>, platform: set<string>, k: nat, a: string, b: string)
    requires IsRun(states, steps) && Initial(states[0], platform) && k < |states|
    requires BothActive(states[k].db, a, b)
    ensures !Clash(states[k].db.extensions[a].ui.value, states[k].db.extensions[b].ui.value)
  {
    RunKeeps(states, steps, platform, k);
  }

  // ----- the validator cache, over every run -----

  /** In every reachable state, validating through the cache in any handler this process ever
      published -- mounted, or unmounted with a request still in it -- is validating directly. */
  lemma CacheAgrees<P, E>(states: seq<Sys>, steps: seq<Step>, platform: set<string>, k: nat, h: (nat, Schema),
                          errors: Validator<P, E>, payload: P)
    requires IsRun(states, steps) && Initial(states[0], platform) && k < |states| && h in states[k].handlers
    ensures ValidatePayload(errors, states[k].cache, h.0, h.1, payload) == ValidateOnce(errors, h.1, payload)
  {
    RunKeeps(states, steps, platform, k);
  }

  /** Every live route with a declared body has such a handler, with the stored schema as long as the
      route is stored. */
  lemma LiveHandlersAreKnown(states: seq<Sys>, steps: seq<Step>, platform: set<string>, k: nat, v: Visibility, r: Live)
    requires IsRun(states, steps) && Initial(states[0], platform) && k < |states|
    requires r in states[k].tables.At(v) && r.Mounted? && r.declared.Some?
    ensures (r.id, r.declared.value) in states[k].handlers
    ensures r.id in states[k].db.routes ==>
              states[k].db.routes[r.id].mode == Declared && states[k].db.routes[r.id].body == r.declared
  {
    RunKeeps(states, steps, platform, k);
    var h := (r.id, r.declared.value);
    assert h in HandlersIn(states[k].tables.At(v));
    assert DeclaresAs(states[k].db, h);
  }

  // ----- startup -----

  /** A start that refetches gives every referring route of an enabled extension the schema fetched for it,
      or none; all else, and everything when it does not refetch, stays as stored. */
  lemma StartupRefetches(db: Db, start: Start, id: nat)
    requires id in db.routes
    ensures !start.refreshed ==> Restarted(db, start) == db
    ensures Restarted(db, start).(routes := db.routes) == db && id in Restarted(db, start).routes
    ensures var was, now := db.routes[id], Restarted(db, start).routes[id];
            if start.refreshed && IsRefRoute(db, id) && IsEnabled(db, was.owner)
            then now.body == (if id in start.refetched then Some(start.refetched[id]) else None)
            else now == was
  {}

  // ----- deregistration -----

  /** Committing a deregistration leaves nothing stored of the extension or its actions; finishing it
      leaves nothing mounted either. */
  lemma DeregisterFinishes(s: Sys, name: string, platform: set<string>, a: string)
    requires Inv(s, platform)
    requires name !in s.phases && Deregister(s.db, name).Some?
    ensures var t := NextDeregister(s, name);
            && name !in t.db.extensions && (forall id :: id in t.db.routes ==> t.db.routes[id].owner != name)
            && (a in OwnedActions(s.db, name) ==> a !in t.db.actions && !Granted(t.db, a) && !Owned(t.db, a))
            && Unmounted(NextUnmount(t, name).tables, name)
  {
    var t := NextDeregister(s, name);
    DeregisterLeavesNothing(s.db, name, platform, a);
    forall v
      ensures Of(NextUnmount(t, name).tables.At(v), name) == []
    {
      PublishReplacesOwn(t.tables, name, NOTHING, v, name);
    }
  }
}
