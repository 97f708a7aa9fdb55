/** The three ways in which live routes go wrong: details that cannot be read back after a commit, a
    registration that slips past an enable request, and a startup that leaves an extension out. When
    each can happen, and what it leaves. */
module LifecycleFailures {
  import opened Wrappers
  import opened Extensions
  import opened ExtensionLaws
  import opened EmptyActionName
  import opened LiveRoutes
  import opened ExtensionLifecycle
  import opened LifecycleLaws
  import opened LifecycleRuns
  import opened LifecycleTheorems

  // ----- when the details can be read back -----

  /** Before a disable: what the details will be is what they are now. */
  lemma DetailAfterDisable(s: Sys, name: string)
    requires name in s.db.extensions
    ensures DetailOk(SetEnabled(s.db, name, false), s.allowed, name) <==> DetailOk(s.db, s.allowed, name)
  {}

  predicate RefetchedObjects(db: Db, name: string, refetched: map<nat, Schema>) {
    forall id | IsRefRoute(db, id) && db.routes[id].owner == name && id in refetched :: refetched[id].Object?
  }

  /** Before an enable: its upstreams must be allowed, and the bodies it refetches be objects. */
  lemma DetailAfterEnable(db: Db, allowed: set<string>, name: string, refetched: map<nat, Schema>, platform: set<string>)
    requires Sound(db, platform) && name in db.extensions
    ensures var after := Refresh(db, {name}, refetched);
            DetailOk(SetEnabled(after, name, true), allowed, name) <==>
            UrlsAllowed(db.extensions[name].upstreams, allowed) && RefetchedObjects(db, name, refetched)
  {
    var after := SetEnabled(Refresh(db, {name}, refetched), name, true);
    forall id | id in db.routes && db.routes[id].owner == name
      ensures id in after.routes && after.routes[id].owner == name
      ensures (after.routes[id].body.Some? ==> after.routes[id].body.value.Object?) <==>
              (IsRefRoute(db, id) && id in refetched ==> refetched[id].Object?)
    {
      assert RouteSound(db, db.routes[id]);
    }
  }

  predicate FetchedObjects(m: Manifest, fetched: seq<Option<Schema>>)
    requires |fetched| == |m.routes|
  {
    forall i | 0 <= i < |m.routes| && m.routes[i].bodyRef && m.routes[i].body.None? && fetched[i].Some? :: fetched[i].value.Object?
  }

  /** Before a registration or replacement: the same of its manifest. */
  lemma DetailAfterStore(db: Db, after: Db, allowed: set<string>, m: Manifest, fetched: seq<Option<Schema>>)
    requires |fetched| == |m.routes| && ManifestOk(m, true)
    requires m.name in after.extensions && after.extensions[m.name].upstreams == m.upstreams
    requires after.routes == RoutesWithout(db, m.name) + NewRoutes(m, fetched, db.nextId)
    ensures DetailOk(after, allowed, m.name) <==> UrlsAllowed(m.upstreams, allowed) && FetchedObjects(m, fetched)
  {
    forall i | 0 <= i < |m.routes|
      ensures NewRow(m, fetched, db.nextId, db.nextId + i) == RowOf(m.name, m.routes[i], fetched[i])
      ensures db.nextId + i in after.routes && after.routes[db.nextId + i] == RowOf(m.name, m.routes[i], fetched[i])
      ensures RouteOk(m.upstreams, m.routes[i])
    {}
    forall id | id in after.routes && after.routes[id].owner == m.name
      ensures db.nextId <= id < db.nextId + |m.routes|
    {
      NewRouteIs(m, fetched, db, after.routes, id);
    }
    BodiesAfterStore(db, after.routes, m, fetched);
  }

  lemma BodiesAfterStore(db: Db, routes: map<nat, RouteRow>, m: Manifest, fetched: seq<Option<Schema>>)
    requires |fetched| == |m.routes| && forall i | 0 <= i < |m.routes| :: RouteOk(m.upstreams, m.routes[i])
    requires forall i | 0 <= i < |m.routes| ::
               db.nextId + i in routes && routes[db.nextId + i] == RowOf(m.name, m.routes[i], fetched[i])
    requires forall id | id in routes && routes[id].owner == m.name :: db.nextId <= id < db.nextId + |m.routes|
    ensures (forall id | id in routes && routes[id].owner == m.name && routes[id].body.Some? :: routes[id].body.value.Object?) <==>
            FetchedObjects(m, fetched)
  {
    forall i | 0 <= i < |m.routes|
      ensures db.nextId + i in routes
      ensures (routes[db.nextId + i].body.Some? ==> routes[db.nextId + i].body.value.Object?) <==>
              (m.routes[i].bodyRef && m.routes[i].body.None? && fetched[i].Some? ==> fetched[i].value.Object?)
    {
      assert RouteOk(m.upstreams, m.routes[i]);
    }
    if FetchedObjects(m, fetched) {
      forall id | id in routes && routes[id].owner == m.name && routes[id].body.Some?
        ensures routes[id].body.value.Object?
      {
        assert routes[db.nextId + (id - db.nextId)] == RowOf(m.name, m.routes[id - db.nextId], fetched[id - db.nextId]);
      }
    }
  }

  // ----- runs in which they always can -----

  predicate ObjectsOnly(fetched: seq<Option<Schema>>) {
    forall i | 0 <= i < |fetched| && fetched[i].Some? :: fetched[i].value.Object?
  }

  predicate ObjectValues(refetched: map<nat, Schema>) {
    forall id | id in refetched :: refetched[id].Object?
  }

  /** Upstreams answer with objects, and a new process allows every base URL that is stored. */
  predicate WellBehaved(s: Sys, step: Step) {
    match step
    case RegisterStep(_, fetched, _) => ObjectsOnly(fetched)
    case ReplaceCommitStep(_, fetched) => ObjectsOnly(fetched)
    case EnableRefreshStep(_, refetched) => ObjectValues(refetched)
    case RestartStep(start) =>
      ObjectValues(start.refetched) && forall n | n in s.db.extensions :: UrlsAllowed(s.db.extensions[n].upstreams, start.allowed)
    case _ => true
  }

  predicate AllDetailsOk(db: Db, allowed: set<string>) {
    forall n | n in db.extensions :: DetailOk(db, allowed, n)
  }

  lemma StoreKeepsDetails(db: Db, after: Db, allowed: set<string>, m: Manifest, fetched: seq<Option<Schema>>)
    requires |fetched| == |m.routes| && ManifestOk(m, true) && AllDetailsOk(db, allowed)
    requires UrlsAllowed(m.upstreams, allowed) && ObjectsOnly(fetched)
    requires m.name in after.extensions && after.extensions[m.name].upstreams == m.upstreams
    requires forall n | n in after.extensions && n != m.name :: n in db.extensions && after.extensions[n] == db.extensions[n]
    requires after.routes == RoutesWithout(db, m.name) + NewRoutes(m, fetched, db.nextId)
    ensures AllDetailsOk(after, allowed)
  {
    DetailAfterStore(db, after, allowed, m, fetched);
    forall n | n in after.extensions && n != m.name
      ensures DetailOk(after, allowed, n)
    {
      assert DetailOk(db, allowed, n);
    }
  }

  lemma RefreshKeepsDetails(db: Db, names: set<string>, refetched: map<nat, Schema>, allowed: set<string>)
    requires AllDetailsOk(db, allowed) && ObjectValues(refetched)
    ensures AllDetailsOk(Refresh(db, names, refetched), allowed)
  {
    forall n | n in db.extensions
      ensures DetailOk(Refresh(db, names, refetched), allowed, n)
    {
      assert DetailOk(db, allowed, n);
    }
  }

  /** Fewer extensions or routes, or other flags. */
  lemma FewerKeepDetails(db: Db, after: Db, allowed: set<string>)
    requires AllDetailsOk(db, allowed)
    requires forall n | n in after.extensions :: n in db.extensions && after.extensions[n].upstreams == db.extensions[n].upstreams
    requires forall id | id in after.routes :: id in db.routes && after.routes[id] == db.routes[id]
    ensures AllDetailsOk(after, allowed)
  {
    forall n | n in after.extensions
      ensures DetailOk(after, allowed, n)
    {
      assert DetailOk(db, allowed, n);
    }
  }

  lemma OtherStepsOnlyDrop(s: Sys, step: Step)
    requires !step.RegisterStep? && !step.ReplaceCommitStep? && !step.EnableRefreshStep? && !step.RestartStep?
    ensures var after := Next(s, step).db;
            && Next(s, step).allowed == s.allowed
            && (forall n | n in after.extensions :: n in s.db.extensions && after.extensions[n].upstreams == s.db.extensions[n].upstreams)
            && (forall id | id in after.routes :: id in s.db.routes && after.routes[id] == s.db.routes[id])
  {
    if step.DeregisterStep? && Deregister(s.db, step.name).Some? {
      DeregisterShape(s.db, step.name);
    }
  }

  lemma DetailsStep(s: Sys, step: Step, platform: set<string>)
    requires Inv(s, platform) && AllDetailsOk(s.db, s.allowed) && WellBehaved(s, step)
    ensures AllDetailsOk(Next(s, step).db, Next(s, step).allowed)
  {
    match step {
      case RegisterStep(m, fetched, otherRules) => RegisterKeepsDetails(s, m, fetched, otherRules);
      case ReplaceCommitStep(name, fetched) =>
        assert NameOk(s, name);
        ReplaceKeepsDetails(s, name, fetched);
      case EnableRefreshStep(name, refetched) => RefreshKeepsDetails(s.db, {name}, refetched, s.allowed);
      case RestartStep(start) =>
        RefreshKeepsDetails(s.db, EnabledNames(s.db), start.refetched, s.allowed);
        RestartKeepsDetails(s, start);
      case _ =>
        OtherStepsOnlyDrop(s, step);
        FewerKeepDetails(s.db, Next(s, step).db, s.allowed);
    }
  }

  lemma RegisterKeepsDetails(s: Sys, m: Manifest, fetched: seq<Option<Schema>>, otherRules: bool)
    requires AllDetailsOk(s.db, s.allowed) && ObjectsOnly(fetched)
    ensures AllDetailsOk(NextRegister(s, m, fetched, otherRules).db, s.allowed)
  {
    if NextRegister(s, m, fetched, otherRules).db != s.db {
      RegisterShape(s.db, m, fetched);
      StoreKeepsDetails(s.db, Register(s.db, m, fetched).value, s.allowed, m, fetched);
    }
  }

  lemma ReplaceKeepsDetails(s: Sys, name: string, fetched: seq<Option<Schema>>)
    requires NameOk(s, name) && AllDetailsOk(s.db, s.allowed) && ObjectsOnly(fetched)
    ensures AllDetailsOk(NextReplaceCommit(s, name, fetched).db, s.allowed)
  {
    if NextReplaceCommit(s, name, fetched).db != s.db {
      var p := s.phases[name];
      ReplaceShape(s.db, p.m, fetched, p.oldActions, p.wasEnabled);
      StoreKeepsDetails(s.db, Replace(s.db, p.m, fetched, p.oldActions, p.wasEnabled).value, s.allowed, p.m, fetched);
    }
  }

  lemma RestartKeepsDetails(s: Sys, start: Start)
    requires AllDetailsOk(s.db, s.allowed) && AllDetailsOk(Restarted(s.db, start), s.allowed) && WellBehaved(s, RestartStep(start))
    ensures AllDetailsOk(NextRestart(s, start).db, NextRestart(s, start).allowed)
  {
    forall n | n in Restarted(s.db, start).extensions
      ensures DetailOk(Restarted(s.db, start), start.allowed, n)
    {
      assert DetailOk(Restarted(s.db, start), s.allowed, n);
    }
  }

  /** As long as upstreams answer with objects and stored base URLs stay allowed, the details of every
      extension can be read back at every moment, so no such failure ever breaks live routes. */
  lemma {:induction false} DetailsNeverFail(states: seq<Sys>, steps: seq<Step>, platform: set<string>, k: nat)
    requires IsRun(states, steps) && Initial(states[0], platform) && k < |states|
    requires forall i | 0 <= i < k :: WellBehaved(states[i], steps[i])
    ensures AllDetailsOk(states[k].db, states[k].allowed)
    ensures forall n :: !DetailBreaks(states[k], n)
  {
    RunKeeps(states, steps, platform, k);
    if k > 0 {
      DetailsNeverFail(states, steps, platform, k - 1);
      RunKeeps(states, steps, platform, k - 1);
      DetailsStep(states[k - 1], steps[k - 1], platform);
    }
    forall n
      ensures !DetailBreaks(states[k], n)
    {
      assert NameOk(states[k], n);
    }
  }

  // ----- what a failure leaves -----

  lemma DisableThenFail(s: Sys, name: string)
    requires name !in s.phases && IsEnabled(s.db, name) && !DetailOk(s.db, s.allowed, name)
    ensures Next(Next(s, DisableStep(name)), DetailStep(name)) == s.(db := SetEnabled(s.db, name, false))
  {
    DetailAfterDisable(s, name);
    var c := Next(s, DisableStep(name));
    assert c == Lock(s.(db := SetEnabled(s.db, name, false)), name, DisableCommitted(true));
    assert Release(c, name).phases == s.phases;
  }

  /** A disable whose details cannot be read back leaves the extension disabled with all its routes
      live. */
  lemma DisableLeavesMounted(s: Sys, name: string, platform: set<string>)
    requires Inv(s, platform) && name !in s.phases && IsEnabled(s.db, name) && Right(s, name)
    requires HasRoutes(s.db, name) && !DetailOk(s.db, s.allowed, name)
    ensures var t := Next(Next(s, DisableStep(name)), DetailStep(name));
            && name !in t.phases && name in t.db.extensions && !IsEnabled(t.db, name)
            && LiveExactly(t.db, t.tables, name) && !Unmounted(t.tables, name)
  {
    DisableThenFail(s, name);
    FlagSameFor(s.db, name, false, name);
    ExactlyNone(s.db, s.tables, name);
  }

  /** An enable request up to the reading of the details. */
  ghost function EnableRequest(s: Sys, name: string, refetched: map<nat, Schema>, listing: seq<nat>): Sys {
    var built := Next(Next(s, EnableRefreshStep(name, refetched)), EnableBuildStep(name, listing, {}));
    Next(Next(built, EnableCommitStep(name)), DetailStep(name))
  }

  lemma RefreshKeepsListing(db: Db, name: string, refetched: map<nat, Schema>, listing: seq<nat>)
    requires IsListing(db, name, listing)
    ensures IsListing(Refresh(db, {name}, refetched), name, listing)
  {}

  lemma BuildFromRefreshed(r: Sys, name: string, listing: seq<nat>) returns (built: Tables)
    requires name in r.phases && r.phases[name] == Refreshed && name in r.db.extensions && IsListing(r.db, name, listing)
    ensures Next(r, EnableBuildStep(name, listing, {})) == Lock(r, name, Enabling(built, true))
  {
    built := BuildPersisted(r.db, name, listing, {}).value;
  }

  lemma LockTwice(s: Sys, name: string, p: Phase, q: Phase)
    ensures Lock(Lock(s, name, p), name, q) == Lock(s, name, q)
  {}

  /** Refetching and building: nothing is published yet. */
  lemma RefreshThenBuild(s: Sys, name: string, refetched: map<nat, Schema>, listing: seq<nat>) returns (built: Tables)
    requires name !in s.phases && name in s.db.extensions && IsListing(s.db, name, listing)
    ensures Next(Next(s, EnableRefreshStep(name, refetched)), EnableBuildStep(name, listing, {})) ==
            Lock(s.(db := Refresh(s.db, {name}, refetched)), name, Enabling(built, true))
  {
    var refreshed := s.(db := Refresh(s.db, {name}, refetched));
    RefreshKeepsListing(s.db, name, refetched, listing);
    built := BuildFromRefreshed(Lock(refreshed, name, Refreshed), name, listing);
    LockTwice(refreshed, name, Refreshed, Enabling(built, true));
  }

  lemma CommitThenPublish(b: Sys, name: string, built: Tables)
    requires name in b.phases && b.phases[name] == Enabling(built, true) && name in b.db.extensions
    requires !ReplaceConflict(b.db, name, b.db.extensions[name].ui)
    requires DetailOk(SetEnabled(b.db, name, true), b.allowed, name)
    ensures Next(Next(b, EnableCommitStep(name)), DetailStep(name)) ==
            Lock(b.(db := SetEnabled(b.db, name, true)), name, Publishing(built, true))
  {
    var c := Next(b, EnableCommitStep(name));
    assert c == Lock(b.(db := SetEnabled(b.db, name, true)), name, EnableCommitted(built, true, !IsEnabled(b.db, name)));
    LockTwice(b.(db := SetEnabled(b.db, name, true)), name, c.phases[name], Publishing(built, true));
  }

  lemma CommitThenFail(b: Sys, name: string, built: Tables)
    requires name in b.phases && b.phases[name] == Enabling(built, true) && name in b.db.extensions && !IsEnabled(b.db, name)
    requires !ReplaceConflict(b.db, name, b.db.extensions[name].ui)
    requires !DetailOk(SetEnabled(b.db, name, true), b.allowed, name)
    ensures Next(Next(b, EnableCommitStep(name)), DetailStep(name)) == Release(b.(db := SetEnabled(b.db, name, true)), name)
  {
    var c := Next(b, EnableCommitStep(name));
    assert c == Lock(b.(db := SetEnabled(b.db, name, true)), name, EnableCommitted(built, true, true));
    assert Release(c, name).phases == Release(b, name).phases;
  }

  /** An enable that refetches a body that is no object, or whose upstream is no longer allowed, leaves
      the extension enabled with nothing live. */
  lemma EnableLeavesUnmounted(s: Sys, name: string, refetched: map<nat, Schema>, listing: seq<nat>, platform: set<string>)
    requires Inv(s, platform) && name !in s.phases && name in s.db.extensions && !IsEnabled(s.db, name) && Right(s, name)
    requires HasRoutes(s.db, name) && IsListing(s.db, name, listing)
    requires !ReplaceConflict(s.db, name, s.db.extensions[name].ui)
    requires !(UrlsAllowed(s.db.extensions[name].upstreams, s.allowed) && RefetchedObjects(s.db, name, refetched))
    ensures var t := EnableRequest(s, name, refetched, listing);
            && name !in t.phases && IsEnabled(t.db, name) && Unmounted(t.tables, name) && !LiveExactly(t.db, t.tables, name)
  {
    var built := RefreshThenBuild(s, name, refetched, listing);
    var refreshed := Refresh(s.db, {name}, refetched);
    DetailAfterEnable(s.db, s.allowed, name, refetched, platform);
    SameConflict(s.db, refreshed, name);
    CommitThenFail(Lock(s.(db := refreshed), name, Enabling(built, true)), name, built);
    StillHasRoutes(s.db, name, refetched);
    NoneExactly(SetEnabled(refreshed, name, true), s.tables, name);
  }

  lemma RequestPublishes(s: Sys, name: string, refetched: map<nat, Schema>, listing: seq<nat>, platform: set<string>)
    returns (built: Tables)
    requires Sound(s.db, platform) && name !in s.phases && name in s.db.extensions && IsListing(s.db, name, listing)
    requires !ReplaceConflict(s.db, name, s.db.extensions[name].ui)
    requires UrlsAllowed(s.db.extensions[name].upstreams, s.allowed) && RefetchedObjects(s.db, name, refetched)
    ensures EnableRequest(s, name, refetched, listing) ==
            Lock(s.(db := SetEnabled(Refresh(s.db, {name}, refetched), name, true)), name, Publishing(built, true))
  {
    built := RefreshThenBuild(s, name, refetched, listing);
    var refreshed := Refresh(s.db, {name}, refetched);
    DetailAfterEnable(s.db, s.allowed, name, refetched, platform);
    SameConflict(s.db, refreshed, name);
    CommitThenPublish(Lock(s.(db := refreshed), name, Enabling(built, true)), name, built);
    LockTwice(s.(db := SetEnabled(refreshed, name, true)), name, Enabling(built, true), Publishing(built, true));
  }

  /** With allowed upstreams and refetched objects, the whole request mounts exactly the stored routes. */
  lemma EnableSucceeds(s: Sys, name: string, refetched: map<nat, Schema>, listing: seq<nat>, platform: set<string>)
    requires Inv(s, platform) && name !in s.phases && name in s.db.extensions && IsListing(s.db, name, listing)
    requires !ReplaceConflict(s.db, name, s.db.extensions[name].ui)
    requires UrlsAllowed(s.db.extensions[name].upstreams, s.allowed) && RefetchedObjects(s.db, name, refetched)
    ensures var t := Next(EnableRequest(s, name, refetched, listing), EnablePublishStep(name));
            && Inv(t, platform) && name !in t.phases && LiveExactly(t.db, t.tables, name)
            && t.db == SetEnabled(Refresh(s.db, {name}, refetched), name, true) && t.allowed == s.allowed
  {
    RequestKeepsInv(s, name, refetched, listing, platform);
    var built := RequestPublishes(s, name, refetched, listing, platform);
    PublishLast(EnableRequest(s, name, refetched, listing), name, platform);
  }

  lemma PublishLast(e: Sys, name: string, platform: set<string>)
    requires Inv(e, platform) && name in e.phases && e.phases[name].Publishing? && e.phases[name].existed
    ensures var t := Next(e, EnablePublishStep(name));
            && Inv(t, platform) && name !in t.phases && LiveExactly(t.db, t.tables, name)
            && t.db == e.db && t.allowed == e.allowed
  {
    StepKeeps(e, EnablePublishStep(name), platform);
    EnableMounts(e, name, platform);
  }

  /** An enable request that refetches and goes no further. */
  lemma RefreshThenGiveUp(s: Sys, name: string, refetched: map<nat, Schema>, platform: set<string>)
    requires Inv(s, platform) && name !in s.phases && Right(s, name)
    ensures var t := Next(Next(s, EnableRefreshStep(name, refetched)), GiveUpStep(name));
            Inv(t, platform) && t == s.(db := Refresh(s.db, {name}, refetched)) && Right(t, name)
  {
    GiveUpIs(s, name, refetched);
    StepKeeps(s, EnableRefreshStep(name, refetched), platform);
    StepKeeps(Next(s, EnableRefreshStep(name, refetched)), GiveUpStep(name), platform);
    StillRight(s, name, refetched, platform);
  }

  lemma GiveUpIs(s: Sys, name: string, refetched: map<nat, Schema>)
    requires name !in s.phases
    ensures Next(Next(s, EnableRefreshStep(name, refetched)), GiveUpStep(name)) == s.(db := Refresh(s.db, {name}, refetched))
  {
    var r := Next(s, EnableRefreshStep(name, refetched));
    assert r == Lock(s.(db := Refresh(s.db, {name}, refetched)), name, Refreshed);
    assert Release(r, name).phases == s.phases;
  }

  lemma StillRight(s: Sys, name: string, refetched: map<nat, Schema>, platform: set<string>)
    requires Sound(s.db, platform) && Right(s, name)
    ensures Right(s.(db := Refresh(s.db, {name}, refetched)), name)
  {
    RefreshSameFor(s.db, {name}, refetched, platform, name);
  }

  lemma RequestKeepsInv(s: Sys, name: string, refetched: map<nat, Schema>, listing: seq<nat>, platform: set<string>)
    requires Inv(s, platform)
    ensures Inv(EnableRequest(s, name, refetched, listing), platform)
  {
    var r := Next(s, EnableRefreshStep(name, refetched));
    StepKeeps(s, EnableRefreshStep(name, refetched), platform);
    var b := Next(r, EnableBuildStep(name, listing, {}));
    StepKeeps(r, EnableBuildStep(name, listing, {}), platform);
    var c := Next(b, EnableCommitStep(name));
    StepKeeps(b, EnableCommitStep(name), platform);
    StepKeeps(c, DetailStep(name), platform);
  }

  lemma StillHasRoutes(db: Db, name: string, refetched: map<nat, Schema>)
    requires name in db.extensions && HasRoutes(db, name)
    ensures HasRoutes(SetEnabled(Refresh(db, {name}, refetched), name, true), name)
  {
    var id :| id in db.routes && db.routes[id].owner == name;
    assert Refresh(db, {name}, refetched).routes[id].owner == name;
  }

  lemma SameConflict(db: Db, after: Db, name: string)
    requires after.extensions == db.extensions && name in db.extensions
    ensures ReplaceConflict(after, name, after.extensions[name].ui) <==> ReplaceConflict(db, name, db.extensions[name].ui)
  {}

  /** A replace request up to the reading of the details. */
  ghost function ReplaceRequest(s: Sys, m: Manifest, fetched: seq<Option<Schema>>): Sys {
    Next(Next(Next(s, ReplaceCheckStep(m.name, m, true)), ReplaceCommitStep(m.name, fetched)), DetailStep(m.name))
  }

  lemma CheckThenCommit(s: Sys, m: Manifest, fetched: seq<Option<Schema>>, after: Db)
    requires m.name !in s.phases && IsEnabled(s.db, m.name) && HasRoutes(s.db, m.name)
    requires |fetched| == |m.routes| && ReplaceCheck(s.db, m.name, m, true) && UrlsAllowed(m.upstreams, s.allowed)
    requires Replace(s.db, m, fetched, OwnedActions(s.db, m.name), true) == Some(after)
    ensures Next(Next(s, ReplaceCheckStep(m.name, m, true)), ReplaceCommitStep(m.name, fetched)) ==
            Lock(s.(db := after), m.name, ReplaceCommitted(true))
  {
    var checked := Next(s, ReplaceCheckStep(m.name, m, true));
    var phase := ReplaceChecked(m, OwnedActions(s.db, m.name), true);
    assert checked == Lock(s, m.name, phase);
    assert checked.phases[m.name := ReplaceCommitted(true)] == s.phases[m.name := ReplaceCommitted(true)];
  }

  /** A replacement answered with a body that is no object leaves the dropped routes live and the new
      ones unmounted. */
  lemma ReplaceLeavesStale(s: Sys, m: Manifest, fetched: seq<Option<Schema>>, platform: set<string>)
    requires Inv(s, platform) && m.name !in s.phases && IsEnabled(s.db, m.name) && Right(s, m.name)
    requires HasRoutes(s.db, m.name) && |fetched| == |m.routes| && ReplaceCheck(s.db, m.name, m, true)
    requires UrlsAllowed(m.upstreams, s.allowed) && !FetchedObjects(m, fetched)
    requires Replace(s.db, m, fetched, OwnedActions(s.db, m.name), true).Some?
    ensures var t := ReplaceRequest(s, m, fetched);
            && m.name !in t.phases && IsEnabled(t.db, m.name)
            && Stale(t, m.name) && !Unmounted(t.tables, m.name) && !LiveExactly(t.db, t.tables, m.name)
  {
    var after := Replace(s.db, m, fetched, OwnedActions(s.db, m.name), true).value;
    CheckThenCommit(s, m, fetched, after);
    StoredBadly(s.db, m, fetched, after, s.allowed);
    ReplacedTracks(s, m, fetched, after, platform);
    CommittedThenFail(s.(db := after), m.name);
  }

  lemma StoredBadly(db: Db, m: Manifest, fetched: seq<Option<Schema>>, after: Db, allowed: set<string>)
    requires IsEnabled(db, m.name) && |fetched| == |m.routes| && ManifestOk(m, true)
    requires Replace(db, m, fetched, OwnedActions(db, m.name), true) == Some(after) && !FetchedObjects(m, fetched)
    ensures IsEnabled(after, m.name) && !DetailOk(after, allowed, m.name)
  {
    ReplaceShape(db, m, fetched, OwnedActions(db, m.name), true);
    DetailAfterStore(db, after, allowed, m, fetched);
  }

  lemma CommittedThenFail(c: Sys, name: string)
    requires IsEnabled(c.db, name) && !DetailOk(c.db, c.allowed, name)
    requires Stale(c, name) && !Unmounted(c.tables, name)
    ensures var t := Next(Lock(c, name, ReplaceCommitted(true)), DetailStep(name));
            && name !in t.phases && IsEnabled(t.db, name)
            && Stale(t, name) && !Unmounted(t.tables, name) && !LiveExactly(t.db, t.tables, name)
  {
    DetailGivesUp(c, name);
    StaleIsWrong(c, name, true);
    StaleFrame(c, Next(Lock(c, name, ReplaceCommitted(true)), DetailStep(name)), name);
  }

  lemma DetailGivesUp(c: Sys, name: string)
    requires !DetailOk(c.db, c.allowed, name)
    ensures var t := Next(Lock(c, name, ReplaceCommitted(true)), DetailStep(name));
            name !in t.phases && t.db == c.db && t.tables == c.tables
  {}

  lemma StaleFrame(c: Sys, t: Sys, name: string)
    requires Stale(c, name) && t.db == c.db && t.tables == c.tables
    ensures Stale(t, name)
  {}

  // ----- the registration that slips past an enable request -----

  /** An enable whose routes were built before the extension was registered leaves it enabled with
      nothing live, whatever else happened in between. */
  lemma LateEnableMountsNothing(s: Sys, name: string, platform: set<string>)
    requires Inv(s, platform) && name in s.phases && s.phases[name].Publishing? && !s.phases[name].existed
    ensures var t := NextEnablePublish(s, name);
            && name !in t.phases && IsEnabled(t.db, name) && Unmounted(t.tables, name)
            && (Right(t, name) <==> !HasRoutes(t.db, name))
  {
    assert NameOk(s, name);
    var t := NextEnablePublish(s, name);
    PublishOk(s, t, name, NOTHING, false, platform);
    NoneExactly(t.db, t.tables, name);
  }

  /** A registration succeeds between the build and the commit of an enable request for its name. */
  ghost predicate SlipsPast(s: Sys, step: Step) {
    && step.RegisterStep? && step.m.name in s.phases && s.phases[step.m.name].Enabling?
    && step.m.name !in s.db.extensions && step.m.name in Next(s, step).db.extensions
  }

  /** An enable request that found no extension can still find none. */
  predicate UnslippedAt(s: Sys, n: string) {
    n in s.phases ==>
      && (s.phases[n].Enabling? && !s.phases[n].existed ==> n !in s.db.extensions)
      && (s.phases[n].EnableCommitted? || s.phases[n].Publishing? ==> s.phases[n].existed)
  }

  ghost predicate Unslipped(s: Sys) {
    forall n :: UnslippedAt(s, n)
  }

  lemma ExtensionsOnlyFromRegister(s: Sys, step: Step, n: string)
    requires n in Next(s, step).db.extensions && n !in s.db.extensions
    ensures step.RegisterStep? && step.m.name == n
  {
    match step {
      case ReplaceCommitStep(name, fetched) =>
        if name in s.phases && s.phases[name].ReplaceChecked? && |fetched| == |s.phases[name].m.routes| {
          var p := s.phases[name];
          if Replace(s.db, p.m, fetched, p.oldActions, p.wasEnabled).Some? {
            ReplaceShape(s.db, p.m, fetched, p.oldActions, p.wasEnabled);
          }
        }
      case DeregisterStep(name) =>
        if Deregister(s.db, name).Some? {
          DeregisterShape(s.db, name);
        }
      case RegisterStep(m, fetched, otherRules) =>
        if |fetched| == |m.routes| && Register(s.db, m, fetched).Some? {
          RegisterShape(s.db, m, fetched);
        }
      case _ =>
    }
  }

  lemma UnslippedStep(s: Sys, step: Step)
    requires Unslipped(s) && !SlipsPast(s, step)
    ensures Unslipped(Next(s, step))
  {
    forall n
      ensures UnslippedAt(Next(s, step), n)
    {
      assert UnslippedAt(s, n);
      if n in Next(s, step).db.extensions && n !in s.db.extensions {
        ExtensionsOnlyFromRegister(s, step, n);
        assert n in s.phases ==> !s.phases[n].Enabling?;
        assert Next(s, step).phases == s.phases;
      } else {
        UnslippedMoves(s, step, n);
      }
    }
  }

  lemma UnslippedMoves(s: Sys, step: Step, n: string)
    requires UnslippedAt(s, n) && (n in Next(s, step).db.extensions ==> n in s.db.extensions)
    ensures UnslippedAt(Next(s, step), n)
  {
    if !step.EnableBuildStep? && !step.EnableCommitStep? && !step.DetailStep? && EnablesAt(Next(s, step), n) {
      NotEnabling(s, step, n);
    }
  }

  predicate EnablesAt(s: Sys, n: string) {
    n in s.phases && (s.phases[n].Enabling? || s.phases[n].EnableCommitted? || s.phases[n].Publishing?)
  }

  lemma NotEnabling(s: Sys, step: Step, n: string)
    requires !step.EnableBuildStep? && !step.EnableCommitStep? && !step.DetailStep? && EnablesAt(Next(s, step), n)
    ensures EnablesAt(s, n) && s.phases[n] == Next(s, step).phases[n]
  {}

  lemma {:induction false} NeverLate(states: seq<Sys>, steps: seq<Step>, platform: set<string>, k: nat)
    requires IsRun(states, steps) && Initial(states[0], platform) && k < |states|
    requires forall i | 0 <= i < k :: !SlipsPast(states[i], steps[i])
    ensures Unslipped(states[k])
  {
    if k != 0 {
      NeverLate(states, steps, platform, k - 1);
      UnslippedStep(states[k - 1], steps[k - 1]);
    }
  }

  /** With upstreams that answer with objects, base URLs that stay allowed, and no registration that
      slips past an enable request, live routes are wrong only where a startup left an extension out. */
  lemma OnlyStartupLeavesUnmounted(states: seq<Sys>, steps: seq<Step>, platform: set<string>, k: nat, name: string)
    requires IsRun(states, steps) && Initial(states[0], platform) && k < |states|
    requires forall i | 0 <= i < k :: WellBehaved(states[i], steps[i]) && !SlipsPast(states[i], steps[i])
    requires name !in states[k].phases && !Right(states[k], name)
    ensures exists i | 0 <= i < k :: steps[i].RestartStep? && StartBreaks(states[i], steps[i].start, name)
  {
    LiveOverRuns(states, steps, platform, k, name);
    var i :| 0 <= i < k && Breaks(states[i], steps[i], name);
    DetailsNeverFail(states, steps, platform, i);
    NeverLate(states, steps, platform, i);
    assert UnslippedAt(states[i], name);
    assert steps[i].RestartStep?;
  }

  // ----- route ids -----

  function RouteIds(db: Db, name: string): set<nat> {
    set id | id in db.routes && db.routes[id].owner == name
  }

  /** The step stores the extension anew or removes it. */
  predicate Renews(s: Sys, step: Step, name: string) {
    match step
    case RegisterStep(m, fetched, otherRules) => m.name == name && NextRegister(s, m, fetched, otherRules).db != s.db
    case ReplaceCommitStep(n, fetched) => n == name && NextReplaceCommit(s, n, fetched).db != s.db
    case DeregisterStep(n) => n == name && NextDeregister(s, n).db != s.db
    case _ => false
  }

  /** Between two states an extension's ids were all renewed, or are the same. */
  predicate IdsFrom(s: Sys, t: Sys, name: string, renewed: bool) {
    if renewed then forall id | id in RouteIds(t.db, name) :: id >= s.db.nextId
    else RouteIds(t.db, name) == RouteIds(s.db, name)
  }

  /** Such a step gives only ids above all earlier ones; every other step leaves the ids as they are. */
  lemma IdsStep(s: Sys, step: Step, platform: set<string>, name: string)
    requires Inv(s, platform)
    ensures s.db.nextId <= Next(s, step).db.nextId
    ensures IdsFrom(s, Next(s, step), name, Renews(s, step, name))
  {
    match step {
      case RegisterStep(m, fetched, otherRules) => RegisterIds(s, m, fetched, otherRules, platform, name);
      case ReplaceCommitStep(n, fetched) =>
        assert NameOk(s, n);
        ReplaceIds(s, n, fetched, platform, name);
      case DeregisterStep(n) =>
        if NextDeregister(s, n).db != s.db {
          DeregisterShape(s.db, n);
        }
      case _ => SameIds(s, step, name);
    }
  }

  lemma SameIds(s: Sys, step: Step, name: string)
    requires !step.RegisterStep? && !step.ReplaceCommitStep? && !step.DeregisterStep?
    ensures Next(s, step).db.nextId == s.db.nextId && RouteIds(Next(s, step).db, name) == RouteIds(s.db, name)
  {
    if step.EnableRefreshStep? {
      RefreshIds(s.db, {step.name}, step.refetched, name);
    } else if step.RestartStep? {
      RefreshIds(s.db, EnabledNames(s.db), step.start.refetched, name);
    } else {
      assert Next(s, step).db.routes == s.db.routes;
    }
  }

  lemma RefreshIds(db: Db, names: set<string>, refetched: map<nat, Schema>, name: string)
    ensures Refresh(db, names, refetched).nextId == db.nextId
    ensures RouteIds(Refresh(db, names, refetched), name) == RouteIds(db, name)
  {}

  lemma StoredIds(db: Db, after: Db, m: Manifest, fetched: seq<Option<Schema>>, name: string, platform: set<string>)
    requires |fetched| == |m.routes| && Sound(db, platform)
    requires after.routes == RoutesWithout(db, m.name) + NewRoutes(m, fetched, db.nextId)
    ensures if m.name == name then forall id | id in RouteIds(after, name) :: id >= db.nextId
            else RouteIds(after, name) == RouteIds(db, name)
  {
    forall id | id in after.routes
      ensures m.name != name ==> (after.routes[id].owner == name <==> id in db.routes && db.routes[id].owner == name)
      ensures after.routes[id].owner == m.name ==> id >= db.nextId
    {
      NewRouteIs(m, fetched, db, after.routes, id);
    }
    assert forall id | id in db.routes && db.routes[id].owner != m.name :: id in after.routes;
  }

  lemma RegisterIds(s: Sys, m: Manifest, fetched: seq<Option<Schema>>, otherRules: bool, platform: set<string>, name: string)
    requires Inv(s, platform)
    ensures var after := NextRegister(s, m, fetched, otherRules).db;
            && s.db.nextId <= after.nextId
            && if m.name == name && after != s.db then forall id | id in RouteIds(after, name) :: id >= s.db.nextId
               else RouteIds(after, name) == RouteIds(s.db, name)
  {
    if NextRegister(s, m, fetched, otherRules).db != s.db {
      RegisterShape(s.db, m, fetched);
      StoredIds(s.db, NextRegister(s, m, fetched, otherRules).db, m, fetched, name, platform);
    }
  }

  lemma ReplaceIds(s: Sys, n: string, fetched: seq<Option<Schema>>, platform: set<string>, name: string)
    requires Inv(s, platform) && NameOk(s, n)
    ensures var after := NextReplaceCommit(s, n, fetched).db;
            && s.db.nextId <= after.nextId
            && if n == name && after != s.db then forall id | id in RouteIds(after, name) :: id >= s.db.nextId
               else RouteIds(after, name) == RouteIds(s.db, name)
  {
    if NextReplaceCommit(s, n, fetched).db != s.db {
      var p := s.phases[n];
      ReplaceShape(s.db, p.m, fetched, p.oldActions, p.wasEnabled);
      StoredIds(s.db, NextReplaceCommit(s, n, fetched).db, p.m, fetched, name, platform);
    }
  }

  ghost predicate Renewed(states: seq<Sys>, steps: seq<Step>, j: nat, k: nat, name: string)
    requires j <= k <= |steps| && |states| == |steps| + 1
  {
    exists i | j <= i < k :: Renews(states[i], steps[i], name)
  }

  lemma {:induction false} IdsBetween(states: seq<Sys>, steps: seq<Step>, platform: set<string>, j: nat, k: nat, name: string)
    requires IsRun(states, steps) && Initial(states[0], platform) && j <= k < |states|
    ensures states[j].db.nextId <= states[k].db.nextId
    ensures IdsFrom(states[j], states[k], name, Renewed(states, steps, j, k, name))
    decreases k
  {
    if j < k {
      IdsBetween(states, steps, platform, j, k - 1, name);
      IdsAt(states, steps, platform, k, name);
      IdsLast(states, steps, j, k, name);
    }
  }

  lemma IdsLast(states: seq<Sys>, steps: seq<Step>, j: nat, k: nat, name: string)
    requires |states| == |steps| + 1 && j < k <= |steps| && states[j].db.nextId <= states[k - 1].db.nextId
    requires IdsFrom(states[j], states[k - 1], name, Renewed(states, steps, j, k - 1, name))
    requires IdsFrom(states[k - 1], states[k], name, Renews(states[k - 1], steps[k - 1], name))
    ensures IdsFrom(states[j], states[k], name, Renewed(states, steps, j, k, name))
  {
    RenewedOneMore(states, steps, j, k, name);
    ComposeIds(states[j], states[k - 1], states[k], name,
               Renewed(states, steps, j, k - 1, name), Renews(states[k - 1], steps[k - 1], name));
  }

  lemma RenewedOneMore(states: seq<Sys>, steps: seq<Step>, j: nat, k: nat, name: string)
    requires j < k <= |steps| && |states| == |steps| + 1
    ensures Renewed(states, steps, j, k, name) <==>
            Renewed(states, steps, j, k - 1, name) || Renews(states[k - 1], steps[k - 1], name)
  {}

  lemma ComposeIds(s: Sys, t: Sys, u: Sys, name: string, earlier: bool, last: bool)
    requires s.db.nextId <= t.db.nextId && IdsFrom(s, t, name, earlier) && IdsFrom(t, u, name, last)
    ensures IdsFrom(s, u, name, earlier || last)
  {}

  lemma IdsAt(states: seq<Sys>, steps: seq<Step>, platform: set<string>, k: nat, name: string)
    requires IsRun(states, steps) && Initial(states[0], platform) && 0 < k < |states|
    ensures states[k - 1].db.nextId <= states[k].db.nextId
    ensures IdsFrom(states[k - 1], states[k], name, Renews(states[k - 1], steps[k - 1], name))
  {
    RunKeeps(states, steps, platform, k - 1);
    IdsStep(states[k - 1], steps[k - 1], platform, name);
  }

  /** An extension's route ids at two moments of a run have nothing in common when it was replaced,
      registered or removed in between, and are the same otherwise: disabling and enabling, or
      restarting, mounts the same ids again. */
  lemma RemountIds(states: seq<Sys>, steps: seq<Step>, platform: set<string>, j: nat, k: nat, name: string)
    requires IsRun(states, steps) && Initial(states[0], platform) && j <= k < |states|
    ensures if Renewed(states, steps, j, k, name) then RouteIds(states[j].db, name) !! RouteIds(states[k].db, name)
            else RouteIds(states[j].db, name) == RouteIds(states[k].db, name)
  {
    IdsBetween(states, steps, platform, j, k, name);
    RunKeeps(states, steps, platform, j);
  }

  /** The ids that are live when exactly the persisted routes are. */
  lemma LiveIds(db: Db, t: Tables, name: string)
    requires LiveExactly(db, t, name)
    ensures AllIds(t, name) == RouteIds(db, name)
  {
    forall id
      ensures id in AllIds(t, name) <==> id in RouteIds(db, name)
    {
      if id in RouteIds(db, name) {
        var v := db.routes[id].visibility;
        assert LiveOf(db, id) in Persisted(db, name, v);
        assert LiveOf(db, id) in multiset(Of(t.At(v), name));
        OfMembers(t.At(v), name, LiveOf(db, id));
        assert id in Ids(t.At(v), name);
      }
      if id in AllIds(t, name) {
        var v := if id in Ids(t.public, name) then Public else if id in Ids(t.internal, name) then Internal else Device;
        var r :| r in t.At(v) && OwnedBy(r, name) && r.id == id;
        OfMembers(t.At(v), name, r);
        LiveMember(db, t, name, v, r);
      }
    }
  }

  lemma {:induction false} OfMembers(routes: seq<Live>, name: string, r: Live)
    ensures r in Of(routes, name) <==> r in routes && OwnedBy(r, name)
  {
    if routes != [] {
      OfMembers(routes[..|routes| - 1], name, r);
    }
  }

  /** So two moments at which an extension is exactly mounted have the same live ids, or none in common,
      by whether it was stored anew in between. */
  lemma RemountedIds(states: seq<Sys>, steps: seq<Step>, platform: set<string>, j: nat, k: nat, name: string)
    requires IsRun(states, steps) && Initial(states[0], platform) && j <= k < |states|
    requires LiveExactly(states[j].db, states[j].tables, name) && LiveExactly(states[k].db, states[k].tables, name)
    ensures if Renewed(states, steps, j, k, name)
            then AllIds(states[j].tables, name) !! AllIds(states[k].tables, name)
            else AllIds(states[j].tables, name) == AllIds(states[k].tables, name)
  {
    RemountIds(states, steps, platform, j, k, name);
    LiveIds(states[j].db, states[j].tables, name);
    LiveIds(states[k].db, states[k].tables, name);
  }
}
