/** The failures after a commit, each reached from a first start in a few steps. */
module LifecycleExamples {
  import opened Wrappers
  import opened Extensions
  import opened ExtensionLaws
  import opened EmptyActionName
  import opened LiveRoutes
  import opened ExtensionLifecycle
  import opened LifecycleRuns
  import opened LifecycleTheorems
  import opened LifecycleFailures

  /** An extension with one route whose body is fetched from its upstream. */
  function Example(): Manifest {
    Manifest("x", map["u" := Http("h")], [], [RouteSpec("u", Internal, None, false, None, true)], None)
  }

  function FirstStart(): Sys {
    Sys(Db(map[], map[], {}, {}, {}, {}, 0), Tables([], [], []), map[], {}, map[], {"h"})
  }

  ghost function Registered(): Sys {
    Next(FirstStart(), RegisterStep(Example(), [None], true))
  }

  lemma RegisteredIs()
    ensures Registered().phases == map[] && Registered().allowed == {"h"} && Registered().tables == Tables([], [], [])
    ensures Registered().db.extensions == map["x" := ExtensionRow(false, None, map["u" := Http("h")])]
    ensures Registered().db.routes == map[0 := RouteRow("x", "u", Internal, None, false, true, UnreachableRef, None)]
    ensures Registered().db.owners == {} && Registered().db.actions == {} && Registered().db.grants == {}
    ensures Registered().db.nextId == 1
  {
    var s, m := FirstStart(), Example();
    assert OwnershipOk(s.db, m, None) && ManifestOk(m, true);
    var after := Register(s.db, m, [None]).value;
    RegisterShape(s.db, m, [None]);
    assert NewRow(m, [None], 0, 0) == RouteRow("x", "u", Internal, None, false, true, UnreachableRef, None);
    assert after.routes == map[0 := RouteRow("x", "u", Internal, None, false, true, UnreachableRef, None)];
    assert after.owners == {};
  }

  lemma RegisteredIsOk()
    ensures Initial(FirstStart(), {}) && Inv(Registered(), {})
  {
    InitialIsOk(FirstStart(), {});
    StepKeeps(FirstStart(), RegisterStep(Example(), [None], true), {});
  }

  /** Its listing, and what a bare `true` in the place of its schema means. */
  lemma ExampleRoute(db: Db)
    requires db.routes.Keys == {0} && db.routes[0].owner == "x" && db.routes[0].upstream == "u" && db.routes[0].bodyRef
    requires "x" in db.extensions && db.extensions["x"].upstreams == map["u" := Http("h")]
    ensures IsListing(db, "x", [0]) && HasRoutes(db, "x")
    ensures !RefetchedObjects(db, "x", map[0 := Bare("true")]) && RefetchedObjects(db, "x", map[])
    ensures UrlsAllowed(db.extensions["x"].upstreams, {"h"})
  {
    assert 0 in db.routes && IsRefRoute(db, 0);
  }

  /** Registered, then enabled while its upstream answers `true`: enabled, and nothing live. */
  lemma EnabledUnmountedHappens()
    ensures Initial(FirstStart(), {})
    ensures var t := EnableRequest(Registered(), "x", map[0 := Bare("true")], [0]);
            "x" !in t.phases && IsEnabled(t.db, "x") && Unmounted(t.tables, "x") && !LiveExactly(t.db, t.tables, "x")
  {
    RegisteredIs();
    RegisteredIsOk();
    ExampleRoute(Registered().db);
    EnabledUnmounted(Registered());
  }

  lemma EnabledUnmounted(s: Sys)
    requires Inv(s, {}) && s.phases == map[] && s.allowed == {"h"} && s.tables == Tables([], [], [])
    requires s.db.extensions == map["x" := ExtensionRow(false, None, map["u" := Http("h")])]
    requires IsListing(s.db, "x", [0]) && HasRoutes(s.db, "x") && !RefetchedObjects(s.db, "x", map[0 := Bare("true")])
    ensures var t := EnableRequest(s, "x", map[0 := Bare("true")], [0]);
            "x" !in t.phases && IsEnabled(t.db, "x") && Unmounted(t.tables, "x") && !LiveExactly(t.db, t.tables, "x")
  {
    assert Unmounted(s.tables, "x");
    EnableLeavesUnmounted(s, "x", map[0 := Bare("true")], [0], {});
  }

  /** The example enabled with no answer from its upstream, which is no failure. */
  ghost function Mounted(): Sys {
    Next(EnableRequest(Registered(), "x", map[], [0]), EnablePublishStep("x"))
  }

  lemma MountedIs()
    ensures Inv(Mounted(), {}) && "x" !in Mounted().phases && LiveExactly(Mounted().db, Mounted().tables, "x")
    ensures Mounted().allowed == {"h"} && IsEnabled(Mounted().db, "x")
    ensures "x" in Registered().db.extensions && Mounted().db == SetEnabled(Refresh(Registered().db, {"x"}, map[]), "x", true)
  {
    RegisteredIs();
    RegisteredIsOk();
    ExampleRoute(Registered().db);
    EnableSucceeds(Registered(), "x", map[], [0], {});
  }

  /** A second enable request meets the answer `true` and gives up before its commit. */
  ghost function Retried(): Sys {
    Next(Next(Mounted(), EnableRefreshStep("x", map[0 := Bare("true")])), GiveUpStep("x"))
  }

  lemma RetriedIs()
    ensures Inv(Retried(), {}) && "x" !in Retried().phases && Right(Retried(), "x")
    ensures Retried().db == Refresh(Mounted().db, {"x"}, map[0 := Bare("true")]) && Retried().allowed == {"h"}
  {
    MountedIs();
    RefreshThenGiveUp(Mounted(), "x", map[0 := Bare("true")], {});
  }

  lemma RefreshedTwice(db: Db)
    requires db.routes.Keys == {0} && db.routes[0].owner == "x" && db.routes[0].upstream == "u" && db.routes[0].bodyRef
    requires "x" in db.extensions && db.extensions["x"].upstreams == map["u" := Http("h")] && db.extensions["x"].enabled
    ensures var after := Refresh(db, {"x"}, map[0 := Bare("true")]);
            && IsEnabled(after, "x") && HasRoutes(after, "x") && !DetailOk(after, {"h"}, "x")
  {
    var after := Refresh(db, {"x"}, map[0 := Bare("true")]);
    assert IsRefRoute(db, 0);
    assert 0 in after.routes && after.routes[0].body == Some(Bare("true")) && after.routes[0].owner == "x";
  }

  lemma EnabledRoutes(db: Db, after: Db)
    requires db.extensions == map["x" := ExtensionRow(false, None, map["u" := Http("h")])]
    requires db.routes == map[0 := RouteRow("x", "u", Internal, None, false, true, UnreachableRef, None)]
    requires after == SetEnabled(Refresh(db, {"x"}, map[]), "x", true)
    ensures after.routes.Keys == {0}
    ensures after.routes[0].owner == "x" && after.routes[0].upstream == "u" && after.routes[0].bodyRef
    ensures after.extensions == map["x" := ExtensionRow(true, None, map["u" := Http("h")])]
  {}

  lemma MountedRoutes()
    ensures var db := Mounted().db;
            && db.routes.Keys == {0} && db.routes[0].owner == "x" && db.routes[0].upstream == "u" && db.routes[0].bodyRef
            && db.extensions == map["x" := ExtensionRow(true, None, map["u" := Http("h")])]
            && db.owners == {} && db.actions == {} && db.grants == {}
  {
    RegisteredIs();
    MountedIs();
    EnabledRoutes(Registered().db, Mounted().db);
  }

  /** Then a disable: disabled, and everything live. */
  lemma DisabledMountedHappens()
    ensures var t := Next(Next(Retried(), DisableStep("x")), DetailStep("x"));
            "x" !in t.phases && "x" in t.db.extensions && !IsEnabled(t.db, "x") && !Unmounted(t.tables, "x")
  {
    RetriedIs();
    MountedRoutes();
    RefreshedTwice(Mounted().db);
    DisableLeavesMounted(Retried(), "x", {});
  }

  lemma ExampleReplaces(db: Db)
    requires Sound(db, {}) && db.extensions == map["x" := ExtensionRow(true, None, map["u" := Http("h")])]
    requires db.owners == {} && db.actions == {} && db.grants == {}
    ensures OwnedActions(db, "x") == {} && ReplaceCheck(db, "x", Example(), true)
    ensures Replace(db, Example(), [Some(Bare("true"))], {}, true).Some?
    ensures UrlsAllowed(Example().upstreams, {"h"}) && !FetchedObjects(Example(), [Some(Bare("true"))])
  {
    var m := Example();
    assert OwnershipOk(db, m, Some("x")) && UiOk(db, m, Some("x"));
    assert m.routes[0].requiredAction == None && m.routes[0].bodyRef;
    ReplaceSucceedsIff(db, m, [Some(Bare("true"))], true, {});
  }

  /** Replaced by the same manifest while its upstream answers `true`: the old route is live, the new
      one is not. */
  lemma StaleHappens()
    ensures var t := ReplaceRequest(Mounted(), Example(), [Some(Bare("true"))]);
            && "x" !in t.phases && IsEnabled(t.db, "x")
            && Stale(t, "x") && !Unmounted(t.tables, "x") && !LiveExactly(t.db, t.tables, "x")
  {
    MountedIs();
    MountedRoutes();
    ExampleReplaces(Mounted().db);
    ReplaceLeavesStale(Mounted(), Example(), [Some(Bare("true"))], {});
  }

  /** An enable request for a name nobody has registered, up to its build. */
  ghost function UnknownBuilt(): Sys {
    Next(Next(FirstStart(), EnableRefreshStep("x", map[])), EnableBuildStep("x", [], {}))
  }

  lemma UnknownBuiltIs()
    ensures UnknownBuilt() == Lock(FirstStart(), "x", Enabling(NOTHING, false))
  {
    var s := FirstStart();
    var r := Next(s, EnableRefreshStep("x", map[]));
    assert Refresh(s.db, {"x"}, map[]) == s.db;
    assert r == Lock(s, "x", Refreshed);
    assert IsListing(r.db, "x", []) && BuildPersisted(r.db, "x", [], {}) == Some(NOTHING);
    LockTwice(s, "x", Refreshed, Enabling(NOTHING, false));
  }

  lemma UnknownBuiltIsOk()
    ensures Inv(UnknownBuilt(), {})
  {
    InitialIsOk(FirstStart(), {});
    StepKeeps(FirstStart(), EnableRefreshStep("x", map[]), {});
    StepKeeps(Next(FirstStart(), EnableRefreshStep("x", map[])), EnableBuildStep("x", [], {}), {});
  }

  ghost function Slipped(): Sys {
    Next(UnknownBuilt(), RegisterStep(Example(), [None], true))
  }

  lemma SlippedIs()
    ensures SlipsPast(UnknownBuilt(), RegisterStep(Example(), [None], true))
    ensures Slipped() == Lock(Registered(), "x", Enabling(NOTHING, false))
  {
    UnknownBuiltIs();
    RegisteredIs();
  }

  lemma SlippedIsOk()
    ensures Inv(Slipped(), {})
  {
    UnknownBuiltIsOk();
    StepKeeps(UnknownBuilt(), RegisterStep(Example(), [None], true), {});
  }

  ghost function Finished(s: Sys): Sys {
    Next(Published(s), EnablePublishStep("x"))
  }

  ghost function Published(s: Sys): Sys {
    Next(Next(s, EnableCommitStep("x")), DetailStep("x"))
  }

  lemma LatePublishing(s: Sys)
    requires s.phases == map["x" := Enabling(NOTHING, false)] && s.allowed == {"h"}
    requires s.db.extensions == map["x" := ExtensionRow(false, None, map["u" := Http("h")])]
    requires s.db.routes == map[0 := RouteRow("x", "u", Internal, None, false, true, UnreachableRef, None)]
    ensures Published(s).phases == map["x" := Publishing(NOTHING, false)] && HasRoutes(Published(s).db, "x")
  {
    var c := Next(s, EnableCommitStep("x"));
    assert c == Lock(s.(db := SetEnabled(s.db, "x", true)), "x", EnableCommitted(NOTHING, false, true));
    assert 0 in c.db.routes && c.db.routes[0].owner == "x";
    assert DetailOk(c.db, c.allowed, "x");
  }

  lemma PublishedIsOk(s: Sys)
    requires Inv(s, {})
    ensures Inv(Published(s), {})
  {
    StepKeeps(s, EnableCommitStep("x"), {});
    StepKeeps(Next(s, EnableCommitStep("x")), DetailStep("x"), {});
  }

  lemma FinishesUnmounted(s: Sys)
    requires Inv(Published(s), {})
    requires Published(s).phases == map["x" := Publishing(NOTHING, false)] && HasRoutes(Published(s).db, "x")
    ensures var t := Finished(s);
            "x" !in t.phases && IsEnabled(t.db, "x") && Unmounted(t.tables, "x") && HasRoutes(t.db, "x") && !Right(t, "x")
  {
    LateEnableMountsNothing(Published(s), "x", {});
  }

  /** The registration commits in the middle of the request: enabled, and nothing live. */
  lemma LateEnableHappens()
    ensures SlipsPast(UnknownBuilt(), RegisterStep(Example(), [None], true))
    ensures var t := Finished(Slipped());
            "x" !in t.phases && IsEnabled(t.db, "x") && Unmounted(t.tables, "x") && HasRoutes(t.db, "x") && !Right(t, "x")
  {
    SlippedIs();
    SlippedIsOk();
    RegisteredIs();
    LatePublishing(Slipped());
    PublishedIsOk(Slipped());
    FinishesUnmounted(Slipped());
  }
}
