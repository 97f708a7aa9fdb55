/** From a manifest to the live routes: how its entries are stored, that they stay so until the extension
    is stored anew or removed, and that an enabled extension serves each of them once, in the app of its
    visibility, and nothing else. */
module ManifestRoutes {
  import opened Wrappers
  import opened Extensions
  import opened ExtensionLaws
  import opened LiveRoutes
  import opened ExtensionLifecycle
  import opened LifecycleLaws
  import opened LifecycleRuns
  import opened LifecycleTheorems
  import opened LifecycleFailures

  // ----- how a manifest is stored -----

  /** A row as stored for a manifest entry: everything the entry says, a given body declared, the body of
      a referring entry fetched or missing, no body otherwise. */
  predicate Stores(row: RouteRow, name: string, r: RouteSpec) {
    && row.owner == name && row.upstream == r.upstream && row.visibility == r.visibility
    && row.requiredAction == r.requiredAction && row.scoped == r.scoped && row.bodyRef == r.bodyRef
    && (r.body.Some? ==> row.mode == Declared && row.body == r.body)
    && (r.body.None? && !r.bodyRef ==> row.mode == NoBody && row.body == None)
    && (r.body.None? && r.bodyRef ==>
          (row.mode == UpstreamDeclared && row.body.Some?) || (row.mode == UnreachableRef && row.body == None))
  }

  /** The stored routes of the manifest's extension are its entries, the i-th under id `from + i`. */
  ghost predicate StoredFrom(db: Db, m: Manifest, from: nat) {
    && (forall id: nat :: (id in db.routes && db.routes[id].owner == m.name) <==> from <= id < from + |m.routes|)
    && forall i | 0 <= i < |m.routes| :: from + i in db.routes && Stores(db.routes[from + i], m.name, m.routes[i])
  }

  /** The body of a referring entry is the one just fetched, if any. */
  predicate FetchedStored(db: Db, m: Manifest, fetched: seq<Option<Schema>>, from: nat)
    requires |fetched| == |m.routes|
  {
    forall i | 0 <= i < |m.routes| && m.routes[i].bodyRef && m.routes[i].body.None? ::
      from + i in db.routes && db.routes[from + i].body == fetched[i]
  }

  lemma RowsAreStored(db: Db, after: Db, m: Manifest, fetched: seq<Option<Schema>>)
    requires |fetched| == |m.routes| && after.routes == RoutesWithout(db, m.name) + NewRoutes(m, fetched, db.nextId)
    ensures StoredFrom(after, m, db.nextId) && FetchedStored(after, m, fetched, db.nextId)
  {
    forall i | 0 <= i < |m.routes|
      ensures db.nextId + i in after.routes && Stores(after.routes[db.nextId + i], m.name, m.routes[i])
      ensures m.routes[i].bodyRef && m.routes[i].body.None? ==> after.routes[db.nextId + i].body == fetched[i]
    {
      assert after.routes[db.nextId + i] == NewRow(m, fetched, db.nextId, db.nextId + i);
      RowStores(m.name, m.routes[i], fetched[i]);
    }
    forall id: nat | id in after.routes
      ensures after.routes[id].owner == m.name <==> db.nextId <= id < db.nextId + |m.routes|
    {
      NewRouteIs(m, fetched, db, after.routes, id);
    }
  }

  lemma RowStores(name: string, r: RouteSpec, fetched: Option<Schema>)
    ensures Stores(RowOf(name, r, fetched), name, r)
    ensures r.bodyRef && r.body.None? ==> RowOf(name, r, fetched).body == fetched
  {}

  /** A registration stores each entry of its manifest under the next free ids, in order. */
  lemma RegisterStores(db: Db, m: Manifest, fetched: seq<Option<Schema>>)
    requires |fetched| == |m.routes| && Register(db, m, fetched).Some?
    ensures var after := Register(db, m, fetched).value;
            StoredFrom(after, m, db.nextId) && FetchedStored(after, m, fetched, db.nextId)
  {
    RegisterShape(db, m, fetched);
    RowsAreStored(db, Register(db, m, fetched).value, m, fetched);
  }

  /** So does a replacement. */
  lemma ReplaceStores(db: Db, m: Manifest, fetched: seq<Option<Schema>>, oldActions: set<string>, wasEnabled: bool)
    requires |fetched| == |m.routes| && Replace(db, m, fetched, oldActions, wasEnabled).Some?
    ensures var after := Replace(db, m, fetched, oldActions, wasEnabled).value;
            StoredFrom(after, m, db.nextId) && FetchedStored(after, m, fetched, db.nextId)
  {
    ReplaceShape(db, m, fetched, oldActions, wasEnabled);
    RowsAreStored(db, Replace(db, m, fetched, oldActions, wasEnabled).value, m, fetched);
  }

  // ----- that it stays so -----

  lemma OthersKeepStored(db: Db, after: Db, m: Manifest, from: nat)
    requires StoredFrom(db, m, from)
    requires forall id: nat :: (id in after.routes && after.routes[id].owner == m.name) <==>
                               (id in db.routes && db.routes[id].owner == m.name)
    requires forall id | id in db.routes && db.routes[id].owner == m.name :: after.routes[id] == db.routes[id]
    ensures StoredFrom(after, m, from)
  {
    forall i | 0 <= i < |m.routes|
      ensures from + i in after.routes && Stores(after.routes[from + i], m.name, m.routes[i])
    {
      assert Stores(db.routes[from + i], m.name, m.routes[i]);
    }
  }

  lemma StoringOthers(db: Db, after: Db, m: Manifest, from: nat, other: Manifest, fetched: seq<Option<Schema>>)
    requires StoredFrom(db, m, from) && other.name != m.name && |fetched| == |other.routes|
    requires forall id | id in db.routes :: id < db.nextId
    requires after.routes == RoutesWithout(db, other.name) + NewRoutes(other, fetched, db.nextId)
    ensures StoredFrom(after, m, from)
  {
    forall id: nat
      ensures (id in after.routes && after.routes[id].owner == m.name) <==> (id in db.routes && db.routes[id].owner == m.name)
    {
      if id in after.routes {
        NewRouteIs(other, fetched, db, after.routes, id);
      }
    }
    OthersKeepStored(db, after, m, from);
  }

  /** A refetch changes at most the body of referring entries. */
  lemma RefreshKeepsStored(db: Db, m: Manifest, from: nat, names: set<string>, refetched: map<nat, Schema>)
    requires StoredFrom(db, m, from) && ManifestOk(m, true)
    ensures StoredFrom(Refresh(db, names, refetched), m, from)
  {
    var after := Refresh(db, names, refetched);
    forall i | 0 <= i < |m.routes|
      ensures from + i in after.routes && Stores(after.routes[from + i], m.name, m.routes[i])
    {
      assert Stores(db.routes[from + i], m.name, m.routes[i]) && RouteOk(m.upstreams, m.routes[i]);
    }
  }

  lemma StepKeepsStored(s: Sys, step: Step, platform: set<string>, m: Manifest, from: nat)
    requires Inv(s, platform) && StoredFrom(s.db, m, from) && ManifestOk(m, true) && !Renews(s, step, m.name)
    ensures StoredFrom(Next(s, step).db, m, from)
  {
    var after := Next(s, step).db;
    match step {
      case RegisterStep(other, fetched, otherRules) =>
        if after != s.db {
          RegisterShape(s.db, other, fetched);
          StoringOthers(s.db, after, m, from, other, fetched);
        }
      case ReplaceCommitStep(n, fetched) =>
        assert NameOk(s, n);
        if after != s.db {
          var p := s.phases[n];
          ReplaceShape(s.db, p.m, fetched, p.oldActions, p.wasEnabled);
          StoringOthers(s.db, after, m, from, p.m, fetched);
        }
      case DeregisterStep(n) =>
        if after != s.db {
          DeregisterShape(s.db, n);
          OthersKeepStored(s.db, after, m, from);
        }
      case EnableRefreshStep(n, refetched) => RefreshKeepsStored(s.db, m, from, {n}, refetched);
      case RestartStep(start) => RefreshKeepsStored(s.db, m, from, EnabledNames(s.db), start.refetched);
      case _ => SameRoutes(s, step, m, from);
    }
  }

  lemma SameRoutes(s: Sys, step: Step, m: Manifest, from: nat)
    requires StoredFrom(s.db, m, from) && !step.RegisterStep? && !step.ReplaceCommitStep? && !step.DeregisterStep?
    requires !step.EnableRefreshStep? && !step.RestartStep?
    ensures StoredFrom(Next(s, step).db, m, from)
  {
    RoutesStay(s, step);
    OthersKeepStored(s.db, Next(s, step).db, m, from);
  }

  lemma RoutesStay(s: Sys, step: Step)
    requires !step.RegisterStep? && !step.ReplaceCommitStep? && !step.DeregisterStep?
    requires !step.EnableRefreshStep? && !step.RestartStep?
    ensures Next(s, step).db.routes == s.db.routes
  {}

  /** The manifest a successful registration or replacement step stores. */
  ghost predicate StoresManifest(s: Sys, step: Step, m: Manifest) {
    match step
    case RegisterStep(n, fetched, otherRules) => n == m && NextRegister(s, m, fetched, otherRules).db != s.db
    case ReplaceCommitStep(n, fetched) =>
      n == m.name && NextReplaceCommit(s, n, fetched).db != s.db && s.phases[n].m == m
    case _ => false
  }

  lemma StoringStep(s: Sys, step: Step, platform: set<string>, m: Manifest)
    requires Inv(s, platform) && StoresManifest(s, step, m)
    ensures StoredFrom(Next(s, step).db, m, s.db.nextId) && ManifestOk(m, true)
  {
    match step
    case RegisterStep(n, fetched, otherRules) => RegisterStores(s.db, m, fetched);
    case ReplaceCommitStep(n, fetched) =>
      assert NameOk(s, n);
      ReplaceStores(s.db, m, fetched, s.phases[n].oldActions, s.phases[n].wasEnabled);
  }

  lemma {:induction false} StaysStored(states: seq<Sys>, steps: seq<Step>, platform: set<string>, j: nat, k: nat, m: Manifest,
                                       from: nat)
    requires IsRun(states, steps) && Initial(states[0], platform) && j <= k < |states|
    requires StoredFrom(states[j].db, m, from) && ManifestOk(m, true) && !Renewed(states, steps, j, k, m.name)
    ensures StoredFrom(states[k].db, m, from)
    decreases k
  {
    if j < k {
      RenewedOneMore(states, steps, j, k, m.name);
      StaysStored(states, steps, platform, j, k - 1, m, from);
      RunStepKeepsStored(states, steps, platform, k - 1, m, from);
    }
  }

  /** Until the extension is stored anew or removed, its rows are the entries of its last manifest. */
  lemma ManifestOverRuns(states: seq<Sys>, steps: seq<Step>, platform: set<string>, j: nat, k: nat, m: Manifest)
    requires IsRun(states, steps) && Initial(states[0], platform) && j < k < |states|
    requires StoresManifest(states[j], steps[j], m) && !Renewed(states, steps, j + 1, k, m.name)
    ensures StoredFrom(states[k].db, m, states[j].db.nextId)
  {
    StoringStepOfRun(states, steps, platform, j, m);
    StaysStored(states, steps, platform, j + 1, k, m, states[j].db.nextId);
  }

  lemma RunStepKeepsStored(states: seq<Sys>, steps: seq<Step>, platform: set<string>, i: nat, m: Manifest, from: nat)
    requires IsRun(states, steps) && Initial(states[0], platform) && i < |steps|
    requires StoredFrom(states[i].db, m, from) && ManifestOk(m, true) && !Renews(states[i], steps[i], m.name)
    ensures StoredFrom(states[i + 1].db, m, from)
  {
    RunKeeps(states, steps, platform, i);
    StepKeepsStored(states[i], steps[i], platform, m, from);
  }

  lemma StoringStepOfRun(states: seq<Sys>, steps: seq<Step>, platform: set<string>, j: nat, m: Manifest)
    requires IsRun(states, steps) && Initial(states[0], platform) && j < |steps| && StoresManifest(states[j], steps[j], m)
    ensures StoredFrom(states[j + 1].db, m, states[j].db.nextId) && ManifestOk(m, true)
  {
    RunKeeps(states, steps, platform, j);
    StoringStep(states[j], steps[j], platform, m);
  }

  // ----- what is served -----

  /** Each entry is live once in the app of its visibility, under its id and with its own body to
      validate against, and nothing else of the extension is. */
  ghost predicate Serves(t: Tables, m: Manifest, from: nat) {
    forall v, r ::
      multiset(Of(t.At(v), m.name))[r] ==
      if exists i :: 0 <= i < |m.routes| && m.routes[i].visibility == v && r == Mounted(m.name, from + i, m.routes[i].body)
      then 1 else 0
  }

  lemma ServedEntry(db: Db, m: Manifest, from: nat, v: Visibility, r: Live)
    requires StoredFrom(db, m, from)
    ensures r in Persisted(db, m.name, v) <==>
            exists i :: 0 <= i < |m.routes| && m.routes[i].visibility == v && r == Mounted(m.name, from + i, m.routes[i].body)
  {
    if r in Persisted(db, m.name, v) {
      var id :| id in db.routes && db.routes[id].owner == m.name && db.routes[id].visibility == v && r == LiveOf(db, id);
      var i := id - from;
      assert Stores(db.routes[from + i], m.name, m.routes[i]);
    }
    if i :| 0 <= i < |m.routes| && m.routes[i].visibility == v && r == Mounted(m.name, from + i, m.routes[i].body) {
      assert Stores(db.routes[from + i], m.name, m.routes[i]);
      assert r == LiveOf(db, from + i);
    }
  }

  lemma LiveIsServed(db: Db, t: Tables, m: Manifest, from: nat)
    requires StoredFrom(db, m, from) && LiveExactly(db, t, m.name)
    ensures Serves(t, m, from)
  {
    forall v, r
      ensures multiset(Of(t.At(v), m.name))[r] ==
              if exists i :: 0 <= i < |m.routes| && m.routes[i].visibility == v && r == Mounted(m.name, from + i, m.routes[i].body)
              then 1 else 0
    {
      ServedEntry(db, m, from, v, r);
      assert multiset(Of(t.At(v), m.name))[r] == multiset(Persisted(db, m.name, v))[r];
    }
  }

  /** In every run: an extension that is enabled with its live routes right serves exactly the manifest it
      was last stored with. */
  lemma ServesItsManifest(states: seq<Sys>, steps: seq<Step>, platform: set<string>, j: nat, k: nat, m: Manifest)
    requires IsRun(states, steps) && Initial(states[0], platform) && j < k < |states|
    requires StoresManifest(states[j], steps[j], m) && !Renewed(states, steps, j + 1, k, m.name)
    requires IsEnabled(states[k].db, m.name) && Right(states[k], m.name)
    ensures Serves(states[k].tables, m, states[j].db.nextId)
  {
    ManifestOverRuns(states, steps, platform, j, k, m);
    LiveIsServed(states[k].db, states[k].tables, m, states[j].db.nextId);
  }

  /** A registration followed by an enable that succeeds serves its manifest. */
  lemma RegisterThenEnableServes(s: Sys, m: Manifest, fetched: seq<Option<Schema>>, refetched: map<nat, Schema>,
                                 listing: seq<nat>, platform: set<string>)
    requires Inv(s, platform) && m.name !in s.phases && StoresManifest(s, RegisterStep(m, fetched, true), m)
    requires var r := Next(s, RegisterStep(m, fetched, true));
             && IsListing(r.db, m.name, listing) && !ReplaceConflict(r.db, m.name, m.ui)
             && RefetchedObjects(r.db, m.name, refetched)
    ensures var e := EnableRequest(Next(s, RegisterStep(m, fetched, true)), m.name, refetched, listing);
            var t := Next(e, EnablePublishStep(m.name));
            IsEnabled(t.db, m.name) && Serves(t.tables, m, s.db.nextId)
  {
    var r := Next(s, RegisterStep(m, fetched, true));
    StepKeeps(s, RegisterStep(m, fetched, true), platform);
    StoringStep(s, RegisterStep(m, fetched, true), platform, m);
    RegisterShape(s.db, m, fetched);
    EnableSucceeds(r, m.name, refetched, listing, platform);
    EnabledServes(r.db, m, s.db.nextId, refetched,
                  Next(EnableRequest(r, m.name, refetched, listing), EnablePublishStep(m.name)));
  }

  lemma EnabledServes(db: Db, m: Manifest, from: nat, refetched: map<nat, Schema>, t: Sys)
    requires StoredFrom(db, m, from) && ManifestOk(m, true) && m.name in db.extensions
    requires t.db == SetEnabled(Refresh(db, {m.name}, refetched), m.name, true) && LiveExactly(t.db, t.tables, m.name)
    ensures IsEnabled(t.db, m.name) && Serves(t.tables, m, from)
  {
    RefreshKeepsStored(db, m, from, {m.name}, refetched);
    OthersKeepStored(Refresh(db, {m.name}, refetched), t.db, m, from);
    LiveIsServed(t.db, t.tables, m, from);
  }
}
