/** Every step keeps the lifecycle invariant. */
module LifecycleLaws {
  import opened Wrappers
  import opened Extensions
  import opened ExtensionLaws
  import opened LiveRoutes
  import opened ExtensionLifecycle

  // ----- frames -----

  /** Nothing the lifecycle of extension `n` depends on differs. */
  ghost predicate SameFor(db: Db, after: Db, n: string) {
    && (n in db.extensions <==> n in after.extensions)
    && IsEnabled(db, n) == IsEnabled(after, n)
    && OwnedActions(db, n) == OwnedActions(after, n)
    && forall v :: Persisted(db, n, v) == Persisted(after, n, v)
  }

  predicate SameRow(db: Db, after: Db, id: nat, n: string) {
    && ((id in db.routes && db.routes[id].owner == n) <==> (id in after.routes && after.routes[id].owner == n))
    && (id in db.routes && id in after.routes && db.routes[id].owner == n ==>
          LiveOf(db, id) == LiveOf(after, id) && db.routes[id].visibility == after.routes[id].visibility)
  }

  lemma SameRowsSamePersisted(db: Db, after: Db, n: string, v: Visibility)
    requires forall id :: SameRow(db, after, id, n)
    ensures Persisted(db, n, v) == Persisted(after, n, v)
  {
    forall r | r in Persisted(db, n, v)
      ensures r in Persisted(after, n, v)
    {
      assert SameRow(db, after, r.id, n);
    }
    forall r | r in Persisted(after, n, v)
      ensures r in Persisted(db, n, v)
    {
      assert SameRow(db, after, r.id, n);
    }
  }

  /** No id below the old counter is stored that was not stored before. */
  predicate IdsAreNew(db: Db, after: Db) {
    db.nextId <= after.nextId && forall id | id in after.routes && id < db.nextId :: id in db.routes
  }

  /** A step has not touched anything that matters for `n`. */
  ghost predicate Elsewhere(s: Sys, t: Sys, n: string) {
    && SameFor(s.db, t.db, n) && IdsAreNew(s.db, t.db) && s.allowed == t.allowed
    && (forall v :: Of(s.tables.At(v), n) == Of(t.tables.At(v), n))
    && (n in s.phases <==> n in t.phases) && (n in s.phases ==> s.phases[n] == t.phases[n])
  }

  lemma NameFrame(s: Sys, t: Sys, n: string)
    requires NameOk(s, n) && Elsewhere(s, t, n)
    ensures NameOk(t, n)
  {
    if n in s.phases {
      var phase := s.phases[n];
      if phase.Enabling? || phase.EnableCommitted? || phase.Publishing? {
        BuiltFrame(s.db, t.db, n, phase.built, phase.existed);
      }
    }
  }

  lemma TrackFrame(s: Sys, t: Sys, n: string)
    requires OnTrack(s, n) && Elsewhere(s, t, n)
    ensures OnTrack(t, n)
  {
    assert Right(s, n) ==> Right(t, n);
    assert Stale(s, n) ==> Stale(t, n);
  }

  lemma BuiltFrame(db: Db, after: Db, n: string, built: Tables, existed: bool)
    requires SameFor(db, after, n) && BuiltOk(db, n, built, existed)
    ensures BuiltOk(after, n, built, existed)
  {}

  /** A write to the database that keeps old rows' declared schemas keeps the handlers. */
  lemma HandlersFrame(s: Sys, after: Db)
    requires HandlersOk(s) && s.db.nextId <= after.nextId
    requires forall id :: id in after.routes && id < s.db.nextId ==>
      id in s.db.routes && LiveOf(s.db, id) == LiveOf(after, id)
        && (s.db.routes[id].mode == Declared ==> after.routes[id].mode == Declared && after.routes[id].body == s.db.routes[id].body)
    ensures HandlersOk(s.(db := after))
  {
    forall h | h in s.handlers
      ensures DeclaresAs(after, h)
    {
      assert DeclaresAs(s.db, h);
    }
  }

  // ----- what a transaction means for other extensions -----

  lemma OldRowsStay(db: Db, after: Db, m: Manifest, fetched: seq<Option<Schema>>, n: string, id: nat)
    requires |fetched| == |m.routes| && RoutesSound(db) && n != m.name
    requires after.routes == RoutesWithout(db, m.name) + NewRoutes(m, fetched, db.nextId)
    ensures SameRow(db, after, id, n)
  {}

  lemma RegisterSameFor(db: Db, m: Manifest, fetched: seq<Option<Schema>>, platform: set<string>, n: string)
    requires |fetched| == |m.routes| && Sound(db, platform) && Register(db, m, fetched).Some? && n != m.name
    ensures SameFor(db, Register(db, m, fetched).value, n)
  {
    var after := Register(db, m, fetched).value;
    RegisterShape(db, m, fetched);
    forall id {
      OldRowsStay(db, after, m, fetched, n, id);
    }
    forall v {
      SameRowsSamePersisted(db, after, n, v);
    }
    assert forall a :: (a, n) in after.owners <==> (a, n) in db.owners;
    OwnedBySame(db, after, n);
  }

  lemma OwnedBySame(db: Db, after: Db, n: string)
    requires forall a :: (a, n) in after.owners <==> (a, n) in db.owners
    ensures OwnedActions(db, n) == OwnedActions(after, n)
  {
    forall a
      ensures a in OwnedActions(db, n) <==> a in OwnedActions(after, n)
    {
      assert a in OwnedActions(db, n) <==> (a, n) in db.owners;
      assert a in OwnedActions(after, n) <==> (a, n) in after.owners;
    }
  }

  lemma ReplaceSameFor(db: Db, m: Manifest, fetched: seq<Option<Schema>>, oldActions: set<string>, wasEnabled: bool,
                       platform: set<string>, n: string)
    requires |fetched| == |m.routes| && Sound(db, platform) && n != m.name
    requires Replace(db, m, fetched, oldActions, wasEnabled).Some?
    ensures SameFor(db, Replace(db, m, fetched, oldActions, wasEnabled).value, n)
  {
    var after := Replace(db, m, fetched, oldActions, wasEnabled).value;
    ReplaceShape(db, m, fetched, oldActions, wasEnabled);
    forall id {
      OldRowsStay(db, after, m, fetched, n, id);
    }
    forall v {
      SameRowsSamePersisted(db, after, n, v);
    }
    assert forall a :: (a, n) in after.owners <==> (a, n) in db.owners;
    OwnedBySame(db, after, n);
  }

  lemma DeregisterSameFor(db: Db, name: string, n: string)
    requires Deregister(db, name).Some? && n != name
    ensures SameFor(db, Deregister(db, name).value, n)
  {
    var after := Deregister(db, name).value;
    DeregisterShape(db, name);
    assert forall id :: SameRow(db, after, id, n);
    forall v {
      SameRowsSamePersisted(db, after, n, v);
    }
    assert forall a :: (a, n) in after.owners <==> (a, n) in db.owners;
    OwnedBySame(db, after, n);
  }

  lemma FlagSameFor(db: Db, name: string, enabled: bool, n: string)
    requires name in db.extensions
    ensures n != name || IsEnabled(db, name) == enabled ==> SameFor(db, SetEnabled(db, name, enabled), n)
    ensures forall v :: Persisted(db, n, v) == Persisted(SetEnabled(db, name, enabled), n, v)
  {
    var after := SetEnabled(db, name, enabled);
    assert forall id :: SameRow(db, after, id, n);
    forall v {
      SameRowsSamePersisted(db, after, n, v);
    }
    OwnedBySame(db, after, n);
  }

  lemma RefreshSameFor(db: Db, names: set<string>, refetched: map<nat, Schema>, platform: set<string>, n: string)
    requires Sound(db, platform)
    ensures SameFor(db, Refresh(db, names, refetched), n)
  {
    var after := Refresh(db, names, refetched);
    assert forall id :: SameRow(db, after, id, n) by {
      assert forall id :: id in db.routes ==> RouteSound(db, db.routes[id]);
    }
    forall v {
      SameRowsSamePersisted(db, after, n, v);
    }
    OwnedBySame(db, after, n);
  }

  lemma RolesSameFor(db: Db, after: Db, n: string)
    requires after == db.(roles := after.roles, grants := after.grants)
    ensures SameFor(db, after, n)
  {
    forall v {
      SameRowsSamePersisted(db, after, n, v);
    }
    OwnedBySame(db, after, n);
  }

  // ----- publishing -----

  predicate IsLive(db: Db, r: Live) {
    r.Mounted? ==> r.id in db.routes && r == LiveOf(db, r.id)
  }

  lemma ExactMembers(db: Db, name: string, built: Tables, v: Visibility, r: Live)
    requires Exactly(db, name, built) && r in built.At(v)
    ensures OwnedBy(r, name) && IsLive(db, r)
  {
    assert r in multiset(built.At(v));
    assert r in Persisted(db, name, v);
  }

  lemma PublishTables(s: Sys, name: string, built: Tables, existed: bool, other: string)
    requires BuiltOk(s.db, name, built, existed)
    ensures forall v :: Of(PublishIn(s, name, built).tables.At(v), name) == built.At(v)
    ensures other != name ==> forall v :: Of(PublishIn(s, name, built).tables.At(v), other) == Of(s.tables.At(v), other)
  {
    forall v
      ensures Of(PublishIn(s, name, built).tables.At(v), name) == built.At(v)
      ensures other != name ==> Of(PublishIn(s, name, built).tables.At(v), other) == Of(s.tables.At(v), other)
    {
      forall r | r in built.At(v)
        ensures OwnedBy(r, name)
      {
        ExactMembers(s.db, name, built, v, r);
      }
      PublishReplacesOwn(s.tables, name, built, v, other);
    }
  }

  lemma {:induction false} ExceptMembers(routes: seq<Live>, name: string, r: Live)
    ensures r in Except(routes, name) <==> r in routes && !OwnedBy(r, name)
  {
    if routes != [] {
      ExceptMembers(routes[..|routes| - 1], name, r);
    }
  }

  lemma HandlersAfter(routes: seq<Live>, name: string, added: seq<Live>)
    ensures HandlersIn(Except(routes, name) + added) <= HandlersIn(routes) + HandlersIn(added)
  {
    forall r | r in Except(routes, name) + added
      ensures r in routes || r in added
    {
      ExceptMembers(routes, name, r);
    }
  }

  lemma PublishHandlers(s: Sys, name: string, built: Tables, existed: bool)
    requires HandlersOk(s) && RoutesSound(s.db) && BuiltOk(s.db, name, built, existed)
    ensures HandlersOk(PublishIn(s, name, built))
  {
    HandlersAfter(s.tables.public, name, built.public);
    HandlersAfter(s.tables.internal, name, built.internal);
    HandlersAfter(s.tables.device, name, built.device);
    forall h | h in HandlersOf(built)
      ensures h.0 in s.db.routes && DeclaresAs(s.db, h)
    {
      BuiltHandler(s.db, name, built, existed, h);
    }
    MoreHandlers(s.db, s.handlers, HandlersOf(built));
  }

  /** Adding handlers of stored routes keeps one schema for each id. */
  lemma MoreHandlers(db: Db, handlers: set<(nat, Schema)>, more: set<(nat, Schema)>)
    requires forall h :: h in handlers ==> DeclaresAs(db, h)
    requires forall h :: h in more ==> h.0 in db.routes && DeclaresAs(db, h)
    requires forall h, k :: h in handlers && k in handlers && h.0 == k.0 ==> h == k
    ensures forall h, k :: h in handlers + more && k in handlers + more && h.0 == k.0 ==> h == k
  {
    forall h, k | h in handlers + more && k in handlers + more && h.0 == k.0
      ensures h == k
    {
      assert DeclaresAs(db, h) && DeclaresAs(db, k);
    }
  }

  lemma BuiltHandler(db: Db, name: string, built: Tables, existed: bool, h: (nat, Schema))
    requires RoutesSound(db) && BuiltOk(db, name, built, existed) && h in HandlersOf(built)
    ensures h.0 in db.routes && DeclaresAs(db, h)
  {
    var v := if h in HandlersIn(built.public) then Public else if h in HandlersIn(built.internal) then Internal else Device;
    var r :| r in built.At(v) && r.Mounted? && r.declared.Some? && h == (r.id, r.declared.value);
    ExactMembers(db, name, built, v, r);
  }

  lemma PersistedBuild(db: Db, name: string, listing: seq<nat>, broken: set<nat>)
    requires RoutesSound(db) && IsListing(db, name, listing) && BuildPersisted(db, name, listing, broken).Some?
    ensures BuiltOk(db, name, BuildPersisted(db, name, listing, broken).value, name in db.extensions)
  {
    if name in db.extensions {
      BuildIsExact(db, name, UpstreamKeys(db, name), listing, broken);
    } else {
      assert listing == [];
    }
  }
}
