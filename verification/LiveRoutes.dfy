/** The three live route tables and the cache of body validators: building an extension's routes aside,
    publishing them in one go, and validating a request's body. */
module LiveRoutes {
  import opened Wrappers
  import opened Extensions

  /** A live route: one of the application's own, or one mounted for an extension, carrying the schema
      its handler validates bodies against. */
  datatype Live = Core(index: nat) | Mounted(owner: string, id: nat, declared: Option<Schema>)

  /** One list of routes per app; also the shape of a built set of routes. */
  datatype Tables = Tables(public: seq<Live>, internal: seq<Live>, device: seq<Live>) {
    function At(v: Visibility): seq<Live> {
      match v
      case Public => public
      case Internal => internal
      case Device => device
    }
  }

  const NOTHING := Tables([], [], [])

  predicate OwnedBy(r: Live, name: string) {
    r.Mounted? && r.owner == name
  }

  /** The routes of one extension, in table order. */
  function Of(routes: seq<Live>, name: string): seq<Live> {
    if routes == [] then []
    else
      var last := routes[|routes| - 1];
      Of(routes[..|routes| - 1], name) + if OwnedBy(last, name) then [last] else []
  }

  /** All other routes, in table order. */
  function Except(routes: seq<Live>, name: string): seq<Live> {
    if routes == [] then []
    else
      var last := routes[|routes| - 1];
      Except(routes[..|routes| - 1], name) + if OwnedBy(last, name) then [] else [last]
  }

  // ----- building -----

  function LiveOf(db: Db, id: nat): Live
    requires id in db.routes
  {
    var r := db.routes[id];
    Mounted(r.owner, id, if r.mode == Declared then r.body else None)
  }

  /** A stored route goes to an app when its upstream is stored too; otherwise it is skipped. */
  predicate GoesTo(db: Db, upstreams: set<string>, id: nat, v: Visibility)
    requires id in db.routes
  {
    db.routes[id].upstream in upstreams && db.routes[id].visibility == v
  }

  /** The routes appended to one app's table for a listing of stored routes. */
  function Appended(db: Db, upstreams: set<string>, listing: seq<nat>, v: Visibility): (r: seq<Live>)
    requires forall id <- listing :: id in db.routes
  {
    if listing == [] then []
    else
      var last := listing[|listing| - 1];
      Appended(db, upstreams, listing[..|listing| - 1], v) + if GoesTo(db, upstreams, last, v) then [LiveOf(db, last)] else []
  }

  lemma AppendedMore(db: Db, upstreams: set<string>, init: seq<nat>, last: nat, v: Visibility)
    requires last in db.routes && forall id <- init :: id in db.routes
    ensures Appended(db, upstreams, init + [last], v) ==
            Appended(db, upstreams, init, v) + if GoesTo(db, upstreams, last, v) then [LiveOf(db, last)] else []
  {
    assert (init + [last])[..|init|] == init;
  }

  /** A listing can be built when none of the routes it mounts is broken. */
  predicate Buildable(db: Db, upstreams: set<string>, listing: seq<nat>, broken: set<nat>)
    requires forall id <- listing :: id in db.routes
  {
    forall id <- listing :: db.routes[id].upstream in upstreams ==> id !in broken
  }

  lemma BuildStep(db: Db, upstreams: set<string>, listing: seq<nat>, i: nat, broken: set<nat>)
    requires i < |listing| && forall id <- listing :: id in db.routes
    ensures Buildable(db, upstreams, listing[..i + 1], broken) <==>
            Buildable(db, upstreams, listing[..i], broken) && (db.routes[listing[i]].upstream in upstreams ==> listing[i] !in broken)
    ensures Buildable(db, upstreams, listing, broken) ==> Buildable(db, upstreams, listing[..i + 1], broken)
    ensures Appended(db, upstreams, listing[..i + 1], Public) == Appended(db, upstreams, listing[..i], Public) +
            if GoesTo(db, upstreams, listing[i], Public) then [LiveOf(db, listing[i])] else []
    ensures Appended(db, upstreams, listing[..i + 1], Internal) == Appended(db, upstreams, listing[..i], Internal) +
            if GoesTo(db, upstreams, listing[i], Internal) then [LiveOf(db, listing[i])] else []
    ensures Appended(db, upstreams, listing[..i + 1], Device) == Appended(db, upstreams, listing[..i], Device) +
            if GoesTo(db, upstreams, listing[i], Device) then [LiveOf(db, listing[i])] else []
  {
    assert listing[..i + 1] == listing[..i] + [listing[i]];
    AppendedMore(db, upstreams, listing[..i], listing[i], Public);
    AppendedMore(db, upstreams, listing[..i], listing[i], Internal);
    AppendedMore(db, upstreams, listing[..i], listing[i], Device);
  }

  function Build(db: Db, upstreams: set<string>, listing: seq<nat>, broken: set<nat>): Option<Tables>
    requires forall id <- listing :: id in db.routes
  {
    if Buildable(db, upstreams, listing, broken) then
      Some(Tables(
        Appended(db, upstreams, listing, Public),
        Appended(db, upstreams, listing, Internal),
        Appended(db, upstreams, listing, Device)))
    else None
  }

  // ----- publishing -----

  function Publish(t: Tables, name: string, built: Tables): Tables {
    Tables(
      Except(t.public, name) + built.public,
      Except(t.internal, name) + built.internal,
      Except(t.device, name) + built.device)
  }

  function Ids(routes: seq<Live>, name: string): set<nat> {
    set r | r in routes && OwnedBy(r, name) :: r.id
  }

  function AllIds(t: Tables, name: string): set<nat> {
    Ids(t.public, name) + Ids(t.internal, name) + Ids(t.device, name)
  }

  // ----- the validator cache -----

  /** A compiled validator is known by the schema it was compiled from. */
  type Cache = map<nat, Schema>

  function Cached(cache: Cache, id: nat, schema: Schema): Cache {
    if id in cache then cache else cache[id := schema]
  }

  /** The first validator of a route stays until it is dropped, whatever schema is asked for later; other
      routes' are not touched. */
  lemma FirstValidatorStays(cache: Cache, id: nat, schema: Schema, later: Schema, other: nat)
    ensures Cached(Cached(cache, id, schema), id, later) == Cached(cache, id, schema)
    ensures Cached(cache, id, schema)[id] == if id in cache then cache[id] else schema
    ensures other != id ==> (other in Cached(cache, id, schema) <==> other in cache)
    ensures other != id && other in cache ==> Cached(cache, id, schema)[other] == cache[other]
  {}

  /** Dropping the validators of one more route. */
  lemma DroppedMore(cache: Cache, init: seq<Live>, last: Live, name: string)
    ensures cache - Ids(init + [last], name) ==
            (cache - Ids(init, name)) - if OwnedBy(last, name) then {last.id} else {}
  {
    assert Ids(init + [last], name) == Ids(init, name) + if OwnedBy(last, name) then {last.id} else {};
  }

  /** The errors the JSON Schema library reports for a payload, a parameter of the model. */
  type Validator<!P, !E> = (Schema, P) -> seq<E>

  /** Validation with a fresh validator. */
  function ValidateOnce<P, E>(errors: Validator<P, E>, schema: Schema, payload: P): seq<E> {
    errors(schema, payload)
  }

  /** Validation with whatever validator the cache holds or now gets. */
  function ValidatePayload<P, E>(errors: Validator<P, E>, cache: Cache, id: nat, schema: Schema, payload: P): seq<E> {
    errors(Cached(cache, id, schema)[id], payload)
  }

  lemma PublishStep(cache: Cache, routes: seq<Live>, i: nat, name: string)
    requires i < |routes|
    ensures cache - Ids(routes[..i + 1], name) ==
            (cache - Ids(routes[..i], name)) - if OwnedBy(routes[i], name) then {routes[i].id} else {}
    ensures Except(routes[..i + 1], name) ==
            Except(routes[..i], name) + if OwnedBy(routes[i], name) then [] else [routes[i]]
  {
    assert routes[..i + 1] == routes[..i] + [routes[i]];
    DroppedMore(cache, routes[..i], routes[i], name);
    OfMore(routes[..i], routes[i], name);
  }

  // ----- the running process -----

  class App {
    var routes: seq<Live>

    constructor (routes: seq<Live>)
      ensures this.routes == routes
    {
      this.routes := routes;
    }
  }

  class ValidatorCache {
    var validators: Cache

    constructor ()
      ensures validators == map[]
    {
      validators := map[];
    }

    method GetValidator(id: nat, schema: Schema) returns (validator: Schema)
      modifies this
      ensures validators == Cached(old(validators), id, schema) && validator == validators[id]
    {
      if id in validators {
        return validators[id];
      }
      validator := schema;
      validators := validators[id := validator];
    }

    method Invalidate(id: nat)
      modifies this
      ensures validators == old(validators) - {id}
    {
      validators := validators - {id};
    }

    method Validate<P, E>(errors: Validator<P, E>, id: nat, schema: Schema, payload: P) returns (found: seq<E>)
      modifies this
      ensures validators == Cached(old(validators), id, schema)
      ensures found == ValidatePayload(errors, old(validators), id, schema, payload)
    {
      var validator := GetValidator(id, schema);
      found := errors(validator, payload);
    }
  }

  class Runtime {
    const publicApp: App
    const internalApp: App
    const fieldApp: App
    const cache: ValidatorCache

    ghost predicate Valid()
      reads this
    {
      publicApp != internalApp && internalApp != fieldApp && fieldApp != publicApp
    }

    ghost function Contents(): Tables
      reads this, publicApp, internalApp, fieldApp
    {
      Tables(publicApp.routes, internalApp.routes, fieldApp.routes)
    }

    constructor (base: Tables)
      ensures Valid() && Contents() == base && cache.validators == map[]
      ensures fresh(publicApp) && fresh(internalApp) && fresh(fieldApp) && fresh(cache)
    {
      publicApp := new App(base.public);
      internalApp := new App(base.internal);
      fieldApp := new App(base.device);
      cache := new ValidatorCache();
    }

    /** Appends one route to the app of its visibility. */
    method Mount(r: Live, v: Visibility)
      requires Valid()
      modifies publicApp, internalApp, fieldApp
      ensures publicApp.routes == old(publicApp.routes) + if v == Public then [r] else []
      ensures internalApp.routes == old(internalApp.routes) + if v == Internal then [r] else []
      ensures fieldApp.routes == old(fieldApp.routes) + if v == Device then [r] else []
    {
      var app := match v
        case Public => publicApp
        case Internal => internalApp
        case Device => fieldApp;
      app.routes := app.routes + [r];
    }

    /** Appends the listed routes to the tables, up to the first one that cannot be built. */
    method AddRoutesFromSpecs(db: Db, upstreams: set<string>, listing: seq<nat>, broken: set<nat>) returns (ok: bool)
      requires Valid() && forall id <- listing :: id in db.routes
      modifies publicApp, internalApp, fieldApp
      ensures ok <==> Buildable(db, upstreams, listing, broken)
      ensures ok ==>
        && publicApp.routes == old(publicApp.routes) + Appended(db, upstreams, listing, Public)
        && internalApp.routes == old(internalApp.routes) + Appended(db, upstreams, listing, Internal)
        && fieldApp.routes == old(fieldApp.routes) + Appended(db, upstreams, listing, Device)
    {
      for i := 0 to |listing|
        invariant Buildable(db, upstreams, listing[..i], broken)
        invariant publicApp.routes == old(publicApp.routes) + Appended(db, upstreams, listing[..i], Public)
        invariant internalApp.routes == old(internalApp.routes) + Appended(db, upstreams, listing[..i], Internal)
        invariant fieldApp.routes == old(fieldApp.routes) + Appended(db, upstreams, listing[..i], Device)
      {
        BuildStep(db, upstreams, listing, i, broken);
        var r := db.routes[listing[i]];
        if r.upstream in upstreams {
          if listing[i] in broken {
            return false;
          }
          Mount(LiveOf(db, listing[i]), r.visibility);
        }
      }
      assert listing[..|listing|] == listing;
      ok := true;
    }

    /** Builds on copies of the tables; the live tables are the same afterwards, built or not. */
    method BuildRoutes(db: Db, upstreams: set<string>, listing: seq<nat>, broken: set<nat>) returns (built: Option<Tables>)
      requires Valid() && forall id <- listing :: id in db.routes
      modifies publicApp, internalApp, fieldApp
      ensures Contents() == old(Contents())
      ensures built == Build(db, upstreams, listing, broken)
    {
      var publicOriginal, internalOriginal, fieldOriginal := publicApp.routes, internalApp.routes, fieldApp.routes;
      var ok := AddRoutesFromSpecs(db, upstreams, listing, broken);
      built := None;
      if ok {
        built := Some(Tables(
          publicApp.routes[|publicOriginal|..], internalApp.routes[|internalOriginal|..], fieldApp.routes[|fieldOriginal|..]));
      }
      publicApp.routes, internalApp.routes, fieldApp.routes := publicOriginal, internalOriginal, fieldOriginal;
    }

    /** Replaces one extension's routes in one app and drops the replaced routes' validators. */
    method PublishTo(app: App, name: string, added: seq<Live>)
      modifies app, cache
      ensures app.routes == Except(old(app.routes), name) + added
      ensures cache.validators == old(cache.validators) - Ids(old(app.routes), name)
    {
      var routes := app.routes;
      var kept: seq<Live> := [];
      for i := 0 to |routes|
        invariant kept == Except(routes[..i], name)
        invariant cache.validators == old(cache.validators) - Ids(routes[..i], name)
        modifies cache
      {
        var route := routes[i];
        PublishStep(old(cache.validators), routes, i, name);
        if OwnedBy(route, name) {
          cache.Invalidate(route.id);
        } else {
          kept := kept + [route];
        }
      }
      assert routes[..|routes|] == routes;
      app.routes := kept + added;
    }

    /** Publishes built routes, or only unmounts. */
    method PublishRoutes(name: string, built: Option<Tables>)
      requires Valid()
      modifies publicApp, internalApp, fieldApp, cache
      ensures Contents() == Publish(old(Contents()), name, if built.Some? then built.value else NOTHING)
      ensures cache.validators == old(cache.validators) - AllIds(old(Contents()), name)
    {
      PublishTo(publicApp, name, if built.Some? then built.value.public else []);
      PublishTo(internalApp, name, if built.Some? then built.value.internal else []);
      PublishTo(fieldApp, name, if built.Some? then built.value.device else []);
    }
  }

  // ----- what building and publishing give -----

  /** The live routes an extension should have in one app: one for each stored route of that
      visibility. */
  function Persisted(db: Db, name: string, v: Visibility): set<Live> {
    set id | id in db.routes && db.routes[id].owner == name && db.routes[id].visibility == v :: LiveOf(db, id)
  }

  /** A listing of an extension's stored routes, in whatever order the database returns them. */
  ghost predicate IsListing(db: Db, name: string, listing: seq<nat>) {
    && (forall id <- listing :: id in db.routes)
    && (forall i, j :: 0 <= i < j < |listing| ==> listing[i] != listing[j])
    && (forall id :: id in listing <==> id in db.routes && db.routes[id].owner == name)
  }

  /** Exactly the persisted routes, each once, each in the app of its visibility. */
  ghost predicate Exactly(db: Db, name: string, built: Tables) {
    forall v :: multiset(built.At(v)) == multiset(Persisted(db, name, v))
  }

  /** Whatever the order of the listing, building it gives exactly the extension's persisted routes. */
  lemma BuildIsExact(db: Db, name: string, upstreams: set<string>, listing: seq<nat>, broken: set<nat>)
    requires IsListing(db, name, listing) && Build(db, upstreams, listing, broken).Some?
    requires forall id <- listing :: db.routes[id].upstream in upstreams
    ensures Exactly(db, name, Build(db, upstreams, listing, broken).value)
  {
    var built := Build(db, upstreams, listing, broken).value;
    forall v
      ensures multiset(built.At(v)) == multiset(Persisted(db, name, v))
    {
      AppendedOnce(db, upstreams, listing, v);
      ListingIsAll(db, name, listing, v);
      assert built.At(v) == Appended(db, upstreams, listing, v);
    }
  }

  function ListedFor(db: Db, listing: seq<nat>, v: Visibility): set<Live>
    requires forall id <- listing :: id in db.routes
  {
    set id | id in listing && db.routes[id].visibility == v :: LiveOf(db, id)
  }

  lemma ListingIsAll(db: Db, name: string, listing: seq<nat>, v: Visibility)
    requires IsListing(db, name, listing)
    ensures ListedFor(db, listing, v) == Persisted(db, name, v)
  {}

  lemma ListedMore(db: Db, init: seq<nat>, last: nat, v: Visibility)
    requires last in db.routes && last !in init && forall id <- init :: id in db.routes
    ensures ListedFor(db, init + [last], v) ==
            ListedFor(db, init, v) + if db.routes[last].visibility == v then {LiveOf(db, last)} else {}
    ensures LiveOf(db, last) !in ListedFor(db, init, v)
  {}

  lemma {:induction false} AppendedOnce(db: Db, upstreams: set<string>, listing: seq<nat>, v: Visibility)
    requires forall id <- listing :: id in db.routes && db.routes[id].upstream in upstreams
    requires forall i, j :: 0 <= i < j < |listing| ==> listing[i] != listing[j]
    ensures multiset(Appended(db, upstreams, listing, v)) == multiset(ListedFor(db, listing, v))
  {
    if listing != [] {
      var init, last := listing[..|listing| - 1], listing[|listing| - 1];
      AppendedOnce(db, upstreams, init, v);
      AppendedMore(db, upstreams, init, last, v);
      ListedMore(db, init, last, v);
      assert listing == init + [last];
    }
  }

  lemma OfMore(init: seq<Live>, last: Live, name: string)
    ensures Of(init + [last], name) == Of(init, name) + if OwnedBy(last, name) then [last] else []
    ensures Except(init + [last], name) == Except(init, name) + if OwnedBy(last, name) then [] else [last]
  {
    assert (init + [last])[..|init|] == init;
  }

  lemma {:induction false} OfAppend(a: seq<Live>, b: seq<Live>, name: string)
    ensures Of(a + b, name) == Of(a, name) + Of(b, name)
    ensures Except(a + b, name) == Except(a, name) + Except(b, name)
  {
    if b == [] {
      assert a + b == a;
    } else {
      var init, last := b[..|b| - 1], b[|b| - 1];
      OfAppend(a, init, name);
      OfMore(a + init, last, name);
      assert a + b == (a + init) + [last];
    }
  }

  lemma {:induction false} OfExcept(routes: seq<Live>, name: string, other: string)
    ensures Of(Except(routes, name), name) == []
    ensures other != name ==> Of(Except(routes, name), other) == Of(routes, other)
    ensures Except(Except(routes, name), name) == Except(routes, name)
  {
    if routes != [] {
      var init, last := routes[..|routes| - 1], routes[|routes| - 1];
      OfExcept(init, name, other);
      OfMore(Except(init, name), last, name);
      OfMore(Except(init, name), last, other);
      if OwnedBy(last, name) {
        assert Except(routes, name) == Except(init, name);
        assert other != name ==> Of(routes, other) == Of(init, other);
      }
    }
  }

  lemma {:induction false} OfOwn(routes: seq<Live>, name: string, other: string)
    requires forall r <- routes :: OwnedBy(r, name)
    ensures Of(routes, name) == routes && Except(routes, name) == []
    ensures other != name ==> Of(routes, other) == []
  {
    if routes != [] {
      OfOwn(routes[..|routes| - 1], name, other);
    }
  }

  /** Publishing leaves exactly the built routes for the extension, in order, and everything else --
      core routes and other extensions' -- where it was. */
  lemma PublishReplacesOwn(t: Tables, name: string, built: Tables, v: Visibility, other: string)
    requires forall r <- built.At(v) :: OwnedBy(r, name)
    ensures Of(Publish(t, name, built).At(v), name) == built.At(v)
    ensures Except(Publish(t, name, built).At(v), name) == Except(t.At(v), name)
    ensures other != name ==> Of(Publish(t, name, built).At(v), other) == Of(t.At(v), other)
  {
    var kept := Except(t.At(v), name);
    assert Publish(t, name, built).At(v) == kept + built.At(v);
    OfExcept(t.At(v), name, other);
    OfOwn(built.At(v), name, other);
    OfAppend(kept, built.At(v), name);
    OfAppend(kept, built.At(v), other);
  }
}
