/** Typed entities: field schemas, role mappings and instance data, patched under validation.
    A Python dictionary whose iteration order matters is a sequence of pairs with distinct keys;
    the others are maps. */
module TypedEntities {
  import opened Wrappers

  /** A JSON value; containers are kept as their text. */
  datatype Value = Null | Bool(b: bool) | Int(i: int) | Float(r: real) | Str(s: string) | Json(text: string)

  function Numeric(v: Value): Option<real> {
    match v
    case Bool(b) => Some(if b then 1.0 else 0.0)
    case Int(i) => Some(i as real)
    case Float(r) => Some(r)
    case _ => None
  }

  /** Python's `==`: booleans and numbers compare by value. */
  predicate PyEq(a: Value, b: Value) {
    if Numeric(a).Some? && Numeric(b).Some? then Numeric(a) == Numeric(b) else a == b
  }

  datatype FieldType = StringType | BooleanType | IntegerType | NumberType

  /** A field definition; `rules` stands for its pattern, bounds and options. */
  datatype FieldDef = FieldDef(
    fieldType: Option<FieldType>, required: bool, changeable: bool, default: Value, rules: string)

  /** A partial field definition: only the attributes that are present are merged. */
  datatype FieldPatch = FieldPatch(
    fieldType: Option<FieldType>, required: Option<bool>, changeable: Option<bool>,
    default: Option<Value>, rules: Option<string>)

  type Fields = map<string, FieldDef>
  type Data = map<string, Value>
  type Mapping = seq<(string, string)>

  const ENDPOINT_ROLE_TYPES: map<string, FieldType> := map["ip" := StringType, "name" := StringType]
  const SERVICE_ROLE_TYPES: map<string, FieldType> := map["port" := IntegerType]

  function Lookup(data: Data, k: string): Value {
    if k in data then data[k] else Null
  }

  function GetOr<T>(o: Option<T>, otherwise: T): T {
    match o
    case Some(t) => t
    case None => otherwise
  }

  // ----- patches -----

  const EMPTY_FIELD := FieldDef(None, false, true, Null, "")

  /** Attributes that are absent or null keep what the field has. */
  function MergeField(f: FieldDef, p: FieldPatch): FieldDef {
    FieldDef(if p.fieldType.Some? then p.fieldType else f.fieldType, GetOr(p.required, f.required),
             GetOr(p.changeable, f.changeable),
             if p.default.Some? && p.default.value != Null then p.default.value else f.default, GetOr(p.rules, f.rules))
  }

  /** A field patch: None removes the field, anything else merges into it. */
  function PatchFields(current: Fields, patch: map<string, Option<FieldPatch>>): Fields {
    map k | k in current.Keys + patch.Keys && (k in patch ==> patch[k].Some?) ::
      if k in patch then MergeField(if k in current then current[k] else EMPTY_FIELD, patch[k].value)
      else current[k]
  }

  lemma PatchOneMoreField(current: Fields, done: map<string, Option<FieldPatch>>, k: string, p: Option<FieldPatch>)
    requires k !in done
    ensures PatchFields(current, done[k := p]) ==
            if p.None? then PatchFields(current, done) - {k}
            else PatchFields(current, done)[k := MergeField(if k in current then current[k] else EMPTY_FIELD, p.value)]
  {
    assert forall x | x in done :: done[k := p][x] == done[x];
  }

  method ApplyFieldPatches(current: Fields, patch: map<string, Option<FieldPatch>>) returns (result: Fields)
    ensures result == PatchFields(current, patch)
  {
    result := current;
    var todo := patch.Keys;
    while todo != {}
      invariant todo <= patch.Keys
      invariant result == PatchFields(current, map k | k in patch.Keys - todo :: patch[k])
    {
      var k :| k in todo;
      ghost var done := map k | k in patch.Keys - todo :: patch[k];
      PatchOneMoreField(current, done, k, patch[k]);
      assert k in result <==> k in current;
      if patch[k].None? {
        result := result - {k};
      } else {
        var existing := if k in result then result[k] else EMPTY_FIELD;
        result := result[k := MergeField(existing, patch[k].value)];
      }
      todo := todo - {k};
      assert (map k | k in patch.Keys - todo :: patch[k]) == done[k := patch[k]];
    }
    assert (map k | k in patch.Keys - todo :: patch[k]) == patch;
  }

  function PatchData(current: Data, patch: Data): Data {
    map k | k in current.Keys + patch.Keys && (k in patch ==> patch[k] != Null) ::
      if k in patch then patch[k] else current[k]
  }

  lemma PatchOneMoreKey(current: Data, done: Data, k: string, v: Value)
    requires k !in done
    ensures PatchData(current, done[k := v]) == if v == Null then PatchData(current, done) - {k} else PatchData(current, done)[k := v]
  {
    assert forall x | x in done :: done[k := v][x] == done[x];
  }

  method ApplyDataPatch(current: Data, patch: Data) returns (result: Data)
    ensures result == PatchData(current, patch)
  {
    result := current;
    var todo := patch.Keys;
    while todo != {}
      invariant todo <= patch.Keys
      invariant result == PatchData(current, map k | k in patch.Keys - todo :: patch[k])
    {
      var k :| k in todo;
      ghost var done := map k | k in patch.Keys - todo :: patch[k];
      PatchOneMoreKey(current, done, k, patch[k]);
      if patch[k] == Null {
        result := result - {k};
      } else {
        result := result[k := patch[k]];
      }
      todo := todo - {k};
      assert (map k | k in patch.Keys - todo :: patch[k]) == done[k := patch[k]];
    }
    assert (map k | k in patch.Keys - todo :: patch[k]) == patch;
  }

  // ----- what a patch leaves -----

  /** A patched key holds the patch's value, null meaning nothing; every other key what it held. */
  lemma PatchedData(current: Data, patch: Data, k: string)
    ensures Lookup(PatchData(current, patch), k) == if k in patch then patch[k] else Lookup(current, k)
    ensures k in PatchData(current, patch) <==> if k in patch then patch[k] != Null else k in current
  {}

  /** Two patches one after the other are one patch, in which the later wins. */
  lemma PatchesCompose(current: Data, p: Data, q: Data)
    ensures PatchData(PatchData(current, p), q) == PatchData(current, p + q)
  {}

  /** A patched field loses nothing the patch does not mention and takes what it does; a field patched to
      null goes, a new one starts from an optional, changeable field without type, default and rules. */
  lemma PatchedField(current: Fields, patch: map<string, Option<FieldPatch>>, k: string)
    ensures k in PatchFields(current, patch) <==> if k in patch then patch[k].Some? else k in current
    ensures k !in patch && k in current ==> PatchFields(current, patch)[k] == current[k]
    ensures k in patch && patch[k].Some? ==>
              var p, f := patch[k].value, PatchFields(current, patch)[k];
              && (f.fieldType == if p.fieldType.Some? then p.fieldType else if k in current then current[k].fieldType else None)
              && (f.required <==> if p.required.Some? then p.required.value else k in current && current[k].required)
              && (f.changeable <==> if p.changeable.Some? then p.changeable.value else k in current ==> current[k].changeable)
              && (p.default.Some? && p.default.value != Null ==> f.default == p.default.value)
              && (p.default in {None, Some(Null)} ==> f.default == if k in current then current[k].default else Null)
              && (f.rules == if p.rules.Some? then p.rules.value else if k in current then current[k].rules else "")
  {}

  // ----- instance data -----

  predicate FitsType(v: Value, t: FieldType) {
    match t
    case BooleanType => v.Bool?
    case IntegerType => v.Int?
    case NumberType => v.Int? || v.Float?
    case StringType => v.Str?
  }

  /** `accepts` stands for the pattern, bound and option rules of a field, which are not applied
      to booleans. */
  predicate ValidValue(f: FieldDef, v: Value, accepts: (FieldDef, Value) -> bool) {
    && (f.fieldType.Some? ==> FitsType(v, f.fieldType.value))
    && (f.fieldType == Some(BooleanType) || accepts(f, v))
  }

  predicate ValidData(data: Data, fields: Fields, accepts: (FieldDef, Value) -> bool) {
    forall k | k in fields ::
      if Lookup(data, k) == Null then !fields[k].required else ValidValue(fields[k], Lookup(data, k), accepts)
  }

  method ValidateInstanceData(data: Data, fields: Fields, accepts: (FieldDef, Value) -> bool) returns (ok: bool)
    ensures ok <==> ValidData(data, fields, accepts)
  {
    var todo := fields.Keys;
    while todo != {}
      invariant todo <= fields.Keys
      invariant forall k | k in fields && k !in todo ::
                  if Lookup(data, k) == Null then !fields[k].required
                  else ValidValue(fields[k], Lookup(data, k), accepts)
    {
      var k :| k in todo;
      var v := Lookup(data, k);
      if v == Null {
        if fields[k].required {
          return false;
        }
      } else if !ValidValue(fields[k], v, accepts) {
        return false;
      }
      todo := todo - {k};
    }
    return true;
  }

  /** The patch sets no different value on a fixed field that already has one. */
  predicate RespectsFixedFields(current: Data, patch: Data, fields: Fields) {
    forall k | k in patch && k in fields && !fields[k].changeable && Lookup(current, k) != Null ::
      PyEq(patch[k], Lookup(current, k))
  }

  method RejectNonChangeableUpdates(current: Data, patch: Data, fields: Fields) returns (ok: bool)
    ensures ok <==> RespectsFixedFields(current, patch, fields)
  {
    var todo := patch.Keys;
    while todo != {}
      invariant todo <= patch.Keys
      invariant forall k | k in patch && k !in todo && k in fields && !fields[k].changeable
                           && Lookup(current, k) != Null :: PyEq(patch[k], Lookup(current, k))
    {
      var k :| k in todo;
      if k in fields && !fields[k].changeable {
        var stored := Lookup(current, k);
        if stored != Null && !PyEq(patch[k], stored) {
          return false;
        }
      }
      todo := todo - {k};
    }
    return true;
  }

  /** A same-type endpoint update: None when it is refused. */
  function UpdateEndpoint(data: Data, patch: Data, fields: Fields, accepts: (FieldDef, Value) -> bool): Option<Data> {
    if !RespectsFixedFields(data, patch, fields) then None
    else if !ValidData(PatchData(data, patch), fields, accepts) then None
    else Some(PatchData(data, patch))
  }

  /** A retype merges the same way but checks the result against the new type only. */
  function RetypeEndpoint(data: Data, patch: Data, newFields: Fields, accepts: (FieldDef, Value) -> bool): Option<Data> {
    if !ValidData(PatchData(data, patch), newFields, accepts) then None else Some(PatchData(data, patch))
  }

  function UpdateService(data: Data, patch: Data, fields: Fields, accepts: (FieldDef, Value) -> bool): Option<Data> {
    if !ValidData(PatchData(data, patch), fields, accepts) then None else Some(PatchData(data, patch))
  }

  /** The value a field holds after a patch. */
  function After(data: Data, patch: Data, k: string): Value {
    if k in patch then patch[k] else Lookup(data, k)
  }

  /** A field with its value passes: a required one has a value, and a value has the field's type and, but
      for booleans, keeps its rules. */
  predicate FieldPasses(f: FieldDef, v: Value, accepts: (FieldDef, Value) -> bool) {
    if v == Null then !f.required
    else (f.fieldType.Some? ==> f.fieldType.value in TypesOf(v)) && (f.fieldType != Some(BooleanType) ==> accepts(f, v))
  }

  /** The types a value fits: a number `number`, a whole one `integer` too, text and booleans their own. */
  function TypesOf(v: Value): set<FieldType> {
    match v
    case Str(_) => {StringType}
    case Bool(_) => {BooleanType}
    case Int(_) => {IntegerType, NumberType}
    case Float(_) => {NumberType}
    case _ => {}
  }

  lemma TypesOfValues(v: Value)
    ensures forall t :: FitsType(v, t) <==> t in TypesOf(v)
  {}

  /** An update is accepted exactly when every field passes with its value after the patch and, on
      endpoints of the same type, no fixed field that has a value is given another. */
  lemma UpdateAcceptedIff(data: Data, patch: Data, fields: Fields, accepts: (FieldDef, Value) -> bool)
    ensures UpdateService(data, patch, fields, accepts).Some? <==>
            forall k :: k in fields ==> FieldPasses(fields[k], After(data, patch, k), accepts)
    ensures RetypeEndpoint(data, patch, fields, accepts) == UpdateService(data, patch, fields, accepts)
    ensures UpdateEndpoint(data, patch, fields, accepts).Some? <==>
            && UpdateService(data, patch, fields, accepts).Some?
            && forall k :: k in fields && !fields[k].changeable && k in patch && Lookup(data, k) != Null ==>
                 PyEq(patch[k], Lookup(data, k))
    ensures UpdateEndpoint(data, patch, fields, accepts).Some? ==>
              UpdateEndpoint(data, patch, fields, accepts) == UpdateService(data, patch, fields, accepts)
  {
    forall k | k in fields
      ensures (if Lookup(PatchData(data, patch), k) == Null then !fields[k].required
               else ValidValue(fields[k], Lookup(PatchData(data, patch), k), accepts))
              <==> FieldPasses(fields[k], After(data, patch, k), accepts)
    {
      PatchedData(data, patch, k);
    }
  }

  /** Python's comparison, by the forms of the values: numbers and booleans by value, anything else by
      form and content. */
  lemma PyEqMeans(a: Value, b: Value)
    ensures PyEq(a, b) <==>
            a == b || (exists x, y :: IsNumber(a, x) && IsNumber(b, y) && x == y)
  {
    if PyEq(a, b) && a != b {
      assert IsNumber(a, Numeric(a).value) && IsNumber(b, Numeric(b).value);
    }
    if x, y :| IsNumber(a, x) && IsNumber(b, y) && x == y {
      assert Numeric(a) == Some(x) && Numeric(b) == Some(y);
    }
  }

  predicate IsNumber(v: Value, x: real) {
    v == Float(x) || (v.Int? && v.i as real == x) || (v == Bool(true) && x == 1.0) || (v == Bool(false) && x == 0.0)
  }

  class Endpoint {
    var typeId: string
    var data: Data

    constructor (typeId: string, data: Data)
      ensures this.typeId == typeId && this.data == data
    {
      this.typeId, this.data := typeId, data;
    }

    /** `update_endpoint`: a different type id retypes, otherwise fixed fields are enforced. */
    method Update(patch: Data, newType: Option<string>, types: map<string, Fields>, accepts: (FieldDef, Value) -> bool)
      returns (ok: bool)
      requires typeId in types
      modifies this
      ensures newType.Some? && newType.value != old(typeId) ==>
                var result := if newType.value in types
                              then RetypeEndpoint(old(data), patch, types[newType.value], accepts) else None;
                && ok == result.Some?
                && typeId == (if ok then newType.value else old(typeId))
                && data == (if ok then result.value else old(data))
      ensures newType.None? || newType.value == old(typeId) ==>
                var result := UpdateEndpoint(old(data), patch, types[old(typeId)], accepts);
                && ok == result.Some? && typeId == old(typeId)
                && data == (if ok then result.value else old(data))
    {
      if newType.Some? && newType.value != typeId {
        if newType.value !in types {
          return false;
        }
        var merged := ApplyDataPatch(data, patch);
        ok := ValidateInstanceData(merged, types[newType.value], accepts);
        if ok {
          typeId, data := newType.value, merged;
        }
      } else {
        ok := RejectNonChangeableUpdates(data, patch, types[typeId]);
        if !ok {
          return;
        }
        var merged := ApplyDataPatch(data, patch);
        ok := ValidateInstanceData(merged, types[typeId], accepts);
        if ok {
          data := merged;
        }
      }
    }
  }

  /** Instance data after a run of same-type updates; refused ones change nothing. */
  function RunUpdates(data: Data, patches: seq<Data>, fields: Fields, accepts: (FieldDef, Value) -> bool): Data {
    if patches == [] then data
    else
      var before := RunUpdates(data, patches[..|patches| - 1], fields, accepts);
      GetOr(UpdateEndpoint(before, patches[|patches| - 1], fields, accepts), before)
  }

  lemma PyEqIsEquivalence(a: Value, b: Value, c: Value)
    ensures PyEq(a, a)
    ensures PyEq(a, b) ==> PyEq(b, a)
    ensures PyEq(a, b) && PyEq(b, c) ==> PyEq(a, c)
  {}

  /** Data that is valid stays valid, and a fixed field once set keeps its value for ever: equal by
      Python's comparison, and literally the same under a text, boolean or integer type. */
  lemma {:induction false} UpdatesKeepValidAndFixed(
      data: Data, patches: seq<Data>, fields: Fields, accepts: (FieldDef, Value) -> bool)
    requires ValidData(data, fields, accepts)
    ensures var after := RunUpdates(data, patches, fields, accepts);
            && ValidData(after, fields, accepts)
            && forall k | k in fields && !fields[k].changeable && Lookup(data, k) != Null ::
                 && PyEq(Lookup(after, k), Lookup(data, k)) && Lookup(after, k) != Null
                 && (fields[k].fieldType.Some? && fields[k].fieldType.value != NumberType ==>
                      Lookup(after, k) == Lookup(data, k))
  {
    if patches == [] {
      forall k | k in fields
        ensures PyEq(Lookup(data, k), Lookup(data, k))
      {
        PyEqIsEquivalence(Lookup(data, k), Lookup(data, k), Lookup(data, k));
      }
    } else {
      var front, patch := patches[..|patches| - 1], patches[|patches| - 1];
      var before := RunUpdates(data, front, fields, accepts);
      var after := RunUpdates(data, patches, fields, accepts);
      UpdatesKeepValidAndFixed(data, front, fields, accepts);
      forall k | k in fields && !fields[k].changeable && Lookup(data, k) != Null
        ensures PyEq(Lookup(after, k), Lookup(data, k)) && Lookup(after, k) != Null
        ensures fields[k].fieldType.Some? && fields[k].fieldType.value != NumberType ==>
                  Lookup(after, k) == Lookup(data, k)
      {
        PyEqIsEquivalence(Lookup(after, k), Lookup(before, k), Lookup(data, k));
        PyEqIsEquivalence(Lookup(after, k), Lookup(after, k), Lookup(after, k));
      }
    }
  }

  /** No valid value of the field's type equals this one without being it: any value but a number under
      `number`, and there fractions and the integers no float equals. `floats` are the numbers a float
      can be. */
  predicate HasOneForm(t: FieldType, v: Value, floats: real -> bool) {
    t == NumberType ==> match v
      case Int(i) => !floats(i as real)
      case Float(r) => r != r.Floor as real
      case _ => true
  }

  /** The same number in its other form. */
  function Twin(v: Value): Value {
    match v
    case Int(i) => Float(i as real)
    case Float(r) => Int(r.Floor)
    case _ => v
  }

  predicate Representable(data: Data, floats: real -> bool) {
    forall k | k in data && data[k].Float? :: floats(data[k].r)
  }

  lemma OneFormIsLiteral(f: FieldDef, v: Value, w: Value, accepts: (FieldDef, Value) -> bool, floats: real -> bool)
    requires f.fieldType.Some? && HasOneForm(f.fieldType.value, v, floats) && PyEq(w, v) && v != Null
    requires ValidValue(f, v, accepts) && ValidValue(f, w, accepts) && (w.Float? ==> floats(w.r))
    ensures w == v
  {}

  /** After these updates, under these rules, the field holds the value it held. */
  predicate LiteralAfter(data: Data, patches: seq<Data>, fields: Fields, k: string, accepts: (FieldDef, Value) -> bool) {
    ValidData(data, fields, accepts) ==> Lookup(RunUpdates(data, patches, fields, accepts), k) == Lookup(data, k)
  }

  lemma {:induction false} RunRepresentable(
      data: Data, patches: seq<Data>, fields: Fields, accepts: (FieldDef, Value) -> bool, floats: real -> bool)
    requires Representable(data, floats) && forall p | p in patches :: Representable(p, floats)
    ensures Representable(RunUpdates(data, patches, fields, accepts), floats)
  {
    if patches != [] {
      RunRepresentable(data, patches[..|patches| - 1], fields, accepts, floats);
      assert patches[|patches| - 1] in patches;
    }
  }

  /** A set fixed field of any type keeps its value literally, whatever the updates and the field's
      rules, exactly when its value has one form under that type. */
  lemma FixedIsLiteralIff(data: Data, fields: Fields, k: string, rules: (FieldDef, Value) -> bool, floats: real -> bool)
    requires ValidData(data, fields, rules) && Representable(data, floats)
    requires k in fields && fields[k].fieldType.Some? && !fields[k].changeable && Lookup(data, k) != Null
    ensures (forall patches: seq<Data>, accepts: (FieldDef, Value) -> bool ::
               (forall p | p in patches :: Representable(p, floats)) ==> LiteralAfter(data, patches, fields, k, accepts))
            <==> HasOneForm(fields[k].fieldType.value, Lookup(data, k), floats)
  {
    if HasOneForm(fields[k].fieldType.value, Lookup(data, k), floats) {
      forall patches: seq<Data>, accepts: (FieldDef, Value) -> bool | forall p | p in patches :: Representable(p, floats)
        ensures LiteralAfter(data, patches, fields, k, accepts)
      {
        if ValidData(data, fields, accepts) {
          UpdatesKeepValidAndFixed(data, patches, fields, accepts);
          RunRepresentable(data, patches, fields, accepts, floats);
          OneFormIsLiteral(fields[k], Lookup(data, k), Lookup(RunUpdates(data, patches, fields, accepts), k), accepts, floats);
        }
      }
    } else {
      var any := (f: FieldDef, v: Value) => true;
      var patches: seq<Data> := [map[k := Twin(Lookup(data, k))]];
      assert ValidData(data, fields, any);
      assert patches[..0] == [] && RunUpdates(data, [], fields, any) == data;
      TwinIsAccepted(data, fields, k, any, floats);
      assert Lookup(RunUpdates(data, patches, fields, any), k) == Twin(Lookup(data, k)) != Lookup(data, k);
      assert !LiteralAfter(data, patches, fields, k, any);
      assert forall p | p in patches :: Representable(p, floats);
    }
  }

  lemma TwinIsAccepted(data: Data, fields: Fields, k: string, any: (FieldDef, Value) -> bool, floats: real -> bool)
    requires ValidData(data, fields, any) && k in fields && fields[k].fieldType.Some? && Lookup(data, k) != Null
    requires !HasOneForm(fields[k].fieldType.value, Lookup(data, k), floats) && forall f, v :: any(f, v)
    ensures var patch: Data := map[k := Twin(Lookup(data, k))];
            UpdateEndpoint(data, patch, fields, any) == Some(PatchData(data, patch))
  {
    var patch: Data := map[k := Twin(Lookup(data, k))];
    forall x | x in fields
      ensures Lookup(PatchData(data, patch), x) == if x == k then Twin(Lookup(data, k)) else Lookup(data, x)
    {}
  }

  const TWO53 := 0x20_0000_0000_0000

  function Pow2(n: nat): (p: nat)
    ensures p >= 1
  {
    if n == 0 then 1 else 2 * Pow2(n - 1)
  }

  /** A finite double: 53 bits of significand, scaled up or down by a power of two. */
  ghost predicate IsDouble(r: real) {
    exists m: int, e: nat :: Scales(r, m, e)
  }

  predicate Scales(r: real, m: int, e: nat) {
    && -TWO53 < m < TWO53
    && ((e <= 971 && r == (m * Pow2(e)) as real) || (e <= 1074 && r * (Pow2(e) as real) == m as real))
  }

  ghost function Doubles(): real -> bool {
    r => IsDouble(r)
  }

  /** So an integer of at most 53 bits has a second form in a number field. */
  lemma SmallIntegersHaveTwoForms(i: int)
    requires -TWO53 <= i <= TWO53
    ensures !HasOneForm(NumberType, Int(i), Doubles())
  {
    assert Pow2(0) == 1 && Pow2(1) == 2;
    var m, e: nat := if -TWO53 < i < TWO53 then i else i / 2, if -TWO53 < i < TWO53 then 0 else 1;
    assert Scales(i as real, m, e);
  }

  /** 2^53 + 1, 9007199254740993, has only one. */
  lemma NextIntegerHasOneForm()
    ensures HasOneForm(NumberType, Int(TWO53 + 1), Doubles())
  {
    var next := (TWO53 + 1) as real;
    forall m: int, e: nat
      ensures !Scales(next, m, e)
    {
      NoDouble(m, e);
    }
  }

  lemma NoDouble(m: int, e: nat)
    ensures !Scales((TWO53 + 1) as real, m, e)
  {
    if e > 0 {
      var half := m * Pow2(e - 1);
      assert m * Pow2(e) == 2 * half;
    }
    assert ((TWO53 + 1) as real) * (Pow2(e) as real) >= (TWO53 + 1) as real;
  }

  /** A fixed number may go from 1 to 1.0, and not to true; only a field without a type, which no route
      stores, would take that. */
  lemma NumbersChangeForm(accepts: (FieldDef, Value) -> bool)
    requires forall f, v :: accepts(f, v)
    ensures var number: Fields := map["n" := FieldDef(Some(NumberType), false, false, Null, "")];
            var untyped: Fields := map["n" := FieldDef(None, false, false, Null, "")];
            var one: Data := map["n" := Int(1)];
            && UpdateEndpoint(one, map["n" := Float(1.0)], number, accepts) == Some(map["n" := Float(1.0)])
            && UpdateEndpoint(one, map["n" := Bool(true)], number, accepts) == None
            && UpdateEndpoint(one, map["n" := Bool(true)], untyped, accepts) == Some(map["n" := Bool(true)])
  {
    var one, asFloat, asBool: Data := map["n" := Int(1)], map["n" := Float(1.0)], map["n" := Bool(true)];
    assert PatchData(one, asFloat) == asFloat;
    assert PatchData(one, asBool) == asBool;
    assert Lookup(asBool, "n") == Bool(true) && Lookup(asFloat, "n") == Float(1.0) && Lookup(one, "n") == Int(1);
    var number: Fields := map["n" := FieldDef(Some(NumberType), false, false, Null, "")];
    assert !ValidData(asBool, number, accepts) by {
      assert "n" in number && !ValidValue(number["n"], Bool(true), accepts);
    }
  }

  // ----- fixed fields of services -----

  /** Every fixed field that has a value keeps it. */
  predicate KeepsFixed(data: Data, after: Data, fields: Fields) {
    forall k | k in fields && !fields[k].changeable && Lookup(data, k) != Null :: PyEq(Lookup(after, k), Lookup(data, k))
  }

  /** An accepted service update keeps the fixed fields exactly when its patch passes the check that
      only endpoint updates make. */
  lemma ServiceUpdateKeepsFixedIff(data: Data, patch: Data, fields: Fields, accepts: (FieldDef, Value) -> bool)
    requires UpdateService(data, patch, fields, accepts).Some?
    ensures KeepsFixed(data, UpdateService(data, patch, fields, accepts).value, fields) <==>
            RespectsFixedFields(data, patch, fields)
  {
    forall k
      ensures Lookup(PatchData(data, patch), k) == if k in patch then patch[k] else Lookup(data, k)
    {}
    forall k {
      PyEqIsEquivalence(Lookup(data, k), Lookup(data, k), Lookup(data, k));
    }
  }

  /** The data of a service after a run of updates; refused ones change nothing. */
  function RunService(data: Data, patches: seq<Data>, fields: Fields, accepts: (FieldDef, Value) -> bool): Data {
    if patches == [] then data
    else
      var before := RunService(data, patches[..|patches| - 1], fields, accepts);
      GetOr(UpdateService(before, patches[|patches| - 1], fields, accepts), before)
  }

  /** The i-th patch of a run is refused, or passes the check. */
  predicate StepRespects(data: Data, patches: seq<Data>, fields: Fields, accepts: (FieldDef, Value) -> bool, i: nat)
    requires i < |patches|
  {
    var before := RunService(data, patches[..i], fields, accepts);
    UpdateService(before, patches[i], fields, accepts).Some? ==> RespectsFixedFields(before, patches[i], fields)
  }

  predicate StepKeeps(data: Data, patches: seq<Data>, fields: Fields, accepts: (FieldDef, Value) -> bool, i: nat)
    requires i < |patches|
  {
    KeepsFixed(RunService(data, patches[..i], fields, accepts), RunService(data, patches[..i + 1], fields, accepts), fields)
  }

  lemma StepKeepsIff(data: Data, patches: seq<Data>, fields: Fields, accepts: (FieldDef, Value) -> bool, i: nat)
    requires i < |patches|
    ensures StepKeeps(data, patches, fields, accepts, i) <==> StepRespects(data, patches, fields, accepts, i)
  {
    var before := RunService(data, patches[..i], fields, accepts);
    assert patches[..i + 1][..i] == patches[..i];
    if UpdateService(before, patches[i], fields, accepts).Some? {
      ServiceUpdateKeepsFixedIff(before, patches[i], fields, accepts);
    } else {
      forall k {
        PyEqIsEquivalence(Lookup(before, k), Lookup(before, k), Lookup(before, k));
      }
    }
  }

  /** Over a run of service updates the fixed fields are kept at every step exactly when every accepted
      patch passes the check; then they are kept from the first data to the last. */
  lemma {:induction false} ServiceRunKeepsFixedIff(data: Data, patches: seq<Data>, fields: Fields, accepts: (FieldDef, Value) -> bool)
    ensures (forall i | 0 <= i < |patches| :: StepKeeps(data, patches, fields, accepts, i)) <==>
            (forall i | 0 <= i < |patches| :: StepRespects(data, patches, fields, accepts, i))
    ensures (forall i | 0 <= i < |patches| :: StepRespects(data, patches, fields, accepts, i)) ==>
              KeepsFixed(data, RunService(data, patches, fields, accepts), fields)
  {
    forall i | 0 <= i < |patches| {
      StepKeepsIff(data, patches, fields, accepts, i);
    }
    if forall i | 0 <= i < |patches| :: StepRespects(data, patches, fields, accepts, i) {
      assert forall i | 0 <= i < |patches| :: StepKeeps(data, patches, fields, accepts, i);
      StepsKeepAll(data, patches, fields, accepts);
    }
  }

  lemma {:induction false} StepsKeepAll(data: Data, patches: seq<Data>, fields: Fields, accepts: (FieldDef, Value) -> bool)
    requires forall i | 0 <= i < |patches| :: StepKeeps(data, patches, fields, accepts, i)
    ensures KeepsFixed(data, RunService(data, patches, fields, accepts), fields)
  {
    if patches == [] {
      forall k {
        PyEqIsEquivalence(Lookup(data, k), Lookup(data, k), Lookup(data, k));
      }
    } else {
      var n := |patches| - 1;
      forall i | 0 <= i < n
        ensures StepKeeps(data, patches[..n], fields, accepts, i)
      {
        assert patches[..n][..i] == patches[..i] && patches[..n][..i + 1] == patches[..i + 1];
        assert StepKeeps(data, patches, fields, accepts, i);
      }
      StepsKeepAll(data, patches[..n], fields, accepts);
      assert patches[..n + 1] == patches && StepKeeps(data, patches, fields, accepts, n);
      KeepsCompose(data, RunService(data, patches[..n], fields, accepts), RunService(data, patches, fields, accepts), fields);
    }
  }

  lemma KeepsCompose(a: Data, b: Data, c: Data, fields: Fields)
    requires KeepsFixed(a, b, fields) && KeepsFixed(b, c, fields)
    ensures KeepsFixed(a, c, fields)
  {
    forall k | k in fields && !fields[k].changeable && Lookup(a, k) != Null
      ensures PyEq(Lookup(c, k), Lookup(a, k))
    {
      PyEqIsEquivalence(Lookup(c, k), Lookup(b, k), Lookup(a, k));
    }
  }

  /** Service updates make no such promise: the same patch an endpoint refuses goes through. */
  lemma ServiceUpdateCanChangeFixedField()
    ensures exists data: Data, patch: Data, fields: Fields, accepts: (FieldDef, Value) -> bool ::
              ValidData(data, fields, accepts) && "p" in fields && !fields["p"].changeable
              && UpdateEndpoint(data, patch, fields, accepts) == None
              && UpdateService(data, patch, fields, accepts) == Some(map["p" := Int(81)])
              && Lookup(data, "p") == Int(80)
  {
    var fields: Fields := map["p" := FieldDef(Some(IntegerType), true, false, Null, "")];
    var accepts := (f: FieldDef, v: Value) => true;
    var data, patch: Data := map["p" := Int(80)], map["p" := Int(81)];
    assert PatchData(data, patch) == map["p" := Int(81)];
    assert !PyEq(patch["p"], Lookup(data, "p"));
    assert UpdateEndpoint(data, patch, fields, accepts) == None;
  }

  // ----- role mappings -----

  predicate DistinctKeys(m: Mapping) {
    forall i, j :: 0 <= i < j < |m| ==> m[i].0 != m[j].0
  }

  /** Every role is known, used once, and sits on an existing field of the right data type. */
  predicate ValidMapping(fields: Fields, m: Mapping, roleTypes: map<string, FieldType>) {
    && (forall i :: 0 <= i < |m| ==>
          && m[i].1 in roleTypes && m[i].0 in fields
          && fields[m[i].0].fieldType == Some(roleTypes[m[i].1]))
    && (forall i, j :: 0 <= i < j < |m| ==> m[i].1 != m[j].1)
  }

  method ValidateTypeMapping(fields: Fields, m: Mapping, roleTypes: map<string, FieldType>) returns (ok: bool)
    ensures ok <==> ValidMapping(fields, m, roleTypes)
  {
    var seenRoles: map<string, string> := map[];
    for i := 0 to |m|
      invariant ValidMapping(fields, m[..i], roleTypes)
      invariant forall r :: r in seenRoles <==> exists j :: 0 <= j < i && m[j].1 == r
    {
      var (key, role) := m[i];
      if role !in roleTypes {
        return false;
      }
      if role in seenRoles {
        return false;
      }
      seenRoles := seenRoles[role := key];
      if key !in fields {
        return false;
      }
      if fields[key].fieldType != Some(roleTypes[role]) {
        return false;
      }
    }
    assert m[..|m|] == m;
    return true;
  }

  function DropRolesOfMissingFields(m: Mapping, fields: Fields): (kept: Mapping)
    ensures DistinctKeys(m) ==> DistinctKeys(kept)
    ensures forall p :: p in kept <==> p in m && p.0 in fields
  {
    if m == [] then []
    else
      var front := DropRolesOfMissingFields(m[..|m| - 1], fields);
      var last := m[|m| - 1];
      assert m == m[..|m| - 1] + [last];
      if last.0 in fields then front + [last] else front
  }

  predicate IsSpace(c: char) {
    c == ' ' || '\t' <= c <= '\r'
  }

  function StripLeft(s: string): string {
    if s != [] && IsSpace(s[0]) then StripLeft(s[1..]) else s
  }

  function StripRight(s: string): string {
    if s != [] && IsSpace(s[|s| - 1]) then StripRight(s[..|s| - 1]) else s
  }

  function Lower(s: string): string {
    seq(|s|, i requires 0 <= i < |s| => if 'A' <= s[i] <= 'Z' then (s[i] as int + 32) as char else s[i])
  }

  function Normalise(role: string): string {
    Lower(StripRight(StripLeft(role)))
  }

  /** Text without a space at either end. */
  predicate Trimmed(s: string) {
    s == "" || (!IsSpace(s[0]) && !IsSpace(s[|s| - 1]))
  }

  predicate Blank(s: string) {
    forall c :: c in s ==> c as int == 32 || 9 <= c as int < 14
  }

  /** Normalising strips the blanks at both ends and puts capitals in lower case. */
  lemma NormaliseMeans(left: string, s: string, right: string, i: nat)
    requires Blank(left) && Blank(right) && Trimmed(s)
    ensures |Normalise(left + s + right)| == |s|
    ensures i < |s| ==> Normalise(left + s + right)[i] as int == s[i] as int + if 65 <= s[i] as int < 91 then 32 else 0
  {
    if s == "" {
      StripsLeft(left + right, "");
      assert left + s + right == left + right == (left + right) + "";
    } else {
      StripsLeft(left, s + right);
      assert left + s + right == left + (s + right) && (s + right)[0] == s[0];
      StripsRight(s, right);
    }
  }

  lemma {:induction false} StripsLeft(left: string, rest: string)
    requires Blank(left) && (rest == "" || !IsSpace(rest[0]))
    ensures StripLeft(left + rest) == rest
  {
    if left == "" {
      assert left + rest == rest;
    } else {
      assert left[0] in left && (left + rest)[1..] == left[1..] + rest;
      assert forall c :: c in left[1..] ==> c in left;
      StripsLeft(left[1..], rest);
    }
  }

  lemma {:induction false} StripsRight(rest: string, right: string)
    requires Blank(right) && (rest == "" || !IsSpace(rest[|rest| - 1]))
    ensures StripRight(rest + right) == rest
  {
    if right == "" {
      assert rest + right == rest;
    } else {
      var n := |right| - 1;
      assert right[n] in right && (rest + right)[..|rest + right| - 1] == rest + right[..n];
      assert forall c :: c in right[..n] ==> c in right;
      StripsRight(rest, right[..n]);
    }
  }

  /** The first field, in the mapping's order, that plays the role. */
  function RoleFieldKey(fields: Fields, m: Mapping, role: string): Option<string> {
    if m == [] then None
    else if Normalise(m[0].1) == role && m[0].0 in fields then Some(m[0].0)
    else RoleFieldKey(fields, m[1..], role)
  }

  lemma NormalisedRoles()
    ensures forall r | r in ENDPOINT_ROLE_TYPES || r in SERVICE_ROLE_TYPES :: Normalise(r) == r
  {
    forall r | r in ENDPOINT_ROLE_TYPES || r in SERVICE_ROLE_TYPES
      ensures Normalise(r) == r
    {
      assert r != [] && !IsSpace(r[0]) && !IsSpace(r[|r| - 1]);
      assert forall i | 0 <= i < |r| :: !('A' <= r[i] <= 'Z');
    }
  }

  /** On a valid mapping the search finds exactly the field mapped to the role. */
  lemma {:induction false} RoleFieldIsTheMappedOne(
      fields: Fields, m: Mapping, roleTypes: map<string, FieldType>, role: string, k: string)
    requires ValidMapping(fields, m, roleTypes) && role in roleTypes
    requires forall r | r in roleTypes :: Normalise(r) == r
    ensures RoleFieldKey(fields, m, role) == Some(k) <==> (k, role) in m
  {
    if m != [] {
      assert m == [m[0]] + m[1..];
      RoleFieldIsTheMappedOne(fields, m[1..], roleTypes, role, k);
      if m[0].1 == role {
        assert forall p | p in m[1..] :: p.1 != role;
      }
    }
  }

  /** So the order in which the mapping is iterated does not matter. */
  lemma RoleFieldIgnoresOrder(
      fields: Fields, m: Mapping, m': Mapping, roleTypes: map<string, FieldType>, role: string)
    requires ValidMapping(fields, m, roleTypes) && ValidMapping(fields, m', roleTypes) && role in roleTypes
    requires forall r | r in roleTypes :: Normalise(r) == r
    requires forall p :: p in m <==> p in m'
    ensures RoleFieldKey(fields, m, role) == RoleFieldKey(fields, m', role)
  {
    forall k
      ensures RoleFieldKey(fields, m, role) == Some(k) <==> RoleFieldKey(fields, m', role) == Some(k)
    {
      RoleFieldIsTheMappedOne(fields, m, roleTypes, role, k);
      RoleFieldIsTheMappedOne(fields, m', roleTypes, role, k);
    }
  }

  // ----- stored types over runs -----

  datatype EntityType = EntityType(title: string, fields: Fields, mapping: Mapping)

  type Types = map<string, EntityType>

  predicate LabelTaken(types: Types, title: string, except: Option<string>) {
    exists id | id in types :: types[id].title == title && except != Some(id)
  }

  function CreateType(types: Types, id: string, title: string, fields: Fields, m: Mapping,
                      roleTypes: map<string, FieldType>): Option<Types>
  {
    if LabelTaken(types, title, None) || !ValidMapping(fields, m, roleTypes) then None
    else Some(types[id := EntityType(title, fields, m)])
  }

  /** The schema and the roles an update would store. */
  function UpdatedType(t: EntityType, title: Option<string>, fields: Option<map<string, Option<FieldPatch>>>,
                       m: Option<Mapping>): EntityType
  {
    var merged := if fields.Some? then PatchFields(t.fields, fields.value) else t.fields;
    var roles := if m.Some? then m.value
                 else if fields.Some? then DropRolesOfMissingFields(t.mapping, merged)
                 else t.mapping;
    EntityType(GetOr(title, t.title), merged, roles)
  }

  function UpdateType(types: Types, id: string, title: Option<string>,
                      fields: Option<map<string, Option<FieldPatch>>>, m: Option<Mapping>,
                      roleTypes: map<string, FieldType>): Option<Types>
  {
    if id !in types then None
    else if title.Some? && LabelTaken(types, title.value, Some(id)) then None
    else
      var next := UpdatedType(types[id], title, fields, m);
      if (fields.Some? || m.Some?) && !ValidMapping(next.fields, next.mapping, roleTypes) then None
      else Some(types[id := next])
  }

  /** A type is created exactly when no other has its label and its mapping puts known, distinct roles on
      fields of their type; it is stored as sent. */
  lemma CreateSucceedsIff(types: Types, id: string, title: string, fields: Fields, m: Mapping, roleTypes: map<string, FieldType>)
    ensures var result := CreateType(types, id, title, fields, m, roleTypes);
            && (result.Some? <==> (forall x :: x in types ==> types[x].title != title) && RolesFit(fields, m, roleTypes))
            && (result.Some? ==> result.value == types[id := EntityType(title, fields, m)])
  {
    RolesFitIff(fields, m, roleTypes);
  }

  /** Every pair of a mapping gives a known role to a field of the role's type, and no role twice. */
  ghost predicate RolesFit(fields: Fields, m: Mapping, roleTypes: map<string, FieldType>) {
    && (forall p :: p in m ==> p.1 in roleTypes && p.0 in fields && fields[p.0].fieldType == Some(roleTypes[p.1]))
    && forall i, j :: 0 <= i < |m| && 0 <= j < |m| && m[i].1 == m[j].1 ==> i == j
  }

  lemma RolesFitIff(fields: Fields, m: Mapping, roleTypes: map<string, FieldType>)
    ensures RolesFit(fields, m, roleTypes) <==> ValidMapping(fields, m, roleTypes)
  {
    if RolesFit(fields, m, roleTypes) {
      forall i | 0 <= i < |m|
        ensures m[i].1 in roleTypes && m[i].0 in fields && fields[m[i].0].fieldType == Some(roleTypes[m[i].1])
      {
        assert m[i] in m;
      }
    }
  }

  /** The roles an update leaves are those it sends or, without any, those whose fields survive. */
  ghost predicate LeavesRoles(t: EntityType, fields: Option<map<string, Option<FieldPatch>>>, m: Option<Mapping>, next: EntityType) {
    match m
    case Some(sent) => next.mapping == sent
    case None => forall p :: p in next.mapping <==> p in t.mapping && (fields.Some? ==> p.0 in next.fields)
  }

  /** A type is updated exactly when it exists, its new label is free and, if schema or mapping are sent,
      the roles it is left with fit the schema it is left with; the schema is the patched one, and what is
      not sent stays. */
  lemma UpdateSucceedsIff(types: Types, id: string, title: Option<string>, fields: Option<map<string, Option<FieldPatch>>>,
                          m: Option<Mapping>, roleTypes: map<string, FieldType>)
    requires id in types
    ensures var next := UpdatedType(types[id], title, fields, m);
            var result := UpdateType(types, id, title, fields, m, roleTypes);
            && (result.Some? <==>
                  && (title.Some? ==> forall x :: x in types && x != id ==> types[x].title != title.value)
                  && (fields.Some? || m.Some? ==> RolesFit(next.fields, next.mapping, roleTypes)))
            && (result.Some? ==> result.value == types[id := next])
            && next.title == (if title.Some? then title.value else types[id].title)
            && next.fields == (if fields.Some? then PatchFields(types[id].fields, fields.value) else types[id].fields)
            && LeavesRoles(types[id], fields, m, next)
            && (fields.None? && m.None? ==> next.mapping == types[id].mapping)
  {
    var next := UpdatedType(types[id], title, fields, m);
    RolesFitIff(next.fields, next.mapping, roleTypes);
  }

  lemma UnknownTypeIsNotUpdated(types: Types, id: string, title: Option<string>,
                                fields: Option<map<string, Option<FieldPatch>>>, m: Option<Mapping>,
                                roleTypes: map<string, FieldType>)
    requires id !in types
    ensures UpdateType(types, id, title, fields, m, roleTypes) == None
  {}

  datatype TypeOp =
    | Create(id: string, title: string, fields: Fields, mapping: Mapping)
    | Update(id: string, newTitle: Option<string>, patch: Option<map<string, Option<FieldPatch>>>,
             newMapping: Option<Mapping>)
    | Delete(id: string)

  /** Mappings arrive as dictionaries: their keys are distinct. New ids are fresh. */
  predicate WellFormedOp(types: Types, op: TypeOp) {
    match op
    case Create(id, _, _, m) => id !in types && DistinctKeys(m)
    case Update(_, _, _, m) => m.Some? ==> DistinctKeys(m.value)
    case Delete(_) => true
  }

  function Apply(types: Types, op: TypeOp, roleTypes: map<string, FieldType>): Types {
    match op
    case Create(id, title, fields, m) => GetOr(CreateType(types, id, title, fields, m, roleTypes), types)
    case Update(id, title, fields, m) => GetOr(UpdateType(types, id, title, fields, m, roleTypes), types)
    case Delete(id) => types - {id}
  }

  /** What every stored type keeps. */
  predicate TypesOk(types: Types, roleTypes: map<string, FieldType>) {
    && (forall id | id in types ::
          ValidMapping(types[id].fields, types[id].mapping, roleTypes) && DistinctKeys(types[id].mapping))
    && (forall a, b | a in types && b in types && a != b :: types[a].title != types[b].title)
  }

  lemma ApplyKeepsTypesOk(types: Types, op: TypeOp, roleTypes: map<string, FieldType>)
    requires TypesOk(types, roleTypes) && WellFormedOp(types, op)
    ensures TypesOk(Apply(types, op, roleTypes), roleTypes)
  {}

  ghost predicate IsRun(states: seq<Types>, ops: seq<TypeOp>, roleTypes: map<string, FieldType>) {
    && |states| == |ops| + 1
    && forall i :: 0 <= i < |ops| ==>
         WellFormedOp(states[i], ops[i]) && states[i + 1] == Apply(states[i], ops[i], roleTypes)
  }

  /** Over every run, every stored type has an injective, well-typed mapping on existing fields. */
  lemma {:induction false} RunKeepsTypesOk(states: seq<Types>, ops: seq<TypeOp>, roleTypes: map<string, FieldType>)
    requires IsRun(states, ops, roleTypes) && TypesOk(states[0], roleTypes)
    ensures TypesOk(states[|ops|], roleTypes)
    decreases |ops|
  {
    if ops != [] {
      var n := |ops| - 1;
      RunKeepsTypesOk(states[..|states| - 1], ops[..n], roleTypes);
      ApplyKeepsTypesOk(states[n], ops[n], roleTypes);
    }
  }

  /** The type tables: endpoint types and service types differ only in their role types. */
  class TypeTable {
    const roleTypes: map<string, FieldType>
    var types: Types

    constructor (roleTypes: map<string, FieldType>)
      ensures this.roleTypes == roleTypes && types == map[]
    {
      this.roleTypes, types := roleTypes, map[];
    }

    method Create(id: string, title: string, fields: Fields, m: Mapping) returns (ok: bool)
      requires id !in types
      modifies this
      ensures ok == CreateType(old(types), id, title, fields, m, roleTypes).Some?
      ensures types == Apply(old(types), TypeOp.Create(id, title, fields, m), roleTypes)
    {
      if LabelTaken(types, title, None) {
        return false;
      }
      ok := ValidateTypeMapping(fields, m, roleTypes);
      if ok {
        types := types[id := EntityType(title, fields, m)];
      }
    }

    method Update(id: string, title: Option<string>, fields: Option<map<string, Option<FieldPatch>>>,
                  m: Option<Mapping>)
      returns (ok: bool)
      modifies this
      ensures ok == UpdateType(old(types), id, title, fields, m, roleTypes).Some?
      ensures types == Apply(old(types), TypeOp.Update(id, title, fields, m), roleTypes)
    {
      if id !in types {
        return false;
      }
      var t := types[id];
      var next := t;
      if title.Some? {
        if LabelTaken(types, title.value, Some(id)) {
          return false;
        }
        next := next.(title := title.value);
      }
      if fields.Some? || m.Some? {
        var merged := t.fields;
        if fields.Some? {
          merged := ApplyFieldPatches(t.fields, fields.value);
        }
        var roles := if m.Some? then m.value else DropRolesOfMissingFields(t.mapping, merged);
        ok := ValidateTypeMapping(merged, roles, roleTypes);
        if !ok {
          return;
        }
        if fields.Some? {
          next := next.(fields := merged);
        }
        next := next.(mapping := roles);
      }
      ok := true;
      types := types[id := next];
    }
  }
}
