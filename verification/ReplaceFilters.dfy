/** The `when` filters of UI contributions, and what their overlap means for the contexts in which a
    contribution is shown. */
module ReplaceFilters {
  import opened Wrappers

  type Filter = Option<map<string, seq<string>>>

  /** A context in which contributions are shown: one value per field. */
  type Context = map<string, string>

  predicate Shares(a: seq<string>, b: seq<string>) {
    exists v :: v in a && v in b
  }

  /** A missing filter matches everything; otherwise every common field must share a value. */
  predicate WhenOverlaps(a: Filter, b: Filter) {
    a.None? || b.None? || forall f | f in a.value && f in b.value :: Shares(a.value[f], b.value[f])
  }

  predicate Satisfies(w: Filter, c: Context) {
    w.None? || forall f | f in w.value :: f in c && c[f] in w.value[f]
  }

  predicate NonEmptyLists(w: Filter) {
    w.None? || forall f | f in w.value :: w.value[f] != []
  }

  lemma OverlapIsSymmetric(a: Filter, b: Filter)
    ensures WhenOverlaps(a, b) <==> WhenOverlaps(b, a)
  {
    if a.Some? && b.Some? {
      assert forall f | f in a.value && f in b.value :: Shares(a.value[f], b.value[f]) <==> Shares(b.value[f], a.value[f]);
    }
  }

  ghost function CommonValue(a: seq<string>, b: seq<string>): string
    requires Shares(a, b)
  {
    var v :| v in a && v in b; v
  }

  ghost function Fields(w: Filter): set<string> {
    if w.None? then {} else w.value.Keys
  }

  /** A context for two overlapping filters without empty lists. */
  ghost function Witness(a: Filter, b: Filter): Context
    requires WhenOverlaps(a, b) && NonEmptyLists(a) && NonEmptyLists(b)
  {
    map f | f in Fields(a) + Fields(b) ::
      if f in Fields(a) && f in Fields(b) then CommonValue(a.value[f], b.value[f])
      else if f in Fields(a) then a.value[f][0]
      else b.value[f][0]
  }

  /** Some context satisfies both filters exactly when they overlap and no value list is empty. */
  lemma OverlapMeansCommonContext(a: Filter, b: Filter)
    ensures (exists c :: Satisfies(a, c) && Satisfies(b, c)) <==>
            WhenOverlaps(a, b) && NonEmptyLists(a) && NonEmptyLists(b)
  {
    if c :| Satisfies(a, c) && Satisfies(b, c) {
      if a.Some? && b.Some? {
        forall f | f in a.value && f in b.value
          ensures Shares(a.value[f], b.value[f])
        {
          assert c[f] in a.value[f] && c[f] in b.value[f];
        }
      }
    }
    if WhenOverlaps(a, b) && NonEmptyLists(a) && NonEmptyLists(b) {
      assert Satisfies(a, Witness(a, b)) && Satisfies(b, Witness(a, b));
    }
  }

  /** With an empty value list the check may report an overlap that no context has. */
  lemma EmptyListOverlaps()
    ensures exists a, b :: WhenOverlaps(a, b) && !exists c :: Satisfies(a, c) && Satisfies(b, c)
  {
    var a: Filter := Some(map["site" := []]);
    assert !NonEmptyLists(a) by {
      assert a.value["site"] == [];
    }
    OverlapMeansCommonContext(a, None);
    assert WhenOverlaps(a, None);
  }
}
