/** Template variables of a device: a list of named values that is read as a dictionary and written
    back as a list. */
module Variables {
  import opened Wrappers
  import Decimal

  type Dict = map<string, string>

  /** A variable value as it arrives: text, a flag, or nothing. */
  datatype Raw = Text(text: string) | Flag(flag: bool) | Absent

  type VariableList = seq<(string, Raw)>

  function Shown(v: Raw): string {
    match v
    case Text(t) => t
    case Flag(b) => if b then "true" else "false"
    case Absent => "null"
  }

  function Get(d: Dict, k: string): Option<string> {
    if k in d then Some(d[k]) else None
  }

  function GetOr(d: Dict, k: string, otherwise: string): string {
    if k in d then d[k] else otherwise
  }

  /** The dictionary of a list of variables: the last value of a name wins. */
  function ToDict(items: seq<(string, string)>): Dict {
    if items == [] then map[] else ToDict(items[..|items| - 1])[items[|items| - 1].0 := items[|items| - 1].1]
  }

  function ShownItems(items: VariableList): seq<(string, string)> {
    seq(|items|, i requires 0 <= i < |items| => (items[i].0, Shown(items[i].1)))
  }

  /** The dictionary a handler sees for the variables stored on the device. */
  function DictOf(items: VariableList): Dict {
    ToDict(ShownItems(items))
  }

  lemma {:induction false} ToDictConcat(a: seq<(string, string)>, b: seq<(string, string)>)
    ensures ToDict(a + b) == ToDict(a) + ToDict(b)
  {
    if b == [] {
      assert a + b == a;
    } else {
      ToDictConcat(a, b[..|b| - 1]);
      assert (a + b)[..|a + b| - 1] == a + b[..|b| - 1];
    }
  }

  class TemplateVariables {
    var items: seq<(string, string)>

    constructor ()
      ensures items == []
    {
      items := [];
    }

    method Add(name: string, value: Raw)
      modifies this
      ensures items == old(items) + [(name, Shown(value))]
    {
      items := items + [(name, Shown(value))];
    }

    method AddVariables(variables: VariableList)
      modifies this
      ensures items == old(items) + ShownItems(variables)
    {
      for i := 0 to |variables|
        invariant items == old(items) + ShownItems(variables[..i])
      {
        Add(variables[i].0, variables[i].1);
      }
      assert variables[..|variables|] == variables;
    }

    /** Appends a dictionary in whatever order it is iterated; read back, it is the same. */
    method AddFromDict(d: Dict)
      modifies this
      ensures ToDict(items) == ToDict(old(items)) + d
    {
      var todo := d.Keys;
      while todo != {}
        invariant todo <= d.Keys
        invariant ToDict(items) == ToDict(old(items)) + map k | k in d && k !in todo :: d[k]
      {
        var name :| name in todo;
        ghost var before := items;
        Add(name, Text(d[name]));
        assert items[..|items| - 1] == before;
        todo := todo - {name};
      }
      assert (map k | k in d && k !in todo :: d[k]) == d;
    }

    method ConvertToDict() returns (d: Dict)
      ensures d == ToDict(items)
    {
      d := map[];
      for i := 0 to |items|
        invariant d == ToDict(items[..i])
      {
        assert items[..i + 1][..i] == items[..i];
        d := d[items[i].0 := items[i].1];
      }
      assert items[..|items|] == items;
    }
  }

  /** A device as the management system stores it. */
  class Device {
    var variables: VariableList
    var eligible: bool

    constructor (variables: VariableList, eligible: bool)
      ensures this.variables == variables && this.eligible == eligible
    {
      this.variables, this.eligible := variables, eligible;
    }

    method VariablesDict() returns (d: Dict)
      ensures d == DictOf(variables)
    {
      var t := new TemplateVariables();
      t.AddVariables(variables);
      assert t.items == ShownItems(variables);
      d := t.ConvertToDict();
    }

    /** Stores a dictionary as the device's variable list. */
    method StoreDict(d: Dict)
      modifies this`variables
      ensures DictOf(variables) == d
    {
      var t := new TemplateVariables();
      t.AddFromDict(d);
      var items := t.items;
      variables := seq(|items|, i requires 0 <= i < |items| => (items[i].0, Text(items[i].1)));
      assert ShownItems(variables) == items;
      assert map[] + d == d;
    }
  }

  // ----- keys with a printed index -----

  predicate Digit(c: char) {
    Decimal.IsDigit(c)
  }

  /** The end of a pattern that is anchored with `$`: the end of the text or a final newline. */
  predicate AtEnd(s: string) {
    s == "" || s == "\n"
  }

  /** `\d+$` */
  predicate DigitsToEnd(s: string) {
    var n := Decimal.Span(s, Digit);
    n > 0 && AtEnd(s[n..])
  }

  predicate StartsWith(s: string, prefix: string) {
    |prefix| <= |s| && s[..|prefix|] == prefix
  }

  function Rest(s: string, prefix: string): string
    requires StartsWith(s, prefix)
  {
    s[|prefix|..]
  }

  lemma PrefixedPrint(prefix: string, i: nat, suffix: string)
    requires suffix == "" || !Digit(suffix[0])
    ensures var s := prefix + Decimal.Print(i) + suffix;
            && StartsWith(s, prefix) && Rest(s, prefix) == Decimal.Print(i) + suffix
            && Decimal.Span(Rest(s, prefix), Digit) == |Decimal.Print(i)| > 0
            && Rest(s, prefix)[|Decimal.Print(i)|..] == suffix
  {
    Decimal.SpanOfAppend(Decimal.Print(i), suffix, Digit);
    assert Rest(prefix + Decimal.Print(i) + suffix, prefix) == Decimal.Print(i) + suffix;
  }

  /** A variable name that ends in a printed index. */
  function IndexKey(prefix: string, i: nat): string {
    prefix + Decimal.Print(i)
  }

  lemma IndexInjective(prefix: string, i: nat, j: nat)
    requires IndexKey(prefix, i) == IndexKey(prefix, j)
    ensures i == j
  {
    assert IndexKey(prefix, i)[|prefix|..] == Decimal.Print(i);
    assert IndexKey(prefix, j)[|prefix|..] == Decimal.Print(j);
    Decimal.PrintInjective(i, j);
  }

  predicate PresentUpTo(d: Dict, prefix: string, n: nat) {
    forall j | 1 <= j <= n :: IndexKey(prefix, j) in d
  }

  /** A finite dictionary holds only finitely many consecutive indices, so a reader that scans
      index by index until one is missing stops. */
  lemma {:induction false} IndicesBounded(d: Dict, prefix: string, n: nat)
    requires PresentUpTo(d, prefix, n)
    ensures n <= |d|
    decreases n
  {
    if n > 0 {
      var k := IndexKey(prefix, n);
      var rest := d - {k};
      forall j | 1 <= j <= n - 1
        ensures IndexKey(prefix, j) in rest
      {
        if IndexKey(prefix, j) == k {
          IndexInjective(prefix, j, n);
        }
      }
      IndicesBounded(rest, prefix, n - 1);
      assert rest.Keys == d.Keys - {k};
      assert |rest.Keys| == |d.Keys| - 1;
    }
  }

  /** The variables printed for a list of items, each with its number, counted from one. */
  function Numbered<T>(items: seq<T>, print_: (nat, T) -> Dict): Dict {
    if items == [] then map[]
    else Numbered(items[..|items| - 1], print_) + print_(|items|, items[|items| - 1])
  }

  lemma NumberedStep<T>(items: seq<T>, i: nat, print_: (nat, T) -> Dict)
    requires i < |items|
    ensures Numbered(items[..i + 1], print_) == Numbered(items[..i], print_) + print_(i + 1, items[i])
  {
    assert items[..i + 1][..i] == items[..i];
  }

  /** The results for all items in order, or None when one of them has none. */
  function Collect<A, B>(items: seq<A>, f: A -> Option<B>): Option<seq<B>> {
    if items == [] then Some([])
    else
      match (Collect(items[..|items| - 1], f), f(items[|items| - 1]))
      case (Some(front), Some(r)) => Some(front + [r])
      case _ => None
  }

  lemma {:induction false} CollectAll<A, B>(items: seq<A>, f: A -> Option<B>, results: seq<B>)
    requires |items| == |results| && forall i | 0 <= i < |items| :: f(items[i]) == Some(results[i])
    ensures Collect(items, f) == Some(results)
  {
    if items != [] {
      CollectAll(items[..|items| - 1], f, results[..|items| - 1]);
      assert results == results[..|items| - 1] + [results[|items| - 1]];
    }
  }

  lemma PlusAssociates(d: Dict, e: Dict, x: Dict)
    ensures (d + e) + x == d + (e + x)
  {}

  lemma PlusTwo(d: Dict, e: Dict, k: string, v: string, k': string, v': string)
    ensures (d + e)[k := v][k' := v'] == d + e[k := v][k' := v']
  {}

  /** A reader of numbered variables: the values found at an index, or None where it stops. */
  type IndexReader<!T> = (Dict, nat) -> Option<seq<T>>

  ghost predicate StopsWithoutKey<T>(d: Dict, prefix: string, at: IndexReader<T>) {
    forall j: nat :: at(d, j).Some? ==> IndexKey(prefix, j) in d
  }

  /** Everything read from index `i` on; it ends because each index is a key of its own. */
  function Scan<T>(d: Dict, ghost prefix: string, i: nat, at: IndexReader<T>): seq<T>
    requires StopsWithoutKey(d, prefix, at)
    requires i >= 1 && PresentUpTo(d, prefix, i - 1)
    decreases |d| + 1 - i
  {
    match at(d, i)
    case None => []
    case Some(found) =>
      assert i <= |d| by { IndicesBounded(d, prefix, i); }
      found + Scan(d, prefix, i + 1, at)
  }

  lemma ScanStep<T>(d: Dict, prefix: string, i: nat, at: IndexReader<T>)
    requires StopsWithoutKey(d, prefix, at)
    requires i >= 1 && PresentUpTo(d, prefix, i - 1) && at(d, i).Some?
    ensures i <= |d| && PresentUpTo(d, prefix, i)
    ensures Scan(d, prefix, i, at) == at(d, i).value + Scan(d, prefix, i + 1, at)
  {
    IndicesBounded(d, prefix, i);
  }

  lemma ConcatAssociates<T>(a: seq<T>, b: seq<T>, c: seq<T>)
    ensures a + (b + c) == (a + b) + c
  {}

  /** The scanning loop. */
  method ScanAll<T>(d: Dict, ghost prefix: string, at: IndexReader<T>) returns (result: seq<T>)
    requires StopsWithoutKey(d, prefix, at)
    ensures result == Scan(d, prefix, 1, at)
  {
    ghost var all := Scan(d, prefix, 1, at);
    result := [];
    var index := 1;
    var found := at(d, index);
    while found.Some?
      invariant index >= 1 && PresentUpTo(d, prefix, index - 1) && found == at(d, index)
      invariant result + Scan(d, prefix, index, at) == all
      decreases |d| + 1 - index
    {
      ScanStep(d, prefix, index, at);
      ConcatAssociates(result, found.value, Scan(d, prefix, index + 1, at));
      result := result + found.value;
      index := index + 1;
      found := at(d, index);
    }
  }

  /** One value at each index up to the end is read in order. */
  lemma {:induction false} ScanGives<T>(d: Dict, prefix: string, at: IndexReader<T>, items: seq<T>, i: nat)
    requires StopsWithoutKey(d, prefix, at)
    requires 1 <= i <= |items| + 1 && PresentUpTo(d, prefix, i - 1)
    requires forall j: nat | 1 <= j <= |items| :: at(d, j) == Some([items[j - 1]])
    requires at(d, |items| + 1) == None
    ensures Scan(d, prefix, i, at) == items[i - 1..]
    decreases |items| + 1 - i
  {
    if i <= |items| {
      assert at(d, i) == Some([items[i - 1]]);
      ScanGives(d, prefix, at, items, i + 1);
      assert items[i - 1..] == [items[i - 1]] + items[i..];
    }
  }

  /** Two dictionaries that look alike at every index are read alike. */
  lemma {:induction false} ScanSame<T>(d: Dict, d': Dict, prefix: string, at: IndexReader<T>, i: nat)
    requires StopsWithoutKey(d, prefix, at) && StopsWithoutKey(d', prefix, at)
    requires i >= 1 && PresentUpTo(d, prefix, i - 1) && PresentUpTo(d', prefix, i - 1)
    requires forall j: nat :: at(d, j) == at(d', j)
    ensures Scan(d, prefix, i, at) == Scan(d', prefix, i, at)
    decreases |d| + 1 - i
  {
    assert at(d, i) == at(d', i);
    if at(d, i).Some? {
      IndicesBounded(d, prefix, i);
      ScanSame(d, d', prefix, at, i + 1);
    }
  }
}
