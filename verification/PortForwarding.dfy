/** Port-forwarding rules printed into numbered template variables, and the reader that scans them
    back until a number is missing. */
module PortForwarding {
  import opened Wrappers
  import opened Variables
  import Decimal
  import Ipv4

  datatype Rule = Rule(name: string, interface: string, srcPort: int, destAddr: Ipv4.Address, destPort: int)

  predicate NameChar(c: char) {
    'a' <= c <= 'z' || 'A' <= c <= 'Z' || Decimal.IsDigit(c) || c == '_'
  }

  predicate ValidName(s: string) {
    s != "" && forall i :: 0 <= i < |s| ==> NameChar(s[i])
  }

  predicate ValidInterface(s: string) {
    s == "lan1" || s == "lan2" || s == "lan3"
  }

  /** What the request schema admits. */
  predicate ValidRule(r: Rule) {
    ValidName(r.name) && ValidInterface(r.interface) && 1 <= r.srcPort <= 65535 && 1 <= r.destPort <= 65535
  }

  const NAME_PREFIX := "pfwd_name_"
  const VALUE_PREFIX := "pfwd_value_"

  function NameKey(i: nat): string {
    IndexKey(NAME_PREFIX, i)
  }

  function ValueKey(i: nat): string {
    IndexKey(VALUE_PREFIX, i)
  }

  /** Keys matching `^pfwd_(name|value)_\d+$`. */
  predicate IsRuleKey(k: string) {
    || (StartsWith(k, NAME_PREFIX) && DigitsToEnd(Rest(k, NAME_PREFIX)))
    || (StartsWith(k, VALUE_PREFIX) && DigitsToEnd(Rest(k, VALUE_PREFIX)))
  }

  // ----- the rule text -----

  function PrintRule(r: Rule): string
    requires ValidRule(r)
  {
    "iifname " + (r.interface + (" tcp dport " + (Decimal.Print(r.srcPort) + (" dnat to " +
      (Ipv4.Print(r.destAddr) + (":" + Decimal.Print(r.destPort)))))))
  }

  /** What the pattern captures: texts and numbers not validated yet. */
  datatype RawRule = RawRule(name: string, interface: string, srcPort: nat, destAddr: string, destPort: nat)

  predicate AddrChar(c: char) {
    Decimal.IsDigit(c) || c == '.'
  }

  function Expect(s: string, literal: string): Option<string> {
    if StartsWith(s, literal) then Some(Rest(s, literal)) else None
  }

  /** A greedy group of one or more characters of a class: what it takes and what remains. */
  function Take(s: string, p: char -> bool): Option<(string, string)> {
    var n := Decimal.Span(s, p);
    if n == 0 then None else Some((s[..n], s[n..]))
  }

  /** The match of a rule text; anything after the last number is ignored. */
  function ParseRule(name: string, value: string): Option<RawRule> {
    match Expect(value, "iifname ")
    case None => None
    case Some(s0) =>
      match Take(s0, NameChar)
      case None => None
      case Some((iface, s1)) =>
        match Expect(s1, " tcp dport ")
        case None => None
        case Some(s2) => ParseTarget(name, iface, s2)
  }

  function ParseTarget(name: string, iface: string, s2: string): Option<RawRule> {
    match Take(s2, Digit)
    case None => None
    case Some((src, s3)) =>
      match Expect(s3, " dnat to ")
      case None => None
      case Some(s4) =>
        match Take(s4, AddrChar)
        case None => None
        case Some((addr, s5)) =>
          match Expect(s5, ":")
          case None => None
          case Some(s6) =>
            match Take(s6, Digit)
            case None => None
            case Some((dst, _)) =>
              assert Decimal.AllDigits(src) && Decimal.AllDigits(dst);
              Some(RawRule(name, iface, Decimal.Value(src), addr, Decimal.Value(dst)))
  }

  lemma ExpectAppend(literal: string, rest: string)
    ensures Expect(literal + rest, literal) == Some(rest)
  {
    assert (literal + rest)[..|literal|] == literal && (literal + rest)[|literal|..] == rest;
  }

  lemma TakeAppend(x: string, y: string, p: char -> bool)
    requires x != "" && forall i :: 0 <= i < |x| ==> p(x[i])
    requires y == "" || !p(y[0])
    ensures Take(x + y, p) == Some((x, y))
  {
    Decimal.SpanOfAppend(x, y, p);
    assert (x + y)[..|x|] == x && (x + y)[|x|..] == y;
  }

  lemma PrintedAddress(a: Ipv4.Address)
    ensures Ipv4.Print(a) != "" && forall i :: 0 <= i < |Ipv4.Print(a)| ==> AddrChar(Ipv4.Print(a)[i])
  {
    var parts := [Decimal.Print(a / 0x100_0000), Decimal.Print(a / 0x1_0000 % 0x100),
                  Decimal.Print(a / 0x100 % 0x100), Decimal.Print(a % 0x100)];
    JoinedChars(parts);
  }

  lemma {:induction false} JoinedChars(parts: seq<string>)
    requires |parts| >= 1 && forall i :: 0 <= i < |parts| ==> parts[i] != [] && Decimal.AllDigits(parts[i])
    ensures Ipv4.JoinDots(parts) != "" && forall i :: 0 <= i < |Ipv4.JoinDots(parts)| ==> AddrChar(Ipv4.JoinDots(parts)[i])
  {
    if |parts| > 1 {
      JoinedChars(parts[1..]);
    }
  }

  lemma ParseSteps(name: string, value: string, s0: string, iface: string, s1: string, s2: string)
    requires Expect(value, "iifname ") == Some(s0)
    requires Take(s0, NameChar) == Some((iface, s1))
    requires Expect(s1, " tcp dport ") == Some(s2)
    ensures ParseRule(name, value) == ParseTarget(name, iface, s2)
  {}

  /** Parsing the printed text gives the rule's parts back. */
  lemma ParseOfPrint(r: Rule)
    requires ValidRule(r)
    ensures ParseRule(r.name, PrintRule(r)) ==
            Some(RawRule(r.name, r.interface, r.srcPort, Ipv4.Print(r.destAddr), r.destPort))
  {
    var s2 := Decimal.Print(r.srcPort) + (" dnat to " + (Ipv4.Print(r.destAddr) + (":" + Decimal.Print(r.destPort))));
    var s1 := " tcp dport " + s2;
    ExpectAppend("iifname ", r.interface + s1);
    TakeAppend(r.interface, s1, NameChar);
    ExpectAppend(" tcp dport ", s2);
    ParseSteps(r.name, PrintRule(r), r.interface + s1, r.interface, s1, s2);
    ParseTargetOfPrint(r);
  }

  lemma ParseTargetOfPrint(r: Rule)
    requires ValidRule(r)
    ensures ParseTarget(r.name, r.interface,
                        Decimal.Print(r.srcPort) + (" dnat to " + (Ipv4.Print(r.destAddr) + (":" + Decimal.Print(r.destPort))))) ==
            Some(RawRule(r.name, r.interface, r.srcPort, Ipv4.Print(r.destAddr), r.destPort))
  {
    var s6 := Decimal.Print(r.destPort);
    var s5 := ":" + s6;
    var s4 := Ipv4.Print(r.destAddr) + s5;
    var s3 := " dnat to " + s4;
    PrintedAddress(r.destAddr);
    TakeAppend(Decimal.Print(r.srcPort), s3, Digit);
    ExpectAppend(" dnat to ", s4);
    TakeAppend(Ipv4.Print(r.destAddr), s5, AddrChar);
    ExpectAppend(":", s6);
    assert s6 + "" == s6;
    TakeAppend(s6, "", Digit);
    Decimal.ValueOfPrint(r.srcPort);
    Decimal.ValueOfPrint(r.destPort);
  }

  // ----- reading -----

  /** What the reader finds at one index: nothing when a key is missing, no rule when the text does
      not match. */
  function RuleAt(d: Dict, i: nat): Option<seq<RawRule>> {
    if NameKey(i) !in d || ValueKey(i) !in d then None
    else
      match ParseRule(d[NameKey(i)], d[ValueKey(i)])
      case Some(raw) => Some([raw])
      case None => Some([])
  }

  function RulesAt(): IndexReader<RawRule> {
    (d: Dict, i: nat) => RuleAt(d, i)
  }

  lemma ReaderStops(d: Dict)
    ensures StopsWithoutKey(d, NAME_PREFIX, RulesAt())
  {
    forall j: nat | RulesAt()(d, j).Some?
      ensures IndexKey(NAME_PREFIX, j) in d
    {
      assert RulesAt()(d, j) == RuleAt(d, j);
    }
  }

  function ScanRules(d: Dict): seq<RawRule> {
    ReaderStops(d);
    Scan(d, NAME_PREFIX, 1, RulesAt())
  }

  /** Response validation: None when a stored rule does not fit the schema. */
  function Validate(raw: RawRule): Option<Rule> {
    match Ipv4.Parse(raw.destAddr)
    case None => None
    case Some(a) =>
      var r := Rule(raw.name, raw.interface, raw.srcPort, a, raw.destPort);
      if ValidRule(r) then Some(r) else None
  }

  function Validator(): RawRule -> Option<Rule> {
    (raw: RawRule) => Validate(raw)
  }

  function ValidateAll(raws: seq<RawRule>): Option<seq<Rule>> {
    Collect(raws, Validator())
  }

  function Read(d: Dict): Option<seq<Rule>> {
    ValidateAll(ScanRules(d))
  }

  datatype Failure = NotEligible | TooMany | DuplicateName | DuplicatePort | BadResponse | NotStored

  method GetPortForwarding(device: Device) returns (result: Result<seq<Rule>, Failure>)
    ensures !device.eligible ==> result == Err(NotEligible)
    ensures device.eligible ==>
              result == match Read(DictOf(device.variables)) case Some(rules) => Ok(rules) case None => Err(BadResponse)
  {
    if !device.eligible {
      return Err(NotEligible);
    }
    var d := device.VariablesDict();
    ReaderStops(d);
    var rules := ScanAll(d, NAME_PREFIX, RulesAt());
    var checked := ValidateAll(rules);
    result := if checked.Some? then Ok(checked.value) else Err(BadResponse);
  }

  // ----- writing -----

  predicate DistinctNames(rules: seq<Rule>) {
    forall i, j :: 0 <= i < j < |rules| ==> rules[i].name != rules[j].name
  }

  predicate DistinctPorts(rules: seq<Rule>) {
    forall i, j :: 0 <= i < j < |rules| ==>
      !(rules[i].interface == rules[j].interface && rules[i].srcPort == rules[j].srcPort)
  }

  predicate ValidRules(rules: seq<Rule>) {
    forall r :: r in rules ==> ValidRule(r)
  }

  predicate Accepted(rules: seq<Rule>) {
    |rules| <= 10 && DistinctNames(rules) && DistinctPorts(rules)
  }

  /** The variables printed for a list of rules. */
  function Entries(rules: seq<Rule>): Dict
    requires ValidRules(rules)
  {
    if rules == [] then map[]
    else Entries(rules[..|rules| - 1])[NameKey(|rules|) := rules[|rules| - 1].name]
                                      [ValueKey(|rules|) := PrintRule(rules[|rules| - 1])]
  }

  function Unrelated(d: Dict): Dict {
    map k | k in d && !IsRuleKey(k) :: d[k]
  }

  function Write(d: Dict, rules: seq<Rule>): Dict
    requires ValidRules(rules)
  {
    Unrelated(d) + Entries(rules)
  }

  function PortText(r: Rule): string
    requires ValidRule(r)
  {
    r.interface + ":" + Decimal.Print(r.srcPort)
  }

  /** The duplicate check compares texts; on valid rules that is comparing interface and port. */
  lemma PortTextInjective(a: Rule, b: Rule)
    requires ValidRule(a) && ValidRule(b)
    ensures PortText(a) == PortText(b) <==> a.interface == b.interface && a.srcPort == b.srcPort
  {
    var x, y := a.interface + ":", b.interface + ":";
    assert PortText(a)[..5] == x && PortText(b)[..5] == y;
    assert PortText(a)[5..] == Decimal.Print(a.srcPort) && PortText(b)[5..] == Decimal.Print(b.srcPort);
    if PortText(a) == PortText(b) {
      assert x[..4] == a.interface && y[..4] == b.interface;
      Decimal.PrintInjective(a.srcPort, b.srcPort);
    }
  }

  method CheckDuplicates(rules: seq<Rule>) returns (failure: Option<Failure>)
    requires ValidRules(rules)
    ensures failure.None? <==> DistinctNames(rules) && DistinctPorts(rules)
    ensures failure.Some? ==> failure.value == DuplicateName || failure.value == DuplicatePort
  {
    var seenNames: set<string> := {};
    var seenPorts: set<string> := {};
    for i := 0 to |rules|
      invariant DistinctNames(rules[..i]) && DistinctPorts(rules[..i])
      invariant forall n :: n in seenNames <==> exists j :: 0 <= j < i && rules[j].name == n
      invariant forall p :: p in seenPorts <==> exists j :: 0 <= j < i && PortText(rules[j]) == p
    {
      var r := rules[i];
      if r.name in seenNames {
        return Some(DuplicateName);
      }
      seenNames := seenNames + {r.name};
      forall j | 0 <= j < i
        ensures PortText(rules[j]) == PortText(r) <==>
                rules[j].interface == r.interface && rules[j].srcPort == r.srcPort
      {
        PortTextInjective(rules[j], r);
      }
      if PortText(r) in seenPorts {
        return Some(DuplicatePort);
      }
      seenPorts := seenPorts + {PortText(r)};
    }
    assert rules[..|rules|] == rules;
    return None;
  }

  method RemoveRuleKeys(d: Dict) returns (rest: Dict)
    ensures rest == Unrelated(d)
  {
    var keysToRemove := set k | k in d && IsRuleKey(k);
    rest := d;
    var todo := keysToRemove;
    while todo != {}
      invariant todo <= keysToRemove
      invariant rest == map k | k in d && !(k in keysToRemove && k !in todo) :: d[k]
    {
      var k :| k in todo;
      rest := rest - {k};
      todo := todo - {k};
    }
  }

  lemma EntriesStep(d: Dict, rules: seq<Rule>, i: nat)
    requires i < |rules| && ValidRules(rules)
    ensures d + Entries(rules[..i + 1]) ==
            (d + Entries(rules[..i]))[NameKey(i + 1) := rules[i].name][ValueKey(i + 1) := PrintRule(rules[i])]
  {
    assert rules[..i + 1][..i] == rules[..i];
    PlusTwo(d, Entries(rules[..i]), NameKey(i + 1), rules[i].name, ValueKey(i + 1), PrintRule(rules[i]));
  }

  /** Prints the rules into numbered variables. */
  method AddEntries(d: Dict, rules: seq<Rule>) returns (result: Dict)
    requires ValidRules(rules)
    ensures result == d + Entries(rules)
  {
    result := d;
    for i := 0 to |rules|
      invariant result == d + Entries(rules[..i])
    {
      EntriesStep(d, rules, i);
      result := result[NameKey(i + 1) := rules[i].name][ValueKey(i + 1) := PrintRule(rules[i])];
    }
    assert rules[..|rules|] == rules;
  }

  /** Stores the rules; `stored` says whether the management system accepted the edit. */
  method PostPortForwarding(device: Device, rules: seq<Rule>, stored: bool) returns (result: Result<seq<Rule>, Failure>)
    requires ValidRules(rules)
    modifies device`variables
    ensures result.Ok? <==> Accepted(rules) && device.eligible && stored
    ensures result.Ok? ==> result.value == rules && DictOf(device.variables) == Write(DictOf(old(device.variables)), rules)
    ensures result.Err? ==> device.variables == old(device.variables)
    ensures |rules| > 10 ==> result == Err(TooMany)
    ensures |rules| <= 10 && !device.eligible ==> result == Err(NotEligible)
  {
    if |rules| > 10 {
      return Err(TooMany);
    }
    if !device.eligible {
      return Err(NotEligible);
    }
    var d := device.VariablesDict();
    d := RemoveRuleKeys(d);
    var failure := CheckDuplicates(rules);
    if failure.Some? {
      return Err(failure.value);
    }
    d := AddEntries(d, rules);
    if !stored {
      return Err(NotStored);
    }
    device.StoreDict(d);
    return Ok(rules);
  }

  // ----- round trip -----

  lemma KeysAreRuleKeys(i: nat)
    ensures IsRuleKey(NameKey(i)) && IsRuleKey(ValueKey(i))
  {
    PrefixedPrint(NAME_PREFIX, i, "");
    PrefixedPrint(VALUE_PREFIX, i, "");
    assert NAME_PREFIX + Decimal.Print(i) + "" == NameKey(i) && VALUE_PREFIX + Decimal.Print(i) + "" == ValueKey(i);
  }

  lemma KeysDiffer(i: nat, j: nat)
    ensures NameKey(i) != ValueKey(j)
    ensures i != j ==> NameKey(i) != NameKey(j) && ValueKey(i) != ValueKey(j)
  {
    assert NameKey(i)[5] == 'n' && ValueKey(j)[5] == 'v';
    if i != j {
      if NameKey(i) == NameKey(j) {
        IndexInjective(NAME_PREFIX, i, j);
      }
      if ValueKey(i) == ValueKey(j) {
        IndexInjective(VALUE_PREFIX, i, j);
      }
    }
  }

  lemma {:induction false} EntriesSpec(rules: seq<Rule>, i: nat)
    requires ValidRules(rules)
    ensures NameKey(i) in Entries(rules) <==> 1 <= i <= |rules|
    ensures 1 <= i <= |rules| ==> && ValueKey(i) in Entries(rules)
                                  && Entries(rules)[NameKey(i)] == rules[i - 1].name
                                  && Entries(rules)[ValueKey(i)] == PrintRule(rules[i - 1])
  {
    if rules != [] {
      var n := |rules|;
      EntriesSpec(rules[..n - 1], i);
      KeysDiffer(i, n);
      KeysDiffer(n, i);
      KeysDiffer(n, n);
    }
  }

  lemma {:induction false} EntriesKeys(rules: seq<Rule>, k: string)
    requires ValidRules(rules) && k in Entries(rules)
    ensures IsRuleKey(k) && exists i :: 1 <= i <= |rules| && (k == NameKey(i) || k == ValueKey(i))
  {
    KeysAreRuleKeys(|rules|);
    if k != NameKey(|rules|) && k != ValueKey(|rules|) {
      EntriesKeys(rules[..|rules| - 1], k);
    }
  }

  /** Variables that are not rule variables are untouched, and the rule variables left are exactly
      the ones just printed: nothing of a longer earlier list resurfaces. */
  lemma WriteTouchesOnlyRules(d: Dict, rules: seq<Rule>, k: string)
    requires ValidRules(rules)
    ensures !IsRuleKey(k) ==> Get(Write(d, rules), k) == Get(d, k)
    ensures IsRuleKey(k) && k in Write(d, rules) ==>
              exists i :: 1 <= i <= |rules| && (k == NameKey(i) || k == ValueKey(i))
  {
    if k in Entries(rules) {
      EntriesKeys(rules, k);
    }
  }

  lemma WrittenAt(d: Dict, rules: seq<Rule>, i: nat)
    requires ValidRules(rules)
    ensures NameKey(i) in Write(d, rules) <==> 1 <= i <= |rules|
    ensures 1 <= i <= |rules| ==> && ValueKey(i) in Write(d, rules)
                                  && Write(d, rules)[NameKey(i)] == rules[i - 1].name
                                  && Write(d, rules)[ValueKey(i)] == PrintRule(rules[i - 1])
  {
    EntriesSpec(rules, i);
    KeysAreRuleKeys(i);
  }

  function RawOf(r: Rule): RawRule
    requires ValidRule(r)
  {
    RawRule(r.name, r.interface, r.srcPort, Ipv4.Print(r.destAddr), r.destPort)
  }

  function RawsOf(rules: seq<Rule>): seq<RawRule>
    requires ValidRules(rules)
  {
    seq(|rules|, i requires 0 <= i < |rules| => RawOf(rules[i]))
  }

  lemma RuleAtWrite(d: Dict, rules: seq<Rule>, i: nat)
    requires ValidRules(rules)
    ensures RuleAt(Write(d, rules), i) == if 1 <= i <= |rules| then Some([RawOf(rules[i - 1])]) else None
  {
    WrittenAt(d, rules, i);
    if 1 <= i <= |rules| {
      ParseOfPrint(rules[i - 1]);
    }
  }

  lemma ReaderIs(d: Dict, i: nat)
    ensures RulesAt()(d, i) == RuleAt(d, i)
  {}

  lemma RuleRead(d: Dict, rules: seq<Rule>, i: nat)
    requires ValidRules(rules) && 1 <= i <= |rules|
    ensures RulesAt()(Write(d, rules), i) == Some([RawOf(rules[i - 1])])
  {
    ReaderIs(Write(d, rules), i);
    RuleAtWrite(d, rules, i);
  }

  lemma ReadingEnds(d: Dict, rules: seq<Rule>)
    requires ValidRules(rules)
    ensures RulesAt()(Write(d, rules), |rules| + 1) == None
  {
    ReaderIs(Write(d, rules), |rules| + 1);
    RuleAtWrite(d, rules, |rules| + 1);
  }

  lemma RawsAre(rules: seq<Rule>, raws: seq<RawRule>, w: Dict, at: IndexReader<RawRule>)
    requires ValidRules(rules) && StopsWithoutKey(w, NAME_PREFIX, at)
    requires |raws| == |rules| && forall i | 0 <= i < |rules| :: raws[i] == RawOf(rules[i])
    requires forall i | 0 <= i < |rules| :: at(w, i + 1) == Some([RawOf(rules[i])])
    requires at(w, |rules| + 1) == None
    ensures Scan(w, NAME_PREFIX, 1, at) == raws
  {
    forall i: nat | 1 <= i <= |raws|
      ensures at(w, i) == Some([raws[i - 1]])
    {
      assert at(w, i - 1 + 1) == Some([RawOf(rules[i - 1])]);
    }
    ScanGives(w, NAME_PREFIX, at, raws, 1);
    assert raws[0..] == raws;
  }

  lemma ScanOfWrite(d: Dict, rules: seq<Rule>)
    requires ValidRules(rules)
    ensures ScanRules(Write(d, rules)) == RawsOf(rules)
  {
    var w, at := Write(d, rules), RulesAt();
    ReaderStops(w);
    forall i | 0 <= i < |rules|
      ensures at(w, i + 1) == Some([RawOf(rules[i])])
    {
      RuleRead(d, rules, i + 1);
    }
    ReadingEnds(d, rules);
    RawsAre(rules, RawsOf(rules), w, at);
  }

  lemma RawIsValid(r: Rule)
    requires ValidRule(r)
    ensures Validate(RawOf(r)) == Some(r)
  {
    Ipv4.ParseOfPrint(r.destAddr);
  }

  lemma ValidateRaws(rules: seq<Rule>)
    requires ValidRules(rules)
    ensures ValidateAll(RawsOf(rules)) == Some(rules)
  {
    forall i | 0 <= i < |rules|
      ensures Validator()(RawsOf(rules)[i]) == Some(rules[i])
    {
      RawIsValid(rules[i]);
    }
    CollectAll(RawsOf(rules), Validator(), rules);
  }

  /** Reading after writing gives back the same rules in the same order. */
  lemma RoundTrip(d: Dict, rules: seq<Rule>)
    requires ValidRules(rules)
    ensures Read(Write(d, rules)) == Some(rules)
  {
    ScanOfWrite(d, rules);
    ValidateRaws(rules);
  }

  /** Reading the rules depends on rule variables only. */
  lemma ReadFrame(d: Dict, d': Dict)
    requires forall k | IsRuleKey(k) :: Get(d, k) == Get(d', k)
    ensures Read(d) == Read(d')
  {
    ReaderStops(d);
    ReaderStops(d');
    forall j: nat
      ensures RulesAt()(d, j) == RulesAt()(d', j)
    {
      KeysAreRuleKeys(j);
      assert Get(d, NameKey(j)) == Get(d', NameKey(j)) && Get(d, ValueKey(j)) == Get(d', ValueKey(j));
    }
    ScanSame(d, d', NAME_PREFIX, RulesAt(), 1);
  }
}
