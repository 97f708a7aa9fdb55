/** What the texts of stored variables mean: which keys count as rule keys, which rule a text is read as,
    how far a reader goes, and which lists of rules are accepted. */
module VariableTexts {
  import opened Wrappers
  import opened Variables
  import opened Grouping
  import Blocks
  import Decimal
  import Ipv4
  import PortForwarding
  import Nat

  // ----- keys -----

  predicate Digits(s: string) {
    s != "" && forall c :: c in s ==> '0' <= c <= '9'
  }

  /** The text, or the text and a final newline. */
  predicate Ends(s: string, text: string) {
    s == text || s == text + "\n"
  }

  lemma DigitsToEndMeans(s: string)
    ensures DigitsToEnd(s) <==> exists ds :: Digits(ds) && Ends(s, ds)
  {
    if DigitsToEnd(s) {
      var n := Decimal.Span(s, Digit);
      assert s == s[..n] + s[n..];
      assert Digits(s[..n]) && Ends(s, s[..n]);
    }
    if ds :| Digits(ds) && Ends(s, ds) {
      SpanOfDigits(ds, if s == ds then "" else "\n");
      assert s == ds + if s == ds then "" else "\n";
    }
  }

  lemma SpanOfDigits(ds: string, rest: string)
    requires Digits(ds) && (rest == "" || !('0' <= rest[0] <= '9'))
    ensures Decimal.Span(ds + rest, Digit) == |ds| && (ds + rest)[|ds|..] == rest
  {
    assert forall i :: 0 <= i < |ds| ==> ds[i] in ds;
    Decimal.SpanOfAppend(ds, rest, Digit);
  }

  lemma PrefixMeans(s: string, prefix: string)
    ensures StartsWith(s, prefix) <==> exists rest :: s == prefix + rest
    ensures StartsWith(s, prefix) ==> s == prefix + Rest(s, prefix)
    ensures forall rest :: s == prefix + rest ==> StartsWith(s, prefix) && Rest(s, prefix) == rest
  {
    if StartsWith(s, prefix) {
      assert s == prefix + Rest(s, prefix);
    }
    forall rest | s == prefix + rest
      ensures StartsWith(s, prefix) && Rest(s, prefix) == rest
    {
      assert (prefix + rest)[..|prefix|] == prefix && (prefix + rest)[|prefix|..] == rest;
    }
  }

  lemma NumberedMeans(k: string, prefix: string)
    ensures StartsWith(k, prefix) && DigitsToEnd(Rest(k, prefix)) <==>
            exists ds :: Digits(ds) && Ends(k, prefix + ds)
  {
    PrefixMeans(k, prefix);
    if StartsWith(k, prefix) && DigitsToEnd(Rest(k, prefix)) {
      DigitsToEndMeans(Rest(k, prefix));
      var ds :| Digits(ds) && Ends(Rest(k, prefix), ds);
      assert k == prefix + Rest(k, prefix);
      assert prefix + (ds + "\n") == prefix + ds + "\n";
      assert Ends(k, prefix + ds);
    }
    if ds :| Digits(ds) && Ends(k, prefix + ds) {
      var rest := if k == prefix + ds then ds else ds + "\n";
      assert prefix + (ds + "\n") == prefix + ds + "\n";
      assert k == prefix + rest;
      assert Ends(rest, ds);
      DigitsToEndMeans(rest);
    }
  }

  /** A port-forwarding key is a name or value prefix with digits, as a pattern anchored by `$` reads it. */
  lemma RuleKeyMeans(k: string)
    ensures PortForwarding.IsRuleKey(k) <==>
            exists ds :: Digits(ds) && (Ends(k, "pfwd_name_" + ds) || Ends(k, "pfwd_value_" + ds))
  {
    NumberedMeans(k, "pfwd_name_");
    NumberedMeans(k, "pfwd_value_");
  }

  /** A NAT key is the machine prefix with digits, alone or followed by a LAN suffix with digits. */
  lemma MachineKeyMeans(k: string)
    ensures Nat.IsMachineKey(k) <==>
            exists ds :: Digits(ds) &&
              (Ends(k, "nat_machine_" + ds) || exists es :: Digits(es) && Ends(k, "nat_machine_" + ds + "_lan" + es))
  {
    PrefixMeans(k, "nat_machine_");
    if Nat.IsMachineKey(k) {
      MachineKeyHas(k);
    }
    if ds :| Digits(ds) && Ends(k, "nat_machine_" + ds) {
      MachineKeyOf(k, ds, if k == "nat_machine_" + ds then "" else "\n");
    }
    if ds, es :| Digits(ds) && Digits(es) && Ends(k, "nat_machine_" + ds + "_lan" + es) {
      var tail := if k == "nat_machine_" + ds + "_lan" + es then "_lan" + es else "_lan" + es + "\n";
      assert k == "nat_machine_" + ds + tail;
      assert Ends(tail, "_lan" + es);
      NumberedMeans(tail, "_lan");
      MachineKeyOf(k, ds, tail);
    }
  }

  lemma MachineKeyOf(k: string, ds: string, tail: string)
    requires Digits(ds) && k == "nat_machine_" + ds + tail
    requires AtEnd(tail) || (StartsWith(tail, "_lan") && DigitsToEnd(Rest(tail, "_lan")))
    ensures Nat.IsMachineKey(k)
  {
    assert k == "nat_machine_" + (ds + tail);
    PrefixMeans(k, "nat_machine_");
    SpanOfDigits(ds, tail);
  }

  lemma MachineKeyHas(k: string)
    requires Nat.IsMachineKey(k)
    ensures exists ds :: Digits(ds) &&
              (Ends(k, "nat_machine_" + ds) || exists es :: Digits(es) && Ends(k, "nat_machine_" + ds + "_lan" + es))
  {
    var s := Rest(k, "nat_machine_");
    var n := Decimal.Span(s, Digit);
    var ds, tail := s[..n], s[n..];
    assert k == "nat_machine_" + s && s == ds + tail && k == "nat_machine_" + ds + tail;
    assert Digits(ds);
    if AtEnd(tail) {
      assert Ends(k, "nat_machine_" + ds);
    } else {
      SuffixHas(k, "nat_machine_" + ds, tail);
    }
  }

  lemma SuffixHas(k: string, base: string, tail: string)
    requires k == base + tail && StartsWith(tail, "_lan") && DigitsToEnd(Rest(tail, "_lan"))
    ensures exists es :: Digits(es) && Ends(k, base + "_lan" + es)
  {
    NumberedMeans(tail, "_lan");
    var es :| Digits(es) && Ends(tail, "_lan" + es);
    assert base + ("_lan" + es) == base + "_lan" + es;
    assert base + ("_lan" + es + "\n") == base + "_lan" + es + "\n";
    assert Ends(k, base + "_lan" + es);
  }

  // ----- characters -----

  /** By code point: lower-case letters, capitals, digits, the underscore. */
  lemma NameCharMeans(c: char)
    ensures PortForwarding.NameChar(c) <==>
            97 <= c as int < 123 || 65 <= c as int < 91 || 48 <= c as int < 58 || c as int == 95
  {}

  /** A name is one or more of these. */
  lemma ValidNameMeans(s: string)
    ensures PortForwarding.ValidName(s) <==> |s| > 0 && forall c :: c in s ==> PortForwarding.NameChar(c)
  {
    assert forall i :: 0 <= i < |s| ==> s[i] in s;
  }

  /** A rule fits the schema when its name does, its interface is one of the three, and its ports are 16-bit
      numbers other than zero. */
  lemma ValidRuleMeans(r: PortForwarding.Rule)
    ensures PortForwarding.ValidRule(r) <==>
            && PortForwarding.ValidName(r.name) && r.interface in {"lan1", "lan2", "lan3"}
            && r.srcPort % 0x1_0000 == r.srcPort != 0 && r.destPort % 0x1_0000 == r.destPort != 0
  {}

  /** Only capitals change case, to the letter 32 code points on. */
  lemma LowerMeans(s: string, i: nat)
    requires i < |s|
    ensures |Nat.Lower(s)| == |s|
    ensures 65 <= s[i] as int < 91 ==> Nat.Lower(s)[i] as int == s[i] as int + 32
    ensures !(65 <= s[i] as int < 91) ==> Nat.Lower(s)[i] == s[i]
  {}

  // ----- rule texts -----

  predicate Class(s: string, p: char -> bool) {
    s != "" && forall i :: 0 <= i < |s| ==> p(s[i])
  }

  /** A rule text: its parts in place, the last number as long as it goes. */
  predicate RuleText(value: string, iface: string, src: string, addr: string, dst: string, rest: string) {
    && Class(iface, PortForwarding.NameChar) && Class(src, Digit) && Class(addr, PortForwarding.AddrChar) && Class(dst, Digit)
    && (rest == "" || !Digit(rest[0]))
    && value == "iifname " + (iface + (" tcp dport " + (src + (" dnat to " + (addr + (":" + (dst + rest)))))))
  }

  /** Any text with those parts is read as them, and no other text is read at all. */
  lemma RuleTextMeans(name: string, value: string, raw: PortForwarding.RawRule)
    ensures PortForwarding.ParseRule(name, value) == Some(raw) <==>
            raw.name == name &&
            exists src, dst, rest :: RuleText(value, raw.interface, src, raw.destAddr, dst, rest)
                                     && Decimal.Value(src) == raw.srcPort && Decimal.Value(dst) == raw.destPort
  {
    if PortForwarding.ParseRule(name, value) == Some(raw) {
      var src, dst, rest := ReadAs(name, value, raw);
    }
    if raw.name == name {
      if src, dst, rest :| RuleText(value, raw.interface, src, raw.destAddr, dst, rest)
                           && Decimal.Value(src) == raw.srcPort && Decimal.Value(dst) == raw.destPort {
        TextIsRead(name, value, raw.interface, src, raw.destAddr, dst, rest);
      }
    }
  }

  lemma TextIsRead(name: string, value: string, iface: string, src: string, addr: string, dst: string, rest: string)
    requires RuleText(value, iface, src, addr, dst, rest)
    ensures Decimal.AllDigits(src) && Decimal.AllDigits(dst)
    ensures PortForwarding.ParseRule(name, value) ==
            Some(PortForwarding.RawRule(name, iface, Decimal.Value(src), addr, Decimal.Value(dst)))
  {
    var s6 := dst + rest;
    var s4 := addr + (":" + s6);
    var s2 := src + (" dnat to " + s4);
    var s1 := " tcp dport " + s2;
    PortForwarding.ExpectAppend("iifname ", iface + s1);
    PortForwarding.TakeAppend(iface, s1, PortForwarding.NameChar);
    PortForwarding.ExpectAppend(" tcp dport ", s2);
    PortForwarding.ParseSteps(name, value, iface + s1, iface, s1, s2);
    PortForwarding.TakeAppend(src, " dnat to " + s4, Digit);
    PortForwarding.ExpectAppend(" dnat to ", s4);
    PortForwarding.TakeAppend(addr, ":" + s6, PortForwarding.AddrChar);
    PortForwarding.ExpectAppend(":", s6);
    PortForwarding.TakeAppend(dst, rest, Digit);
  }

  lemma TakeGives(s: string, p: char -> bool)
    ensures var t := PortForwarding.Take(s, p);
            t.Some? ==> Class(t.value.0, p) && s == t.value.0 + t.value.1 && (t.value.1 == "" || !p(t.value.1[0]))
  {
    var n := Decimal.Span(s, p);
    assert s == s[..n] + s[n..];
  }

  lemma ExpectGives(s: string, literal: string)
    ensures PortForwarding.Expect(s, literal).Some? ==> s == literal + PortForwarding.Expect(s, literal).value
  {
    PrefixMeans(s, literal);
  }

  lemma ReadAs(name: string, value: string, raw: PortForwarding.RawRule) returns (src: string, dst: string, rest: string)
    requires PortForwarding.ParseRule(name, value) == Some(raw)
    ensures raw.name == name && RuleText(value, raw.interface, src, raw.destAddr, dst, rest)
    ensures Decimal.Value(src) == raw.srcPort && Decimal.Value(dst) == raw.destPort
  {
    ExpectGives(value, "iifname ");
    var s0 := PortForwarding.Expect(value, "iifname ").value;
    TakeGives(s0, PortForwarding.NameChar);
    var (iface, s1) := PortForwarding.Take(s0, PortForwarding.NameChar).value;
    ExpectGives(s1, " tcp dport ");
    var s2 := PortForwarding.Expect(s1, " tcp dport ").value;
    PortForwarding.ParseSteps(name, value, s0, iface, s1, s2);
    src, dst, rest := TargetReadAs(name, iface, s2, raw);
  }

  lemma TargetReadAs(name: string, iface: string, s2: string, raw: PortForwarding.RawRule)
    returns (src: string, dst: string, rest: string)
    requires PortForwarding.ParseTarget(name, iface, s2) == Some(raw)
    ensures raw.name == name && raw.interface == iface
    ensures Class(src, Digit) && Class(raw.destAddr, PortForwarding.AddrChar) && Class(dst, Digit) && (rest == "" || !Digit(rest[0]))
    ensures s2 == src + (" dnat to " + (raw.destAddr + (":" + (dst + rest))))
    ensures Decimal.Value(src) == raw.srcPort && Decimal.Value(dst) == raw.destPort
  {
    TakeGives(s2, Digit);
    var taken := PortForwarding.Take(s2, Digit).value;
    src := taken.0;
    ExpectGives(taken.1, " dnat to ");
    var s4 := PortForwarding.Expect(taken.1, " dnat to ").value;
    TakeGives(s4, PortForwarding.AddrChar);
    var s5 := PortForwarding.Take(s4, PortForwarding.AddrChar).value.1;
    ExpectGives(s5, ":");
    var s6 := PortForwarding.Expect(s5, ":").value;
    TakeGives(s6, Digit);
    dst, rest := PortForwarding.Take(s6, Digit).value.0, PortForwarding.Take(s6, Digit).value.1;
  }

  // ----- readers -----

  /** What the port-forwarding reader finds under one number. */
  ghost predicate FoundRule(d: Dict, i: nat, found: seq<PortForwarding.RawRule>) {
    && PortForwarding.NameKey(i) in d && PortForwarding.ValueKey(i) in d
    && found == match PortForwarding.ParseRule(d[PortForwarding.NameKey(i)], d[PortForwarding.ValueKey(i)])
                case Some(raw) => [raw]
                case None => []
  }

  function Concat<T>(lists: seq<seq<T>>): seq<T> {
    if lists == [] then [] else lists[0] + Concat(lists[1..])
  }

  lemma FoundAt(d: Dict, i: nat, found: seq<PortForwarding.RawRule>)
    requires FoundRule(d, i, found)
    ensures PortForwarding.RulesAt()(d, i) == Some(found)
  {
    PortForwarding.ReaderIs(d, i);
  }

  lemma NothingAt(d: Dict, i: nat)
    requires PortForwarding.NameKey(i) !in d || PortForwarding.ValueKey(i) !in d
    ensures PortForwarding.RulesAt()(d, i) == None
  {
    PortForwarding.ReaderIs(d, i);
  }

  /** It reads numbers 1, 2, ... as long as both keys are there, skipping texts that are no rule, and no
      further. */
  lemma ForwardingReads(d: Dict, lists: seq<seq<PortForwarding.RawRule>>)
    requires forall i | 0 <= i < |lists| :: FoundRule(d, i + 1, lists[i])
    requires PortForwarding.NameKey(|lists| + 1) !in d || PortForwarding.ValueKey(|lists| + 1) !in d
    ensures PortForwarding.ScanRules(d) == Concat(lists)
  {
    var at := PortForwarding.RulesAt();
    PortForwarding.ReaderStops(d);
    forall i | 0 <= i < |lists|
      ensures at(d, i + 1) == Some(lists[i])
    {
      FoundAt(d, i + 1, lists[i]);
    }
    NothingAt(d, |lists| + 1);
    ScanAllLists(d, at, lists);
  }

  lemma ScanAllLists(d: Dict, at: IndexReader<PortForwarding.RawRule>, lists: seq<seq<PortForwarding.RawRule>>)
    requires StopsWithoutKey(d, PortForwarding.NAME_PREFIX, at)
    requires forall i | 0 <= i < |lists| :: at(d, i + 1) == Some(lists[i])
    requires at(d, |lists| + 1) == None
    ensures Scan(d, PortForwarding.NAME_PREFIX, 1, at) == Concat(lists)
  {
    forall j: nat | 1 <= j <= |lists|
      ensures at(d, j) == Some(lists[j - 1])
    {
      assert at(d, j - 1 + 1) == Some(lists[j - 1]);
    }
    ScanConcats(d, PortForwarding.NAME_PREFIX, at, lists, 1);
    assert lists[0..] == lists;
  }

  lemma {:induction false} ScanConcats<T>(d: Dict, prefix: string, at: IndexReader<T>, lists: seq<seq<T>>, i: nat)
    requires StopsWithoutKey(d, prefix, at)
    requires 1 <= i <= |lists| + 1 && PresentUpTo(d, prefix, i - 1)
    requires forall j: nat | 1 <= j <= |lists| :: at(d, j) == Some(lists[j - 1])
    requires at(d, |lists| + 1) == None
    ensures Scan(d, prefix, i, at) == Concat(lists[i - 1..])
    decreases |lists| + 1 - i
  {
    if i <= |lists| {
      assert at(d, i) == Some(lists[i - 1]);
      ScanStep(d, prefix, i, at);
      ScanConcats(d, prefix, at, lists, i + 1);
      assert lists[i - 1..][0] == lists[i - 1] && lists[i - 1..][1..] == lists[i..];
    }
  }

  /** The NAT reader reads numbers 1, 2, ... as long as the machine key is there; addresses that are not
      stored are read as empty texts. */
  lemma NatReads(d: Dict, raws: seq<Nat.RawRule>)
    requires forall i | 1 <= i <= |raws| ::
               && Nat.MachineKey(i) in d && raws[i - 1].name == d[Nat.MachineKey(i)]
               && raws[i - 1].extIp == (if Nat.ExtKey(i) in d then d[Nat.ExtKey(i)] else "")
               && raws[i - 1].intIp == (if Nat.IntKey(i) in d then d[Nat.IntKey(i)] else "")
    requires Nat.MachineKey(|raws| + 1) !in d
    ensures Nat.ScanRules(d) == raws
  {
    var at := Nat.RulesAt();
    Nat.ReaderStops(d);
    forall i: nat
      ensures 1 <= i <= |raws| ==> at(d, i) == Some([raws[i - 1]])
      ensures i == |raws| + 1 ==> at(d, i) == None
    {
      Nat.ReaderIs(d, i);
    }
    ScanGives(d, Nat.MACHINE_PREFIX, at, raws, 1);
    assert raws[0..] == raws;
  }

  // ----- accepted lists -----

  /** A port-forwarding list is accepted exactly when it has at most ten rules, as many names as rules, and as
      many pairs of interface and port. */
  lemma ForwardingAcceptedIff(rules: seq<PortForwarding.Rule>)
    ensures PortForwarding.Accepted(rules) <==>
            && |rules| < 11
            && |set r | r in rules :: r.name| == |rules|
            && |set r | r in rules :: (r.interface, r.srcPort)| == |rules|
  {
    var name := (r: PortForwarding.Rule) => r.name;
    var port := (r: PortForwarding.Rule) => (r.interface, r.srcPort);
    DistinctIsCount(rules, name);
    DistinctIsCount(rules, port);
    assert Images(rules, name) == set r | r in rules :: r.name;
    assert Images(rules, port) == set r | r in rules :: (r.interface, r.srcPort);
    assert forall i, j | 0 <= i < j < |rules| :: name(rules[i]) != name(rules[j]) <==> rules[i].name != rules[j].name;
    assert forall i, j | 0 <= i < j < |rules| ::
      port(rules[i]) != port(rules[j]) <==> !(rules[i].interface == rules[j].interface && rules[i].srcPort == rules[j].srcPort);
  }

  /** The device has LAN 3 texts. */
  predicate HasLan(d: Dict) {
    GetOr(d, "ip_lan_3", "") != "" && GetOr(d, "subnet_lan_3", "") != ""
  }

  /** The address lies in the device's LAN 3 network, which can be read. */
  predicate InLan(d: Dict, ip: Ipv4.Address)
    requires HasLan(d)
  {
    InNetwork(Ipv4.Parse(d["ip_lan_3"]), Nat.PrefixOf(d["subnet_lan_3"]), ip)
  }

  /** The aligned interval of 2^(32 - p) addresses around the network's. */
  predicate InNetwork(network: Option<Ipv4.Address>, prefix: Option<nat>, ip: Ipv4.Address) {
    match (network, prefix)
    case (Some(net), Some(p)) =>
      p <= 32 &&
      var size := Blocks.Pow2(32 - p);
      net - net % size <= ip < net - net % size + size
    case _ => false
  }

  lemma InsideMeans(network: Option<Ipv4.Address>, prefix: Option<nat>, ip: Ipv4.Address)
    requires prefix.Some? ==> prefix.value <= 32
    ensures Nat.Inside(ip, network, prefix) == Some(true) <==> InNetwork(network, prefix, ip)
  {
    Nat.InsideIs(ip, network, prefix);
  }

  /** A NAT list is accepted exactly when all external addresses differ, all internal ones do, no rule maps
      an address to itself, and the internal ones lie in the LAN 3 network of a device that has one. */
  lemma NatAcceptedIff(d: Dict, rules: seq<Nat.Rule>)
    ensures Nat.Accepted(d, rules) <==>
            && |set r | r in rules :: r.extIp| == |rules| && |set r | r in rules :: r.intIp| == |rules|
            && (forall r :: r in rules ==> r.extIp != r.intIp)
            && (HasLan(d) ==> forall r :: r in rules ==> InLan(d, r.intIp))
  {
    var outer := (r: Nat.Rule) => r.extIp;
    var inner := (r: Nat.Rule) => r.intIp;
    DistinctIsCount(rules, outer);
    DistinctIsCount(rules, inner);
    assert Images(rules, outer) == set r | r in rules :: r.extIp;
    assert Images(rules, inner) == set r | r in rules :: r.intIp;
    assert forall i, j | 0 <= i < j < |rules| ::
      Nat.Apart(rules[i], rules[j]) <==> outer(rules[i]) != outer(rules[j]) && inner(rules[i]) != inner(rules[j]);
    forall r
      ensures Nat.Fits(d, r) <==> r.extIp != r.intIp && (HasLan(d) ==> InLan(d, r.intIp))
    {
      FitsLanIff(d, r.intIp);
    }
    FitAll(d, rules);
  }

  lemma FitsLanIff(d: Dict, ip: Ipv4.Address)
    ensures Nat.FitsLan(d, ip) <==> (HasLan(d) ==> InLan(d, ip))
  {
    if HasLan(d) {
      Nat.PrefixIsShort(d["subnet_lan_3"]);
      InsideMeans(Ipv4.Parse(d["ip_lan_3"]), Nat.PrefixOf(d["subnet_lan_3"]), ip);
    }
  }

  lemma FitAll(d: Dict, rules: seq<Nat.Rule>)
    requires forall r :: Nat.Fits(d, r) <==> r.extIp != r.intIp && (HasLan(d) ==> InLan(d, r.intIp))
    ensures (forall i :: 0 <= i < |rules| ==> Nat.Fits(d, rules[i])) <==>
            && (forall r :: r in rules ==> r.extIp != r.intIp)
            && (HasLan(d) ==> forall r :: r in rules ==> InLan(d, r.intIp))
  {
    if forall i :: 0 <= i < |rules| ==> Nat.Fits(d, rules[i]) {
      forall r | r in rules
        ensures Nat.Fits(d, r)
      {
        var i :| 0 <= i < |rules| && rules[i] == r;
      }
    } else {
      var i :| 0 <= i < |rules| && !Nat.Fits(d, rules[i]);
      assert rules[i] in rules;
    }
  }
}
