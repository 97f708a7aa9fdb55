/** NAT rules as numbered template variables, guarded by the `nat_enabled` variable. */
module Nat {
  import opened Wrappers
  import opened Variables
  import Blocks
  import Decimal
  import Ipv4
  import PortForwarding

  type Address = Ipv4.Address

  datatype Rule = Rule(name: string, extIp: Address, intIp: Address)

  predicate ValidRules(rules: seq<Rule>) {
    forall r :: r in rules ==> PortForwarding.ValidName(r.name)
  }

  const MACHINE_PREFIX := "nat_machine_"
  const ENABLED := "nat_enabled"
  const LAN_IP := "ip_lan_3"
  const LAN_SUBNET := "subnet_lan_3"

  function MachineKey(i: nat): string {
    IndexKey(MACHINE_PREFIX, i)
  }

  function ExtKey(i: nat): string {
    MachineKey(i) + "_lan2"
  }

  function IntKey(i: nat): string {
    MachineKey(i) + "_lan3"
  }

  /** `^nat_machine_\d+(_lan\d+)?$` */
  predicate IsMachineKey(k: string) {
    StartsWith(k, MACHINE_PREFIX) &&
    var s := Rest(k, MACHINE_PREFIX);
    var n := Decimal.Span(s, Digit);
    n > 0 && (AtEnd(s[n..]) || (StartsWith(s[n..], "_lan") && DigitsToEnd(Rest(s[n..], "_lan"))))
  }

  // ----- subnets -----

  /** The prefix length whose netmask is `a`, searched from `p` on. */
  function NetmaskPrefix(a: Address, p: nat): Option<nat>
    decreases 33 - p
  {
    if p > 32 then None
    else if a == 0x1_0000_0000 - Blocks.Pow2(32 - p) then Some(p)
    else NetmaskPrefix(a, p + 1)
  }

  /** A subnet text: a prefix length, a netmask, or a host mask; None where the library raises. */
  function PrefixOf(text: string): Option<nat> {
    if text != "" && Decimal.AllDigits(text) then
      if Decimal.Value(text) <= 32 then Some(Decimal.Value(text)) else None
    else
      match Ipv4.Parse(text)
      case None => None
      case Some(a) => MaskPrefix(a)
  }

  /** The prefix length of a netmask or else of a host mask. */
  function MaskPrefix(a: Address): Option<nat> {
    if NetmaskPrefix(a, 0).Some? then NetmaskPrefix(a, 0) else NetmaskPrefix(0xFFFF_FFFF - a, 0)
  }

  function Netmask(p: nat): (a: Address)
    requires p <= 32
    ensures a + Blocks.Pow2(32 - p) == 0x1_0000_0000
  {
    Blocks.Sizes();
    Pow2Grows(32 - p, 32);
    0x1_0000_0000 - Blocks.Pow2(32 - p)
  }

  function HostMask(p: nat): (a: Address)
    requires p <= 32
    ensures a + 1 == Blocks.Pow2(32 - p)
  {
    Blocks.Sizes();
    Pow2Grows(32 - p, 32);
    Blocks.Pow2(32 - p) - 1
  }

  lemma {:induction false} Pow2Grows(j: nat, k: nat)
    requires j <= k
    ensures Blocks.Pow2(j) <= Blocks.Pow2(k) && (j < k ==> Blocks.Pow2(j) < Blocks.Pow2(k))
    decreases k
  {
    if j < k {
      Pow2Grows(j, k - 1);
    }
  }

  lemma {:induction false} NetmaskPrefixIs(a: Address, p: nat, q: nat)
    ensures NetmaskPrefix(a, p) == Some(q) <==> p <= q <= 32 && a == Netmask(q)
    decreases 33 - p
  {
    if p <= 32 {
      NetmaskPrefixIs(a, p + 1, q);
      if q <= 32 {
        Pow2Grows(32 - q, 32 - p + if q < p then p - q else 0);
        if q < p {
          Pow2Grows(32 - p, 32 - q);
        } else {
          Pow2Grows(32 - q, 32 - p);
        }
      }
    }
  }

  lemma PrintHasDot(a: Address)
    ensures Ipv4.Print(a) != "" && !Decimal.AllDigits(Ipv4.Print(a))
  {
    var text := Ipv4.Print(a);
    var o0 := a / 0x100_0000;
    Decimal.ValueOfPrint(o0);
    assert text[|Decimal.Print(o0)|] == '.';
  }

  /** The texts of a prefix length: its digits, its netmask, and between the extremes its host mask. */
  lemma SubnetTexts(p: nat)
    requires p <= 32
    ensures PrefixOf(Decimal.Print(p)) == Some(p)
    ensures PrefixOf(Ipv4.Print(Netmask(p))) == Some(p)
    ensures 0 < p < 32 ==> PrefixOf(Ipv4.Print(HostMask(p))) == Some(p)
  {
    Decimal.ValueOfPrint(p);
    PrintHasDot(Netmask(p));
    Ipv4.ParseOfPrint(Netmask(p));
    NetmaskPrefixIs(Netmask(p), 0, p);
    if 0 < p < 32 {
      PrintHasDot(HostMask(p));
      Ipv4.ParseOfPrint(HostMask(p));
      NetmaskPrefixIs(0xFFFF_FFFF - HostMask(p), 0, p);
      HostMaskIsNoNetmask(p);
    }
  }

  lemma HostMaskIsOdd(p: nat)
    requires p < 32
    ensures HostMask(p) % 2 == 1 && Netmask(p) % 2 == 0
  {
    Pow2IsEven(32 - p);
    Parity(HostMask(p), Netmask(p), Blocks.Pow2(32 - p));
  }

  lemma Parity(host: nat, net: nat, size: nat)
    requires host + 1 == size && net + size == 0x1_0000_0000 && size % 2 == 0
    ensures host % 2 == 1 && net % 2 == 0
  {}

  lemma Pow2IsEven(k: nat)
    requires k > 0
    ensures Blocks.Pow2(k) % 2 == 0
  {}

  lemma HostMaskIsSmall(p: nat)
    requires 0 < p <= 32
    ensures HostMask(p) < Netmask(32)
  {
    Pow2Grows(32 - p, 31);
    Pow2Grows(31, 32);
    Blocks.Sizes();
    assert Blocks.Pow2(0) == 1;
  }

  lemma HostMaskIsNoNetmask(p: nat)
    requires 0 < p < 32
    ensures NetmaskPrefix(HostMask(p), 0) == None
  {
    HostMaskIsOdd(p);
    HostMaskIsSmall(p);
    forall q: nat
      ensures NetmaskPrefix(HostMask(p), 0) != Some(q)
    {
      NetmaskPrefixIs(HostMask(p), 0, q);
      if q < 32 {
        HostMaskIsOdd(q);
      }
    }
  }

  /** And no other text gives a prefix length. */
  lemma PrefixHasItsText(text: string, p: nat)
    requires PrefixOf(text) == Some(p)
    ensures p <= 32
    ensures (text != "" && Decimal.AllDigits(text) && Decimal.Value(text) == p)
            || text == Ipv4.Print(Netmask(p)) || text == Ipv4.Print(HostMask(p))
  {
    if text == "" || !Decimal.AllDigits(text) {
      var a := MaskOf(text, p);
      MaskIs(a, p);
    }
  }

  lemma MaskOf(text: string, p: nat) returns (a: Address)
    requires PrefixOf(text) == Some(p) && (text == "" || !Decimal.AllDigits(text))
    ensures text == Ipv4.Print(a) && MaskPrefix(a) == Some(p)
  {
    a := Ipv4.Parse(text).value;
    Ipv4.PrintOfParse(text);
  }

  lemma MaskIs(a: Address, p: nat)
    requires MaskPrefix(a) == Some(p)
    ensures p <= 32 && (a == Netmask(p) || a == HostMask(p))
  {
    NetmaskPrefixIs(a, 0, p);
    NetmaskPrefixIs(0xFFFF_FFFF - a, 0, p);
    if a + Blocks.Pow2(32 - p) != 0x1_0000_0000 {
      assert a + 1 == Blocks.Pow2(32 - p);
    }
  }

  /** An address is in a subnet exactly when both texts can be read and it lies in the aligned interval of
      2^(32 - p) addresses around the network's. */
  lemma InSubnetIs(ip: Address, networkIp: string, subnet: string)
    ensures InSubnet(ip, networkIp, subnet) ==
            if Ipv4.Parse(networkIp).None? || PrefixOf(subnet).None? then None
            else Some(PrefixOf(subnet).value <= 32
                      && Around(Ipv4.Parse(networkIp).value, Blocks.Pow2(32 - PrefixOf(subnet).value), ip))
  {
    PrefixIsShort(subnet);
    InsideIs(ip, Ipv4.Parse(networkIp), PrefixOf(subnet));
  }

  lemma InsideIs(ip: Address, network: Option<Address>, prefix: Option<nat>)
    requires prefix.Some? ==> prefix.value <= 32
    ensures Inside(ip, network, prefix) ==
            if network.None? || prefix.None? then None
            else Some(Around(network.value, Blocks.Pow2(32 - prefix.value), ip))
  {
    if network.Some? && prefix.Some? {
      SubnetIsInterval(network.value, ip, 32 - prefix.value);
    }
  }

  predicate Around(base: nat, size: nat, a: nat)
    requires size > 0
  {
    base - base % size <= a < base - base % size + size
  }

  lemma PrefixIsShort(subnet: string)
    ensures PrefixOf(subnet).Some? ==> PrefixOf(subnet).value <= 32
  {
    if PrefixOf(subnet).Some? {
      PrefixHasItsText(subnet, PrefixOf(subnet).value);
    }
  }

  lemma SubnetIsInterval(net: Address, ip: Address, k: nat)
    ensures Blocks.Shift(ip, k) == Blocks.Shift(net, k) <==> Around(net, Blocks.Pow2(k), ip)
  {
    Blocks.ShiftIsQuotient(net, k);
    Blocks.BlockIsInterval(net, ip, k);
  }

  /** `is_ip_in_subnet`: None where it raises. */
  function InSubnet(ip: Address, networkIp: string, subnet: string): Option<bool> {
    Inside(ip, Ipv4.Parse(networkIp), PrefixOf(subnet))
  }

  function Inside(ip: Address, network: Option<Address>, prefix: Option<nat>): Option<bool> {
    match (network, prefix)
    case (Some(net), Some(p)) => if p <= 32 then Some(Blocks.Shift(ip, 32 - p) == Blocks.Shift(net, 32 - p)) else None
    case _ => None
  }

  /** The internal address fits the LAN 3 subnet, when the device has one. */
  predicate FitsLan(d: Dict, ip: Address) {
    GetOr(d, LAN_IP, "") == "" || GetOr(d, LAN_SUBNET, "") == "" ||
    InSubnet(ip, d[LAN_IP], d[LAN_SUBNET]) == Some(true)
  }

  // ----- writing -----

  datatype Failure = NotEligible | TooMany | OutOfLan | SameIps | RepeatedIp | BadSubnet | BadResponse | NotStored

  predicate Fits(d: Dict, r: Rule) {
    FitsLan(d, r.intIp) && r.extIp != r.intIp
  }

  /** What the validation of an enabled list comes down to. */
  predicate Accepted(d: Dict, rules: seq<Rule>) {
    && (forall i :: 0 <= i < |rules| ==> Fits(d, rules[i]))
    && (forall i, j :: 0 <= i < j < |rules| ==> Apart(rules[i], rules[j]))
  }

  predicate Apart(a: Rule, b: Rule) {
    a.extIp != b.extIp && a.intIp != b.intIp
  }

  /** The three variables of one rule. */
  function Entry(i: nat, r: Rule): Dict {
    map[MachineKey(i) := r.name, ExtKey(i) := Ipv4.Print(r.extIp), IntKey(i) := Ipv4.Print(r.intIp)]
  }

  function PrintEntry(): (nat, Rule) -> Dict {
    (i: nat, r: Rule) => Entry(i, r)
  }

  function Entries(rules: seq<Rule>): Dict {
    Numbered(rules, PrintEntry())
  }

  function WithoutMachines(d: Dict): Dict {
    map k | k in d && !IsMachineKey(k) :: d[k]
  }

  function Write(d: Dict, enabled: bool, rules: seq<Rule>): Dict {
    if enabled then WithoutMachines(d)[ENABLED := "true"] + Entries(rules) else WithoutMachines(d) - {ENABLED}
  }

  method RemoveMachineKeys(d: Dict) returns (rest: Dict)
    ensures rest == WithoutMachines(d)
  {
    var keysToRemove := set k | k in d && IsMachineKey(k);
    rest := d;
    var todo := keysToRemove;
    while todo != {}
      invariant todo <= keysToRemove
      invariant rest == map k | k in d && !(k in keysToRemove && k !in todo) :: d[k]
    {
      var k :| k in todo;
      rest := rest - {k};
      todo := todo - {k};
    }
  }

  method CheckSubnet(d: Dict, r: Rule) returns (failure: Option<Failure>)
    ensures failure.None? <==> FitsLan(d, r.intIp)
  {
    var ipLan, subnetLan := GetOr(d, LAN_IP, ""), GetOr(d, LAN_SUBNET, "");
    if ipLan != "" && subnetLan != "" {
      var inside := InSubnet(r.intIp, ipLan, subnetLan);
      if inside.None? {
        return Some(BadSubnet);
      }
      if !inside.value {
        return Some(OutOfLan);
      }
    }
    return None;
  }

  /** `device_variables_dict.update(nat_rule)` */
  method AddEntry(ghost d: Dict, rules: seq<Rule>, i: nat, out: Dict) returns (updated: Dict)
    requires i < |rules| && out == d + Entries(rules[..i])
    ensures updated == d + Entries(rules[..i + 1])
  {
    NumberedStep(rules, i, PrintEntry());
    PlusAssociates(d, Entries(rules[..i]), Entry(i + 1, rules[i]));
    updated := out + Entry(i + 1, rules[i]);
  }

  /** The sets of addresses used by the rules before the current one. */
  ghost predicate SeenBy(before: seq<Rule>, seenExt: set<Address>, seenInt: set<Address>) {
    && (forall a :: a in seenExt <==> exists j :: 0 <= j < |before| && before[j].extIp == a)
    && (forall a :: a in seenInt <==> exists j :: 0 <= j < |before| && before[j].intIp == a)
  }

  method CheckRule(d: Dict, r: Rule, ghost before: seq<Rule>, seenExt: set<Address>, seenInt: set<Address>)
    returns (failure: Option<Failure>)
    requires SeenBy(before, seenExt, seenInt)
    ensures failure.None? <==> Fits(d, r) && forall j :: 0 <= j < |before| ==> Apart(before[j], r)
  {
    failure := CheckSubnet(d, r);
    if failure.Some? {
      return;
    }
    if r.extIp == r.intIp {
      return Some(SameIps);
    }
    if r.extIp in seenExt || r.intIp in seenInt {
      return Some(RepeatedIp);
    }
  }

  /** Rule `i` passes on its own and against all rules before it. */
  predicate AcceptsNext(d: Dict, rules: seq<Rule>, i: nat)
    requires i < |rules|
  {
    Fits(d, rules[i]) && forall j :: 0 <= j < i ==> Apart(rules[j], rules[i])
  }

  predicate AcceptedUpTo(d: Dict, rules: seq<Rule>, n: nat)
    requires n <= |rules|
  {
    n == 0 || (AcceptedUpTo(d, rules, n - 1) && AcceptsNext(d, rules, n - 1))
  }

  lemma {:induction false} AcceptedUpToSpec(d: Dict, rules: seq<Rule>, n: nat)
    requires n <= |rules|
    ensures AcceptedUpTo(d, rules, n) <==> forall i :: 0 <= i < n ==> AcceptsNext(d, rules, i)
  {
    if n > 0 {
      AcceptedUpToSpec(d, rules, n - 1);
    }
  }

  lemma AcceptedOneByOne(d: Dict, rules: seq<Rule>)
    ensures Accepted(d, rules) <==> AcceptedUpTo(d, rules, |rules|)
  {
    AcceptedUpToSpec(d, rules, |rules|);
    if AcceptedUpTo(d, rules, |rules|) {
      forall i, j | 0 <= i < j < |rules|
        ensures Apart(rules[i], rules[j])
      {
        assert AcceptsNext(d, rules, j);
      }
      forall i | 0 <= i < |rules|
        ensures Fits(d, rules[i])
      {
        assert AcceptsNext(d, rules, i);
      }
    }
  }

  lemma RejectedAt(d: Dict, rules: seq<Rule>, i: nat)
    requires i < |rules| && !AcceptsNext(d, rules, i)
    ensures !Accepted(d, rules)
  {
    AcceptedUpToSpec(d, rules, |rules|);
    AcceptedOneByOne(d, rules);
  }

  /** The checks of one rule against the sets seen so far. */
  method CheckNext(d: Dict, rules: seq<Rule>, i: nat, seenExt: set<Address>, seenInt: set<Address>)
    returns (failure: Option<Failure>)
    requires i < |rules| && SeenBy(rules[..i], seenExt, seenInt)
    ensures failure.None? <==> AcceptsNext(d, rules, i)
    ensures SeenBy(rules[..i + 1], seenExt + {rules[i].extIp}, seenInt + {rules[i].intIp})
  {
    failure := CheckRule(d, rules[i], rules[..i], seenExt, seenInt);
    SeenMore(rules[..i], rules[i], seenExt, seenInt);
    assert rules[..i + 1] == rules[..i] + [rules[i]];
    assert forall j :: 0 <= j < i ==> rules[..i][j] == rules[j];
  }

  /** Validates and prints the rules one by one; a failure abandons the whole dictionary. */
  method AddRules(d: Dict, rules: seq<Rule>) returns (result: Result<Dict, Failure>)
    ensures result.Ok? <==> Accepted(d, rules)
    ensures result.Ok? ==> result.value == d + Entries(rules)
  {
    var seenExt: set<Address>, seenInt: set<Address> := {}, {};
    var out := d;
    for i := 0 to |rules|
      invariant AcceptedUpTo(d, rules, i)
      invariant SeenBy(rules[..i], seenExt, seenInt)
      invariant out == d + Entries(rules[..i])
    {
      var failure := CheckNext(d, rules, i, seenExt, seenInt);
      if failure.Some? {
        RejectedAt(d, rules, i);
        return Err(failure.value);
      }
      seenExt, seenInt := seenExt + {rules[i].extIp}, seenInt + {rules[i].intIp};
      out := AddEntry(d, rules, i, out);
    }
    AcceptedOneByOne(d, rules);
    assert rules[..|rules|] == rules;
    return Ok(out);
  }

  lemma SeenMore(before: seq<Rule>, r: Rule, seenExt: set<Address>, seenInt: set<Address>)
    requires SeenBy(before, seenExt, seenInt)
    ensures SeenBy(before + [r], seenExt + {r.extIp}, seenInt + {r.intIp})
  {
    var all := before + [r];
    assert all[|before|] == r;
    assert forall j :: 0 <= j < |before| ==> all[j] == before[j];
  }

  /** Stores the configuration; `stored` says whether the management system accepted the edit. */
  method PostNat(device: Device, enabled: bool, rules: seq<Rule>, stored: bool) returns (failure: Option<Failure>)
    modifies device`variables
    ensures failure.None? <==>
            |rules| <= 10 && device.eligible && stored
            && (enabled ==> Accepted(WithoutMachines(DictOf(old(device.variables)))[ENABLED := "true"], rules))
    ensures failure.None? ==> DictOf(device.variables) == Write(DictOf(old(device.variables)), enabled, rules)
    ensures failure.Some? ==> device.variables == old(device.variables)
    ensures |rules| > 10 ==> failure == Some(TooMany)
  {
    if |rules| > 10 {
      return Some(TooMany);
    }
    if !device.eligible {
      return Some(NotEligible);
    }
    var d := device.VariablesDict();
    d := RemoveMachineKeys(d);
    if !enabled {
      d := d - {ENABLED};
    } else {
      d := d[ENABLED := "true"];
      var added := AddRules(d, rules);
      if added.Err? {
        return Some(added.error);
      }
      d := added.value;
    }
    if !stored {
      return Some(NotStored);
    }
    device.StoreDict(d);
    return None;
  }

  // ----- reading -----

  datatype RawRule = RawRule(name: string, extIp: string, intIp: string)

  function RuleAt(d: Dict, i: nat): Option<seq<RawRule>> {
    if MachineKey(i) !in d then None
    else Some([RawRule(d[MachineKey(i)], GetOr(d, ExtKey(i), ""), GetOr(d, IntKey(i), ""))])
  }

  function RulesAt(): IndexReader<RawRule> {
    (d: Dict, i: nat) => RuleAt(d, i)
  }

  lemma ReaderStops(d: Dict)
    ensures StopsWithoutKey(d, MACHINE_PREFIX, RulesAt())
  {
    forall j: nat | RulesAt()(d, j).Some?
      ensures IndexKey(MACHINE_PREFIX, j) in d
    {
      assert RulesAt()(d, j) == RuleAt(d, j);
    }
  }

  function ScanRules(d: Dict): seq<RawRule> {
    ReaderStops(d);
    Scan(d, MACHINE_PREFIX, 1, RulesAt())
  }

  function Validate(raw: RawRule): Option<Rule> {
    match (Ipv4.Parse(raw.extIp), Ipv4.Parse(raw.intIp))
    case (Some(e), Some(i)) => if PortForwarding.ValidName(raw.name) then Some(Rule(raw.name, e, i)) else None
    case _ => None
  }

  function Validator(): RawRule -> Option<Rule> {
    (raw: RawRule) => Validate(raw)
  }

  function ValidateAll(raws: seq<RawRule>): Option<seq<Rule>> {
    Collect(raws, Validator())
  }

  function LowerChar(c: char): char {
    if 'A' <= c <= 'Z' then (c as int + 32) as char else c
  }

  function Lower(text: string): string {
    seq(|text|, i requires 0 <= i < |text| => LowerChar(text[i]))
  }

  /** The flag as response validation reads it, without regard to case. */
  function ParseFlag(text: string): Option<bool> {
    if Lower(text) in {"true", "1", "on", "t", "y", "yes"} then Some(true)
    else if Lower(text) in {"false", "0", "off", "f", "n", "no"} then Some(false)
    else None
  }

  lemma WrittenFlags()
    ensures ParseFlag("true") == Some(true) && ParseFlag("false") == Some(false)
  {
    assert Lower("true") == "true" && Lower("false") == "false";
  }

  function Read(d: Dict): Option<(bool, seq<Rule>)> {
    var flag := GetOr(d, ENABLED, "false");
    match (ParseFlag(flag), ValidateAll(if flag == "true" then ScanRules(d) else []))
    case (Some(b), Some(rules)) => Some((b, rules))
    case _ => None
  }

  method GetNat(device: Device) returns (result: Result<(bool, seq<Rule>), Failure>)
    ensures !device.eligible ==> result == Err(NotEligible)
    ensures device.eligible ==>
              result == match Read(DictOf(device.variables)) case Some(config) => Ok(config) case None => Err(BadResponse)
  {
    if !device.eligible {
      return Err(NotEligible);
    }
    var d := device.VariablesDict();
    var raws: seq<RawRule> := [];
    if GetOr(d, ENABLED, "false") == "true" {
      ReaderStops(d);
      raws := ScanAll(d, MACHINE_PREFIX, RulesAt());
    }
    match (ParseFlag(GetOr(d, ENABLED, "false")), ValidateAll(raws))
    case (Some(b), Some(rules)) => return Ok((b, rules));
    case _ => return Err(BadResponse);
  }

  /** A flag stored as a variable is read back as the same flag; an absent one cannot be read. */
  lemma ShownFlagReadsBack(b: bool)
    ensures ParseFlag(Shown(Flag(b))) == Some(b) && ParseFlag(Shown(Absent)) == None
  {
    WrittenFlags();
    assert Lower("null") == "null";
  }

  // ----- keys -----

  lemma MachineKeys(i: nat)
    ensures IsMachineKey(MachineKey(i)) && IsMachineKey(ExtKey(i)) && IsMachineKey(IntKey(i))
  {
    PrefixedPrint(MACHINE_PREFIX, i, "");
    PrefixedPrint(MACHINE_PREFIX, i, "_lan2");
    PrefixedPrint(MACHINE_PREFIX, i, "_lan3");
    assert MACHINE_PREFIX + Decimal.Print(i) + "" == MachineKey(i);
    LanSuffix('2');
    LanSuffix('3');
    assert ['_', 'l', 'a', 'n', '2'] == "_lan2" && ['_', 'l', 'a', 'n', '3'] == "_lan3";
  }

  lemma LanSuffix(c: char)
    requires Decimal.IsDigit(c)
    ensures var s := "_lan" + [c]; StartsWith(s, "_lan") && DigitsToEnd(Rest(s, "_lan"))
  {
    var s := "_lan" + [c];
    assert Rest(s, "_lan") == [c];
    assert [c] + "" == [c];
    Decimal.SpanOfAppend([c], "", Digit);
  }

  /** The length of the digit run tells the three kinds of key, and the index, apart. */
  lemma KeysInjective(i: nat, j: nat)
    ensures MachineKey(i) != ExtKey(j) && MachineKey(i) != IntKey(j) && ExtKey(i) != IntKey(j)
    ensures i != j ==> MachineKey(i) != MachineKey(j) && ExtKey(i) != ExtKey(j) && IntKey(i) != IntKey(j)
  {
    PrefixedPrint(MACHINE_PREFIX, i, "");
    PrefixedPrint(MACHINE_PREFIX, j, "_lan2");
    PrefixedPrint(MACHINE_PREFIX, j, "_lan3");
    assert MACHINE_PREFIX + Decimal.Print(i) + "" == MachineKey(i);
    assert ExtKey(i)[|ExtKey(i)| - 1] == '2' && IntKey(j)[|IntKey(j)| - 1] == '3';
    if i != j {
      if MachineKey(i) == MachineKey(j) {
        IndexInjective(MACHINE_PREFIX, i, j);
      }
      SuffixCancels(MachineKey(i), MachineKey(j), "_lan2");
      SuffixCancels(MachineKey(i), MachineKey(j), "_lan3");
    }
  }

  lemma SuffixCancels(a: string, b: string, suffix: string)
    ensures a + suffix == b + suffix ==> a == b
  {
    if a + suffix == b + suffix {
      assert |a| == |b|;
      assert (a + suffix)[..|a|] == a && (b + suffix)[..|b|] == b;
    }
  }

  lemma EntrySpec(n: nat, r: Rule, i: nat)
    ensures MachineKey(i) in Entry(n, r) <==> i == n
    ensures ExtKey(i) in Entry(n, r) <==> i == n
    ensures IntKey(i) in Entry(n, r) <==> i == n
    ensures Entry(n, r)[MachineKey(n)] == r.name
    ensures Entry(n, r)[ExtKey(n)] == Ipv4.Print(r.extIp)
    ensures Entry(n, r)[IntKey(n)] == Ipv4.Print(r.intIp)
  {
    KeysInjective(i, n);
    KeysInjective(n, i);
    KeysInjective(n, n);
  }

  lemma {:induction false} EntriesSpec(rules: seq<Rule>, i: nat)
    ensures MachineKey(i) in Entries(rules) <==> 1 <= i <= |rules|
    ensures 1 <= i <= |rules| ==>
              && ExtKey(i) in Entries(rules) && IntKey(i) in Entries(rules)
              && Entries(rules)[MachineKey(i)] == rules[i - 1].name
              && Entries(rules)[ExtKey(i)] == Ipv4.Print(rules[i - 1].extIp)
              && Entries(rules)[IntKey(i)] == Ipv4.Print(rules[i - 1].intIp)
  {
    if rules != [] {
      var n := |rules|;
      EntriesSpec(rules[..n - 1], i);
      EntrySpec(n, rules[n - 1], i);
    }
  }

  lemma {:induction false} EntriesKeys(rules: seq<Rule>, k: string)
    requires k in Entries(rules)
    ensures IsMachineKey(k)
    ensures exists i :: 1 <= i <= |rules| && (k == MachineKey(i) || k == ExtKey(i) || k == IntKey(i))
  {
    var n := |rules|;
    MachineKeys(n);
    if k != MachineKey(n) && k != ExtKey(n) && k != IntKey(n) {
      EntriesKeys(rules[..n - 1], k);
    }
  }

  lemma EnabledIsNoMachine()
    ensures !IsMachineKey(ENABLED)
  {
    assert |ENABLED| < |MACHINE_PREFIX|;
  }

  /** Unrelated variables are untouched, and the machine variables left are exactly the printed ones. */
  lemma WriteTouchesOnlyNat(d: Dict, enabled: bool, rules: seq<Rule>, k: string)
    ensures !IsMachineKey(k) && k != ENABLED ==> Get(Write(d, enabled, rules), k) == Get(d, k)
    ensures IsMachineKey(k) && k in Write(d, enabled, rules) ==>
              enabled && exists i :: 1 <= i <= |rules| && (k == MachineKey(i) || k == ExtKey(i) || k == IntKey(i))
  {
    EnabledIsNoMachine();
    if k in Entries(rules) {
      EntriesKeys(rules, k);
    }
  }

  // ----- round trip -----

  lemma WrittenAt(d: Dict, rules: seq<Rule>, i: nat)
    ensures RuleAt(Write(d, true, rules), i) ==
            if 1 <= i <= |rules|
            then Some([RawRule(rules[i - 1].name, Ipv4.Print(rules[i - 1].extIp), Ipv4.Print(rules[i - 1].intIp))])
            else None
  {
    EntriesSpec(rules, i);
    MachineKeys(i);
    EnabledIsNoMachine();
  }

  function RawOf(r: Rule): RawRule {
    RawRule(r.name, Ipv4.Print(r.extIp), Ipv4.Print(r.intIp))
  }

  function RawsOf(rules: seq<Rule>): seq<RawRule> {
    seq(|rules|, i requires 0 <= i < |rules| => RawOf(rules[i]))
  }

  lemma RawIsValid(r: Rule)
    requires PortForwarding.ValidName(r.name)
    ensures Validate(RawOf(r)) == Some(r)
  {
    Ipv4.ParseOfPrint(r.extIp);
    Ipv4.ParseOfPrint(r.intIp);
  }

  lemma ValidateRaws(rules: seq<Rule>)
    requires ValidRules(rules)
    ensures ValidateAll(RawsOf(rules)) == Some(rules)
  {
    forall i | 0 <= i < |rules|
      ensures Validator()(RawsOf(rules)[i]) == Some(rules[i])
    {
      RawIsValid(rules[i]);
    }
    CollectAll(RawsOf(rules), Validator(), rules);
  }

  lemma ReaderIs(d: Dict, i: nat)
    ensures RulesAt()(d, i) == RuleAt(d, i)
  {}

  lemma RuleRead(d: Dict, rules: seq<Rule>, i: nat)
    requires 1 <= i <= |rules|
    ensures RulesAt()(Write(d, true, rules), i) == Some([RawOf(rules[i - 1])])
  {
    ReaderIs(Write(d, true, rules), i);
    WrittenAt(d, rules, i);
  }

  lemma ReadingEnds(d: Dict, rules: seq<Rule>)
    ensures RulesAt()(Write(d, true, rules), |rules| + 1) == None
  {
    ReaderIs(Write(d, true, rules), |rules| + 1);
    WrittenAt(d, rules, |rules| + 1);
  }

  lemma RawsAre(rules: seq<Rule>, raws: seq<RawRule>, w: Dict, at: IndexReader<RawRule>)
    requires StopsWithoutKey(w, MACHINE_PREFIX, at)
    requires |raws| == |rules| && forall i | 0 <= i < |rules| :: raws[i] == RawOf(rules[i])
    requires forall i | 0 <= i < |rules| :: at(w, i + 1) == Some([RawOf(rules[i])])
    requires at(w, |rules| + 1) == None
    ensures Scan(w, MACHINE_PREFIX, 1, at) == raws
  {
    forall i: nat | 1 <= i <= |raws|
      ensures at(w, i) == Some([raws[i - 1]])
    {
      assert at(w, i - 1 + 1) == Some([RawOf(rules[i - 1])]);
    }
    ScanGives(w, MACHINE_PREFIX, at, raws, 1);
    assert raws[0..] == raws;
  }

  lemma ScanOfWrite(d: Dict, rules: seq<Rule>)
    ensures ScanRules(Write(d, true, rules)) == RawsOf(rules)
  {
    var w, at := Write(d, true, rules), RulesAt();
    ReaderStops(w);
    forall i | 0 <= i < |rules|
      ensures at(w, i + 1) == Some([RawOf(rules[i])])
    {
      RuleRead(d, rules, i + 1);
    }
    ReadingEnds(d, rules);
    RawsAre(rules, RawsOf(rules), w, at);
  }

  /** Reading after writing gives an enabled list back in order; a disabled one is forgotten. */
  lemma RoundTrip(d: Dict, rules: seq<Rule>)
    requires ValidRules(rules)
    ensures Read(Write(d, true, rules)) == Some((true, rules))
    ensures Read(Write(d, false, rules)) == Some((false, []))
  {
    ScanOfWrite(d, rules);
    ValidateRaws(rules);
    var w := Write(d, true, rules);
    EnabledIsNoMachine();
    if ENABLED in Entries(rules) {
      EntriesKeys(rules, ENABLED);
    }
    assert w[ENABLED] == "true";
    assert GetOr(Write(d, false, rules), ENABLED, "false") == "false";
    WrittenFlags();
  }

  // ----- the two features do not disturb each other -----

  lemma FirstChars(k: string, prefix: string)
    requires StartsWith(k, prefix) && prefix != ""
    ensures k != "" && k[0] == prefix[0]
  {
    assert k[..|prefix|][0] == k[0];
  }

  lemma PrefixesApart(k: string)
    ensures PortForwarding.IsRuleKey(k) ==> !IsMachineKey(k) && k != ENABLED
  {
    if PortForwarding.IsRuleKey(k) {
      if StartsWith(k, PortForwarding.NAME_PREFIX) {
        FirstChars(k, PortForwarding.NAME_PREFIX);
      } else {
        FirstChars(k, PortForwarding.VALUE_PREFIX);
      }
      if IsMachineKey(k) {
        FirstChars(k, MACHINE_PREFIX);
      }
    }
  }

  /** Reading NAT rules depends on NAT variables only. */
  lemma ReadFrame(d: Dict, d': Dict)
    requires forall k | IsMachineKey(k) || k == ENABLED :: Get(d, k) == Get(d', k)
    ensures Read(d) == Read(d')
  {
    ReaderStops(d);
    ReaderStops(d');
    forall j: nat
      ensures RulesAt()(d, j) == RulesAt()(d', j)
    {
      MachineKeys(j);
      assert Get(d, MachineKey(j)) == Get(d', MachineKey(j));
      assert Get(d, ExtKey(j)) == Get(d', ExtKey(j)) && Get(d, IntKey(j)) == Get(d', IntKey(j));
    }
    ScanSame(d, d', MACHINE_PREFIX, RulesAt(), 1);
    assert Get(d, ENABLED) == Get(d', ENABLED);
  }

  /** Writing port-forwarding rules leaves the NAT configuration as it was. */
  lemma ForwardingKeepsNat(d: Dict, rules: seq<PortForwarding.Rule>)
    requires PortForwarding.ValidRules(rules)
    ensures Read(PortForwarding.Write(d, rules)) == Read(d)
  {
    forall k | IsMachineKey(k) || k == ENABLED
      ensures Get(PortForwarding.Write(d, rules), k) == Get(d, k)
    {
      PrefixesApart(k);
      PortForwarding.WriteTouchesOnlyRules(d, rules, k);
    }
    ReadFrame(PortForwarding.Write(d, rules), d);
  }

  /** And writing NAT rules leaves the port-forwarding rules as they were. */
  lemma NatKeepsForwarding(d: Dict, enabled: bool, rules: seq<Rule>)
    ensures PortForwarding.Read(Write(d, enabled, rules)) == PortForwarding.Read(d)
  {
    var w := Write(d, enabled, rules);
    forall k | PortForwarding.IsRuleKey(k)
      ensures Get(w, k) == Get(d, k)
    {
      PrefixesApart(k);
      WriteTouchesOnlyNat(d, enabled, rules, k);
    }
    PortForwarding.ReadFrame(w, d);
  }
}
