/** Dotted-quad text of IPv4 addresses as Python's `ipaddress` reads and prints it: four ASCII
    octets of at most three digits, no leading zero, each at most 255. */
module Ipv4 {
  import opened Wrappers
  import Decimal

  type Address = a: int | 0 <= a < 0x1_0000_0000

  function Print(a: Address): string {
    JoinDots([Decimal.Print(a / 0x100_0000), Decimal.Print(a / 0x1_0000 % 0x100),
              Decimal.Print(a / 0x100 % 0x100), Decimal.Print(a % 0x100)])
  }

  /** One octet of the text, or None where the library raises. */
  function ParseOctet(s: string): (octet: Option<nat>)
    ensures octet.Some? ==> octet.value <= 255
  {
    if s == [] || !Decimal.AllDigits(s) || |s| > 3 || (|s| > 1 && s[0] == '0') then None
    else if Decimal.Value(s) > 255 then None
    else Some(Decimal.Value(s))
  }

  predicate NotDot(c: char) {
    c != '.'
  }

  /** `s.split('.')`. */
  function SplitDots(s: string): (parts: seq<string>)
    ensures |parts| >= 1
    decreases |s|
  {
    var n := Decimal.Span(s, NotDot);
    if n == |s| then [s] else [s[..n]] + SplitDots(s[n + 1..])
  }

  function JoinDots(parts: seq<string>): string
    requires |parts| >= 1
  {
    if |parts| == 1 then parts[0] else parts[0] + "." + JoinDots(parts[1..])
  }

  function FromOctets(a: nat, b: nat, c: nat, d: nat): Address
    requires a <= 255 && b <= 255 && c <= 255 && d <= 255
  {
    a * 0x100_0000 + b * 0x1_0000 + c * 0x100 + d
  }

  function Parse(s: string): Option<Address> {
    var parts := SplitDots(s);
    if |parts| != 4 then None
    else match (ParseOctet(parts[0]), ParseOctet(parts[1]), ParseOctet(parts[2]), ParseOctet(parts[3]))
      case (Some(a), Some(b), Some(c), Some(d)) =>
        Some(FromOctets(a, b, c, d))
      case _ => None
  }

  lemma {:induction false} OctetRoundTrip(n: nat)
    requires n <= 255
    ensures ParseOctet(Decimal.Print(n)) == Some(n)
    ensures forall i :: 0 <= i < |Decimal.Print(n)| ==> NotDot(Decimal.Print(n)[i])
  {
    Decimal.ValueOfPrint(n);
    var s := Decimal.Print(n);
    if n >= 10 {
      assert s == Decimal.Print(n / 10) + [Decimal.DigitChar(n % 10)];
      if n >= 100 {
        assert Decimal.Print(n / 10) == Decimal.Print(n / 100) + [Decimal.DigitChar(n / 10 % 10)];
      }
    }
  }

  lemma SplitAtDot(head: string, rest: string)
    requires forall i :: 0 <= i < |head| ==> NotDot(head[i])
    ensures SplitDots(head + "." + rest) == [head] + SplitDots(rest)
  {
    var s := head + "." + rest;
    assert s == head + ("." + rest);
    Decimal.SpanOfAppend(head, "." + rest, NotDot);
    assert s[..|head|] == head && s[|head| + 1..] == rest;
  }

  lemma NoDotToSplit(s: string)
    requires forall i :: 0 <= i < |s| ==> NotDot(s[i])
    ensures SplitDots(s) == [s]
  {
    assert s + "" == s;
    Decimal.SpanOfAppend(s, "", NotDot);
  }

  lemma {:induction false} SplitOfJoin(parts: seq<string>)
    requires |parts| >= 1
    requires forall p, i :: p in parts && 0 <= i < |p| ==> NotDot(p[i])
    ensures SplitDots(JoinDots(parts)) == parts
  {
    if |parts| == 1 {
      NoDotToSplit(parts[0]);
    } else {
      SplitOfJoin(parts[1..]);
      SplitAtDot(parts[0], JoinDots(parts[1..]));
    }
  }

  lemma OctetsOf(a: Address)
    ensures var o0, o1, o2, o3 := a / 0x100_0000, a / 0x1_0000 % 0x100, a / 0x100 % 0x100, a % 0x100;
            o0 <= 255 && FromOctets(o0, o1, o2, o3) == a
  {
    var b, c := a / 0x100, a / 0x1_0000;
    assert c == b / 0x100 && a / 0x100_0000 == c / 0x100;
    assert a == b * 0x100 + a % 0x100 && b == c * 0x100 + b % 0x100;
    assert c == c / 0x100 * 0x100 + c % 0x100;
  }

  /** Printing an address and reading it back gives the same address. */
  lemma ParseOfPrint(a: Address)
    ensures Parse(Print(a)) == Some(a)
  {
    var o0, o1, o2, o3 := a / 0x100_0000, a / 0x1_0000 % 0x100, a / 0x100 % 0x100, a % 0x100;
    OctetsOf(a);
    OctetRoundTrip(o0);
    OctetRoundTrip(o1);
    OctetRoundTrip(o2);
    OctetRoundTrip(o3);
    SplitOfJoin([Decimal.Print(o0), Decimal.Print(o1), Decimal.Print(o2), Decimal.Print(o3)]);
  }

  lemma JoinOneMore(head: string, rest: seq<string>)
    requires |rest| >= 1
    ensures JoinDots([head] + rest) == head + "." + JoinDots(rest)
  {
    assert ([head] + rest)[1..] == rest;
  }

  lemma DotAt(s: string, n: nat)
    requires n < |s| && s[n] == '.'
    ensures s == s[..n] + "." + s[n + 1..]
  {}

  lemma {:induction false} JoinOfSplit(s: string)
    ensures JoinDots(SplitDots(s)) == s
    decreases |s|
  {
    var n := Decimal.Span(s, NotDot);
    if n < |s| {
      JoinOfSplit(s[n + 1..]);
      JoinOneMore(s[..n], SplitDots(s[n + 1..]));
      DotAt(s, n);
    }
  }

  lemma OctetIsCanonical(s: string)
    requires ParseOctet(s).Some?
    ensures Decimal.Print(ParseOctet(s).value) == s
  {
    Decimal.PrintOfValue(s);
  }

  lemma OctetsBack(a: nat, b: nat, c: nat, d: nat)
    requires a <= 255 && b <= 255 && c <= 255 && d <= 255
    ensures var x := FromOctets(a, b, c, d);
            x / 0x100_0000 == a && x / 0x1_0000 % 0x100 == b && x / 0x100 % 0x100 == c && x % 0x100 == d
  {
    var x := FromOctets(a, b, c, d);
    assert x / 0x1_0000 == a * 0x100 + b;
    assert x / 0x100 == (a * 0x100 + b) * 0x100 + c;
  }

  /** Accepted text is the only text of its address, so comparing address texts and comparing
      addresses are the same thing. */
  lemma PrintOfParse(s: string)
    requires Parse(s).Some?
    ensures Print(Parse(s).value) == s
  {
    var parts := SplitDots(s);
    JoinOfSplit(s);
    OctetIsCanonical(parts[0]);
    OctetIsCanonical(parts[1]);
    OctetIsCanonical(parts[2]);
    OctetIsCanonical(parts[3]);
    OctetsBack(Decimal.Value(parts[0]), Decimal.Value(parts[1]), Decimal.Value(parts[2]), Decimal.Value(parts[3]));
    assert parts == [parts[0], parts[1], parts[2], parts[3]];
  }
}
