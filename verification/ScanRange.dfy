/** The persisted scan range of a device: one aligned IPv4 block, recomputed from the addresses of
    its endpoints and from the bounds of the block stored before. */
module ScanRange {
  import opened Wrappers
  import opened Blocks
  import Ipv4

  type Address = Ipv4.Address

  const WIDEST_SUBNET_MASK := 21
  const NARROWEST_SUBNET_MASK := 24

  /** A network as stored: its first address and its prefix length. */
  datatype Network = Network(address: nat, prefix: nat)

  /** An aligned block of length /21 to /24 inside the IPv4 space. */
  predicate IsBlock(n: Network) {
    && 21 <= n.prefix <= 24
    && Floor(n.address, 32 - n.prefix) == n.address
    && n.address + Pow2(32 - n.prefix) <= 0x1_0000_0000
  }

  predicate Holds(n: Network, a: nat)
    requires n.prefix <= 32
  {
    Shift(a, 32 - n.prefix) == Shift(n.address, 32 - n.prefix)
  }

  predicate HoldsAll(n: Network, points: seq<Address>)
    requires n.prefix <= 32
  {
    forall p :: p in points ==> Holds(n, p)
  }

  /** First and last address of a stored network. */
  function NetworkBounds(n: Network): (nat, nat)
    requires n.prefix <= 32
  {
    var first := Floor(n.address, 32 - n.prefix);
    (first, first + Pow2(32 - n.prefix) - 1)
  }

  function Min(points: seq<Address>): Address
    requires points != []
  {
    var last := points[|points| - 1];
    if |points| == 1 then last
    else var m := Min(points[..|points| - 1]); if last < m then last else m
  }

  function Max(points: seq<Address>): Address
    requires points != []
  {
    var last := points[|points| - 1];
    if |points| == 1 then last
    else var m := Max(points[..|points| - 1]); if last > m then last else m
  }

  /** The clamped prefix length for a lowest and a highest address. */
  function Mask(lo: Address, hi: Address): nat {
    var natural := 32 - BitLength(Xor(lo, hi));
    var atMost := if natural < NARROWEST_SUBNET_MASK then natural else NARROWEST_SUBNET_MASK;
    if WIDEST_SUBNET_MASK > atMost then WIDEST_SUBNET_MASK else atMost
  }

  function Cover(lo: Address, hi: Address): Network {
    Network(Floor(lo, 32 - Mask(lo, hi)), Mask(lo, hi))
  }

  function CoveringNetwork(points: seq<Address>): Network
    requires points != []
  {
    Cover(Min(points), Max(points))
  }

  // ----- lowest and highest point -----

  lemma {:induction false} MinMaxSpec(points: seq<Address>)
    requires points != []
    ensures Min(points) in points && Max(points) in points
    ensures forall p :: p in points ==> Min(points) <= p <= Max(points)
  {
    if |points| > 1 {
      var front := points[..|points| - 1];
      MinMaxSpec(front);
      assert points == front + [points[|points| - 1]];
    }
  }

  /** Only the set of points matters. */
  lemma SamePoints(a: seq<Address>, b: seq<Address>)
    requires a != [] && b != [] && forall p :: p in a <==> p in b
    ensures Min(a) == Min(b) && Max(a) == Max(b) && CoveringNetwork(a) == CoveringNetwork(b)
  {
    MinMaxSpec(a);
    MinMaxSpec(b);
  }

  // ----- what one block covers -----

  /** Two addresses lie in one block of 2^k addresses. */
  predicate Agree(a: nat, b: nat, k: nat) {
    Shift(a, k) == Shift(b, k)
  }

  function Width(lo: Address, hi: Address): (w: nat)
    ensures 8 <= w <= 11
  {
    32 - Mask(lo, hi)
  }

  /** The block is the smallest on which both ends agree, and is never wider than 2^11. */
  lemma WidthIsLeastAgreement(lo: Address, hi: Address)
    ensures Width(lo, hi) < 11 ==> Agree(lo, hi, Width(lo, hi))
    ensures forall k | 8 <= k < Width(lo, hi) :: !Agree(lo, hi, k)
  {
    forall k: nat | k <= 11
      ensures BitLength(Xor(lo, hi)) <= k <==> Agree(lo, hi, k)
    {
      XorBits(lo, hi, k);
    }
  }

  lemma FloorFits(a: Address, k: nat)
    requires 8 <= k <= 11
    ensures Floor(a, k) + Pow2(k) <= 0x1_0000_0000
  {
    Sizes();
    BlockFits(a, k, 32);
  }

  /** The result is always an aligned block of 256 to 2048 addresses that holds the lowest point. */
  lemma CoveringIsBlock(points: seq<Address>)
    requires points != []
    ensures var n := CoveringNetwork(points);
            IsBlock(n) && Holds(n, Min(points)) && 256 <= Pow2(32 - n.prefix) <= 2048
  {
    CoverIsBlock(Min(points), Max(points));
    Sizes();
  }

  lemma CoverIsBlock(lo: Address, hi: Address)
    ensures IsBlock(Cover(lo, hi)) && Holds(Cover(lo, hi), lo)
  {
    FloorInBlock(lo, Width(lo, hi));
    FloorFits(lo, Width(lo, hi));
  }

  /** Two blocks of one size with a common address are the same. */
  lemma SameBlock(m: Network, n: Network, a: nat)
    requires IsBlock(m) && IsBlock(n) && m.prefix == n.prefix && Holds(m, a) && Holds(n, a)
    ensures m == n
  {
    FloorOfAgreeing(m.address, n.address, 32 - n.prefix);
  }

  lemma CoverHoldsAll(points: seq<Address>)
    requires points != []
    ensures var n := CoveringNetwork(points);
            n.prefix <= 24 && (HoldsAll(n, points) <==> Agree(Min(points), Max(points), 11))
  {
    var lo, hi := Min(points), Max(points);
    var n, k := CoveringNetwork(points), Width(lo, hi);
    MinMaxSpec(points);
    WidthIsLeastAgreement(lo, hi);
    CoverIsBlock(lo, hi);
    if Agree(lo, hi, 11) {
      forall p | p in points
        ensures Holds(n, p)
      {
        Between(lo, p, hi, k);
      }
    } else if HoldsAll(n, points) {
      assert Holds(n, lo) && Holds(n, hi);
      AgreeMore(lo, hi, k, 11);
    }
  }

  lemma NoSmallerBlock(m: Network, lo: Address, hi: Address)
    requires IsBlock(m) && Holds(m, lo) && Holds(m, hi)
    ensures m.prefix <= Mask(lo, hi) && (m.prefix == Mask(lo, hi) ==> m == Cover(lo, hi))
  {
    WidthIsLeastAgreement(lo, hi);
    assert Agree(lo, hi, 32 - m.prefix);
    CoverIsBlock(lo, hi);
    if m.prefix == Mask(lo, hi) {
      SameBlock(m, Cover(lo, hi), lo);
    }
  }

  /** Every point is held exactly when lowest and highest point share their 21 leading bits; the
      result is then the one smallest block that holds them all. */
  lemma CoveringIsSmallest(points: seq<Address>)
    requires points != []
    ensures var n := CoveringNetwork(points);
            && n.prefix <= 24
            && (HoldsAll(n, points) <==> Agree(Min(points), Max(points), 11))
            && (HoldsAll(n, points) ==>
                 forall m | IsBlock(m) && HoldsAll(m, points) ::
                   m.prefix <= n.prefix && (m.prefix == n.prefix ==> m == n))
  {
    CoverHoldsAll(points);
    MinMaxSpec(points);
    forall m | IsBlock(m) && HoldsAll(m, points)
      ensures m.prefix <= CoveringNetwork(points).prefix
      ensures m.prefix == CoveringNetwork(points).prefix ==> m == CoveringNetwork(points)
    {
      NoSmallerBlock(m, Min(points), Max(points));
    }
  }

  // ----- incremental equals batch -----

  function Lower(a: Address, b: Address): Address {
    if a <= b then a else b
  }

  function Higher(a: Address, b: Address): Address {
    if a >= b then a else b
  }

  lemma MinMaxOfConcat(a: seq<Address>, b: seq<Address>)
    requires b != []
    ensures Min(a + b) == if a == [] then Min(b) else Lower(Min(b), Min(a))
    ensures Max(a + b) == if a == [] then Max(b) else Higher(Max(b), Max(a))
  {
    assert forall p :: p in a + b <==> p in a || p in b;
    MinMaxSpec(b);
    MinMaxSpec(a + b);
    if a == [] {
      assert a + b == b;
    } else {
      MinMaxSpec(a);
      assert Min(b) in a + b && Min(a) in a + b && Max(b) in a + b && Max(a) in a + b;
    }
  }

  function First(n: Network): Address
    requires IsBlock(n)
  {
    n.address
  }

  function Last(n: Network): Address
    requires IsBlock(n)
  {
    n.address + Pow2(32 - n.prefix) - 1
  }

  /** The two anchor points of a stored block. */
  function Anchors(n: Network): seq<Address>
    requires IsBlock(n)
  {
    [First(n), Last(n)]
  }

  /** Both ends of the block that covers `a` and `b`, seen after dropping `k` bits: together with
      `a` from the block's width on, apart below it. */
  lemma AnchorsShift(a: Address, b: Address, k: nat)
    requires IsBlock(Cover(a, b))
    ensures k >= Width(a, b) ==> Agree(First(Cover(a, b)), a, k) && Agree(Last(Cover(a, b)), a, k)
    ensures k < Width(a, b) ==> Shift(First(Cover(a, b)), k) < Shift(Last(Cover(a, b)), k)
  {
    var n, w := Cover(a, b), Width(a, b);
    FloorInBlock(a, w);
    assert First(n) == Floor(a, w);
    if k >= w {
      AgreeMore(First(n), a, w, k);
      AgreeMore(Last(n), a, w, k);
    } else {
      EndsDiffer(a, k, w);
    }
  }

  lemma Orders(x: nat, y: nat, k: nat)
    ensures x <= y ==> Shift(x, k) <= Shift(y, k)
    ensures y <= x ==> Shift(y, k) <= Shift(x, k)
  {
    if x <= y {
      ShiftMonotone(x, y, k);
    } else {
      ShiftMonotone(y, x, k);
    }
  }

  lemma LowerHigherShift(x: Address, y: Address, k: nat)
    ensures Shift(Lower(x, y), k) == if Shift(x, k) <= Shift(y, k) then Shift(x, k) else Shift(y, k)
    ensures Shift(Higher(x, y), k) == if Shift(x, k) >= Shift(y, k) then Shift(x, k) else Shift(y, k)
  {
    Orders(x, y, k);
  }

  /** Two pairs of ends that agree after the same shifts, and start alike, have the same block. */
  lemma SameCover(lo: Address, hi: Address, lo': Address, hi': Address, from: nat)
    requires 8 <= from <= 11
    requires forall k | from <= k <= 11 :: Agree(lo, lo', k)
    requires forall k | from <= k < 11 :: Agree(lo, hi, k) <==> Agree(lo', hi', k)
    requires forall k | 8 <= k < from :: !Agree(lo, hi, k) && !Agree(lo', hi', k)
    ensures Cover(lo, hi) == Cover(lo', hi')
  {
    WidthIsLeastAgreement(lo, hi);
    WidthIsLeastAgreement(lo', hi');
    var w, w' := Width(lo, hi), Width(lo', hi');
    assert w == w';
    assert Agree(lo, lo', w);
    FloorOfAgreeing(lo, lo', w);
  }

  /** One shift of the argument below, on the four ends alone. */
  lemma BoundsStandForAt(lo: Address, hi: Address, a: Address, b: Address, first: Address, last: Address, k: nat)
    requires a <= b
    ensures Agree(first, a, k) ==> Agree(Lower(first, lo), Lower(a, lo), k)
    ensures Agree(first, a, k) && Agree(last, a, k) && Agree(a, b, k) ==>
              (Agree(Lower(first, lo), Higher(last, hi), k) <==> Agree(Lower(a, lo), Higher(b, hi), k))
    ensures Shift(first, k) < Shift(last, k) ==> !Agree(Lower(first, lo), Higher(last, hi), k)
    ensures !Agree(a, b, k) ==> !Agree(Lower(a, lo), Higher(b, hi), k)
  {
    LowerHigherShift(first, lo, k);
    LowerHigherShift(last, hi, k);
    LowerHigherShift(a, lo, k);
    LowerHigherShift(b, hi, k);
    Orders(a, b, k);
  }

  /** In any set of points, two points may be replaced by the ends of the block covering them. */
  lemma BoundsStandFor(lo: Address, hi: Address, a: Address, b: Address)
    requires a <= b && IsBlock(Cover(a, b))
    ensures Cover(Lower(First(Cover(a, b)), lo), Higher(Last(Cover(a, b)), hi)) == Cover(Lower(a, lo), Higher(b, hi))
  {
    var first, last, w := First(Cover(a, b)), Last(Cover(a, b)), Width(a, b);
    WidthIsLeastAgreement(a, b);
    forall k | 8 <= k <= 11
      ensures k >= w ==> Agree(Lower(first, lo), Lower(a, lo), k)
      ensures w <= k < 11 ==>
                (Agree(Lower(first, lo), Higher(last, hi), k) <==> Agree(Lower(a, lo), Higher(b, hi), k))
      ensures k < w ==> !Agree(Lower(first, lo), Higher(last, hi), k) && !Agree(Lower(a, lo), Higher(b, hi), k)
    {
      AnchorsShift(a, b, k);
      BoundsStandForAt(lo, hi, a, b, first, last, k);
      if w <= k < 11 {
        AgreeMore(a, b, w, k);
      }
    }
    SameCover(Lower(first, lo), Higher(last, hi), Lower(a, lo), Higher(b, hi), w);
  }

  /** Covering new points together with the bounds of the old covering block gives exactly the
      block covering all the points, clamped blocks included. */
  lemma IncrementalEqualsBatch(older: seq<Address>, newer: seq<Address>)
    requires older != []
    ensures IsBlock(CoveringNetwork(older))
    ensures CoveringNetwork(newer + Anchors(CoveringNetwork(older))) == CoveringNetwork(newer + older)
  {
    var a, b := Min(older), Max(older);
    var n := CoveringNetwork(older);
    MinMaxSpec(older);
    CoverIsBlock(a, b);
    FloorInBlock(a, Width(a, b));
    assert First(n) <= a <= Last(n);
    assert Min(Anchors(n)) == First(n) && Max(Anchors(n)) == Last(n) by {
      MinMaxSpec(Anchors(n));
    }
    MinMaxOfConcat(newer, Anchors(n));
    MinMaxOfConcat(newer, older);
    if newer == [] {
      BoundsStandFor(a, a, a, b);
      assert Lower(a, a) == a && Higher(b, a) == b;
      assert Lower(First(n), a) == First(n) && Higher(Last(n), a) == Last(n);
    } else {
      BoundsStandFor(Min(newer), Max(newer), a, b);
    }
  }

  // ----- the stored range over runs -----

  /** The stored range after one call with the given known points. */
  function Step(stored: Option<Network>, points: seq<Address>): Option<Network>
    requires stored.Some? ==> IsBlock(stored.value)
  {
    var all := match stored
      case Some(n) => points + Anchors(n)
      case None => points;
    if all == [] then None else Some(CoveringNetwork(all))
  }

  /** All points of a run of calls, latest call first. */
  function Seen(calls: seq<seq<Address>>): seq<Address> {
    if calls == [] then [] else calls[|calls| - 1] + Seen(calls[..|calls| - 1])
  }

  function Run(calls: seq<seq<Address>>): (stored: Option<Network>)
    ensures stored.Some? ==> IsBlock(stored.value)
  {
    if calls == [] then None
    else
      var next := Step(Run(calls[..|calls| - 1]), calls[|calls| - 1]);
      assert next.Some? ==> IsBlock(next.value) by {
        StepIsBlock(Run(calls[..|calls| - 1]), calls[|calls| - 1]);
      }
      next
  }

  lemma StepIsBlock(stored: Option<Network>, points: seq<Address>)
    requires stored.Some? ==> IsBlock(stored.value)
    ensures Step(stored, points).Some? ==> IsBlock(Step(stored, points).value)
  {
    var all := if stored.Some? then points + Anchors(stored.value) else points;
    if all != [] {
      CoveringIsBlock(all);
    }
  }

  /** The persisted range is the block covering every address ever seen. */
  lemma {:induction false} RunCoversAllSeen(calls: seq<seq<Address>>)
    ensures Run(calls) == if Seen(calls) == [] then None else Some(CoveringNetwork(Seen(calls)))
  {
    if calls != [] {
      var front, points := calls[..|calls| - 1], calls[|calls| - 1];
      RunCoversAllSeen(front);
      if Seen(front) != [] {
        IncrementalEqualsBatch(Seen(front), points);
        assert Seen(calls) == points + Seen(front);
      } else {
        assert points + Seen(front) == points;
      }
    }
  }

  /** Neither the order nor the batching of the addresses matters. */
  lemma RunIgnoresOrderAndBatching(calls: seq<seq<Address>>, others: seq<seq<Address>>)
    requires forall p :: p in Seen(calls) <==> p in Seen(others)
    ensures Run(calls) == Run(others)
  {
    RunCoversAllSeen(calls);
    RunCoversAllSeen(others);
    assert Seen(others) != [] ==> Seen(others)[0] in Seen(calls);
    if Seen(calls) != [] {
      assert Seen(calls)[0] in Seen(others);
      SamePoints(Seen(calls), Seen(others));
    }
  }

  // ----- how the stored range can change -----

  /** The new lowest point decides between widening and moving. */
  predicate StaysInWidestBlock(n: Network, points: seq<Address>) {
    forall p :: p in points ==> p >= n.address || Agree(p, n.address, 11)
  }

  predicate Contains(outer: Network, inner: Network)
    requires IsBlock(outer) && IsBlock(inner)
  {
    forall a :: First(inner) <= a <= Last(inner) ==> Holds(outer, a)
  }

  predicate Disjoint(m: Network, n: Network)
    requires IsBlock(m) && IsBlock(n)
  {
    forall a :: First(m) <= a <= Last(m) ==> !Holds(n, a)
  }

  function Leading21(n: Network): nat {
    Shift(n.address, 11)
  }

  /** The order in which the stored range can only go down. */
  predicate Below(m: Network, n: Network) {
    Leading21(m) < Leading21(n) || (Leading21(m) == Leading21(n) && m.prefix < n.prefix)
  }

  lemma HoldsIsInterval(n: Network, a: nat)
    requires IsBlock(n)
    ensures Holds(n, a) <==> First(n) <= a <= Last(n)
  {
    BlockIsInterval(n.address, a, 32 - n.prefix);
  }

  /** The code's own comment says a stored range only ever widens. What holds: it contains the old
      range exactly when no new point lies in a lower /21 block, and otherwise it is disjoint from
      it; either way a change goes strictly down. */
  lemma ChangeGoesDown(n: Network, points: seq<Address>)
    requires IsBlock(n)
    ensures var next := Step(Some(n), points);
            && next.Some? && IsBlock(next.value)
            && (Contains(next.value, n) <==> StaysInWidestBlock(n, points))
            && (!StaysInWidestBlock(n, points) ==> Disjoint(next.value, n))
            && (next.value != n ==> Below(next.value, n))
  {
    var all := points + Anchors(n);
    var m := CoveringNetwork(all);
    StepIsBlock(Some(n), points);
    var lo, hi := Min(all), Max(all);
    assert First(n) in all && Last(n) in all;
    MinMaxSpec(all);
    CoverIsBlock(lo, hi);
    HoldsIsInterval(n, First(n));
    FloorInBlock(lo, Width(lo, hi));
    AgreeMore(m.address, lo, Width(lo, hi), 11);
    ShiftMonotone(lo, First(n), 11);
    LowestDecides(n, points);
    if Agree(lo, First(n), 11) {
      SameWidestBlock(n, all);
    } else {
      LowerWidestBlock(n, m, lo);
    }
  }

  lemma LowestDecidesAt(points: seq<Address>, first: Address, last: Address, lo: Address, k: nat)
    requires first <= last && lo in points + [first, last] && forall p :: p in points + [first, last] ==> lo <= p
    ensures (forall p :: p in points ==> p >= first || Agree(p, first, k)) <==> Agree(lo, first, k)
  {
    assert (points + [first, last])[|points|] == first;
    assert first in points + [first, last];
    forall p | p in points
      ensures lo <= p && (p <= first ==> Shift(lo, k) <= Shift(p, k) <= Shift(first, k))
    {
      assert p in points + [first, last];
      if p <= first {
        ShiftMonotone(lo, p, k);
        ShiftMonotone(p, first, k);
      }
    }
    if forall p :: p in points ==> p >= first || Agree(p, first, k) {
      assert lo in points || lo == first || lo == last;
    }
  }

  lemma LowestDecides(n: Network, points: seq<Address>)
    requires IsBlock(n)
    ensures StaysInWidestBlock(n, points) <==> Agree(Min(points + Anchors(n)), First(n), 11)
  {
    MinMaxSpec(points + Anchors(n));
    FloorInBlock(n.address, 32 - n.prefix);
    LowestDecidesAt(points, First(n), Last(n), Min(points + Anchors(n)), 11);
  }

  lemma SameWidestBlock(n: Network, all: seq<Address>)
    requires IsBlock(n) && First(n) in all && Last(n) in all
    requires Agree(Min(all), First(n), 11)
    ensures var m := CoveringNetwork(all);
            IsBlock(m) && Contains(m, n) && m.prefix <= n.prefix && (m.prefix == n.prefix ==> m == n)
  {
    MinMaxSpec(all);
    HoldsIsInterval(n, First(n));
    HoldsIsInterval(n, Last(n));
    WidensTo(n, Min(all), Max(all));
  }

  lemma WidensTo(n: Network, lo: Address, hi: Address)
    requires IsBlock(n) && lo <= First(n) <= Last(n) <= hi && Agree(lo, First(n), 11)
    ensures var m := Cover(lo, hi);
            IsBlock(m) && Contains(m, n) && m.prefix <= n.prefix && (m.prefix == n.prefix ==> m == n)
  {
    var m, w := Cover(lo, hi), Width(lo, hi);
    CoverIsBlock(lo, hi);
    EndsAgree(n, lo, hi, 11);
    forall a | First(n) <= a <= Last(n)
      ensures Holds(m, a)
    {
      Between(First(n), a, Last(n), w);
    }
    WidthOrder(n, w);
    HoldsIsInterval(n, First(n));
    if m.prefix == n.prefix {
      SameBlock(m, n, First(n));
    }
  }

  lemma EndsAgreeAt(first: Address, last: Address, lo: Address, hi: Address, k: nat)
    requires lo <= first <= last <= hi && k == 11 && Agree(lo, first, k) && Agree(first, last, k)
    ensures Agree(first, lo, Width(lo, hi)) && Agree(last, lo, Width(lo, hi))
  {
    WidthIsLeastAgreement(lo, hi);
    if Width(lo, hi) < k {
      Between(lo, first, hi, Width(lo, hi));
      Between(lo, last, hi, Width(lo, hi));
    }
  }

  lemma EndsOfBlockAgree(n: Network, k: nat)
    requires IsBlock(n) && k >= 32 - n.prefix
    ensures Agree(First(n), Last(n), k)
  {
    EndsStayTogether(n.address, 32 - n.prefix, k);
  }

  lemma EndsStayTogether(a: nat, w: nat, k: nat)
    requires w <= k && Floor(a, w) == a
    ensures Agree(a, a + Pow2(w) - 1, k)
  {
    EndsInBlock(a, w);
    AgreeMore(a, a + Pow2(w) - 1, w, k);
  }

  /** Both ends of the stored block fall into the block covering all points. */
  lemma EndsAgree(n: Network, lo: Address, hi: Address, k: nat)
    requires IsBlock(n) && lo <= First(n) <= Last(n) <= hi && k == 11 && Agree(lo, First(n), k)
    ensures Agree(First(n), lo, Width(lo, hi)) && Agree(Last(n), lo, Width(lo, hi))
  {
    EndsOfBlockAgree(n, k);
    EndsAgreeAt(First(n), Last(n), lo, hi, k);
  }

  lemma NarrowerDiffers(a: nat, k: nat, w: nat)
    requires Agree(Floor(a, k), Floor(a, k) + Pow2(k) - 1, w)
    ensures k <= w
  {
    if w < k {
      EndsDiffer(a, w, k);
    }
  }

  lemma WidthOrder(n: Network, w: nat)
    requires IsBlock(n) && Agree(First(n), Last(n), w)
    ensures 32 - n.prefix <= w
  {
    NarrowerDiffers(n.address, 32 - n.prefix, w);
  }

  lemma LowerWidestBlock(n: Network, m: Network, lo: Address)
    requires IsBlock(n) && IsBlock(m) && Holds(m, lo)
    requires Shift(lo, 11) < Shift(First(n), 11)
    ensures Disjoint(m, n) && !Contains(m, n) && Leading21(m) < Leading21(n)
  {
    FloorInBlock(n.address, 32 - n.prefix);
    AgreeMore(First(n), n.address, 32 - n.prefix, 11);
    AgreeMore(lo, m.address, 32 - m.prefix, 11);
    forall a | Holds(n, a)
      ensures !Holds(m, a)
    {
      AgreeMore(a, n.address, 32 - n.prefix, 11);
      if Holds(m, a) {
        AgreeMore(a, m.address, 32 - m.prefix, 11);
      }
    }
    forall a | First(m) <= a <= Last(m)
      ensures !Holds(n, a)
    {
      HoldsIsInterval(m, a);
    }
    HoldsIsInterval(n, First(n));
    assert First(n) <= First(n) <= Last(n) && !Holds(m, First(n));
  }

  /** The widening promise fails: one address below the old /21 moves the range away from it. */
  lemma WideningCanFail()
    ensures var n := Network(0x0A00_0800, 24);
            var next := Step(Some(n), [0x0A00_0001]);
            IsBlock(n) && next.Some? && IsBlock(next.value) && !Contains(next.value, n)
  {
    var n := Network(0x0A00_0800, 24);
    assert Shift(n.address, 8) == 0x0A_0008;
    Sizes();
    assert Shift(0x0A00_0001, 11) == 0x1_4000 && Shift(n.address, 11) == 0x1_4001;
    ChangeGoesDown(n, [0x0A00_0001]);
    assert 0x0A00_0001 in [0x0A00_0001];
  }

  /** Calling again with the same addresses changes nothing. */
  lemma StableAfterOneCall(stored: Option<Network>, points: seq<Address>)
    requires stored.Some? ==> IsBlock(stored.value)
    ensures var once := Step(stored, points);
            (once.Some? ==> IsBlock(once.value)) && Step(once, points) == once
  {
    var all := if stored.Some? then points + Anchors(stored.value) else points;
    if all != [] {
      IncrementalEqualsBatch(all, points);
      assert forall p :: p in points + all <==> p in all;
      SamePoints(points + all, all);
    }
  }

  /** A bound on how often the stored range can still change. */
  function ChangesLeft(stored: Option<Network>): nat {
    match stored
    case None => 0x80_0000
    case Some(n) => 4 * Leading21(n) + if n.prefix > 21 then n.prefix - 21 else 0
  }

  function Changes(stored: Option<Network>, calls: seq<seq<Address>>): nat
    requires stored.Some? ==> IsBlock(stored.value)
    decreases |calls|
  {
    if calls == [] then 0
    else
      var next := Step(stored, calls[0]);
      assert next.Some? ==> IsBlock(next.value) by {
        StepIsBlock(stored, calls[0]);
      }
      (if next != stored then 1 else 0) + Changes(next, calls[1..])
  }

  lemma Leading21Fits(n: Network)
    requires IsBlock(n)
    ensures Leading21(n) < 0x20_0000
  {
    Sizes();
    BlockFits(n.address, 11, 32);
  }

  /** The range changes finitely often, however many calls follow. */
  lemma {:induction false} FinitelyManyChanges(stored: Option<Network>, calls: seq<seq<Address>>)
    requires stored.Some? ==> IsBlock(stored.value)
    ensures Changes(stored, calls) <= ChangesLeft(stored)
    decreases |calls|
  {
    if calls != [] {
      var next := Step(stored, calls[0]);
      StepIsBlock(stored, calls[0]);
      FinitelyManyChanges(next, calls[1..]);
      if next.Some? {
        Leading21Fits(next.value);
      }
      if stored.Some? {
        ChangeGoesDown(stored.value, calls[0]);
      }
    }
  }

  // ----- the handler -----

  /** The addresses among a list of texts, in order; other texts are skipped. */
  function Parsed(texts: seq<string>): seq<Address> {
    if texts == [] then []
    else
      var front := Parsed(texts[..|texts| - 1]);
      match Ipv4.Parse(texts[|texts| - 1])
      case Some(a) => front + [a]
      case None => front
  }

  lemma {:induction false} ParsedSpec(texts: seq<string>, a: Address)
    ensures a in Parsed(texts) <==> exists t :: t in texts && Ipv4.Parse(t) == Some(a)
  {
    if texts != [] {
      var front, last := texts[..|texts| - 1], texts[|texts| - 1];
      ParsedSpec(front, a);
      assert texts == front + [last];
    }
  }

  /** The stored range after a run of calls, each with the texts it was given. */
  function RunTexts(calls: seq<seq<string>>): (stored: Option<Network>)
    ensures stored.Some? ==> IsBlock(stored.value)
  {
    if calls == [] then None
    else
      var before := RunTexts(calls[..|calls| - 1]);
      var next := Step(before, Parsed(calls[|calls| - 1]));
      assert next.Some? ==> IsBlock(next.value) by {
        StepIsBlock(before, Parsed(calls[|calls| - 1]));
      }
      next
  }

  /** Some text of some call is this address. */
  ghost predicate Given(calls: seq<seq<string>>, a: Address) {
    exists texts, t :: texts in calls && t in texts && Ipv4.Parse(t) == Some(a)
  }

  function ParsedCalls(calls: seq<seq<string>>): seq<seq<Address>> {
    if calls == [] then [] else ParsedCalls(calls[..|calls| - 1]) + [Parsed(calls[|calls| - 1])]
  }

  lemma {:induction false} TextsAreCalls(calls: seq<seq<string>>, a: Address)
    ensures RunTexts(calls) == Run(ParsedCalls(calls))
    ensures a in Seen(ParsedCalls(calls)) <==> Given(calls, a)
  {
    if calls != [] {
      var front, last := calls[..|calls| - 1], calls[|calls| - 1];
      TextsAreCalls(front, a);
      ParsedSpec(last, a);
      GivenMore(calls, a);
      assert ParsedCalls(calls)[..|ParsedCalls(front)|] == ParsedCalls(front);
    }
  }

  lemma GivenMore(calls: seq<seq<string>>, a: Address)
    requires calls != []
    ensures Given(calls, a) <==>
            Given(calls[..|calls| - 1], a) || exists t :: t in calls[|calls| - 1] && Ipv4.Parse(t) == Some(a)
  {
    assert calls == calls[..|calls| - 1] + [calls[|calls| - 1]];
  }

  /** Whatever unreadable texts stand among them, the stored range after any run of calls is the block
      covering the addresses of all readable ones ever given. */
  lemma RunCoversAllTexts(calls: seq<seq<string>>, given: seq<Address>)
    requires forall a :: a in given <==> Given(calls, a)
    ensures RunTexts(calls) == if given == [] then None else Some(CoveringNetwork(given))
  {
    var points := Seen(ParsedCalls(calls));
    forall a
      ensures a in points <==> a in given
    {
      TextsAreCalls(calls, a);
    }
    TextsAreCalls(calls, 0);
    RunCoversAllSeen(ParsedCalls(calls));
    assert points != [] ==> points[0] in given;
    assert given != [] ==> given[0] in points;
    if points != [] {
      SamePoints(points, given);
    }
  }

  /** So two runs that were given texts of the same addresses store the same range. */
  lemma TextRunsAgree(calls: seq<seq<string>>, others: seq<seq<string>>)
    requires forall a :: Given(calls, a) <==> Given(others, a)
    ensures RunTexts(calls) == RunTexts(others)
  {
    forall a
      ensures a in Seen(ParsedCalls(calls)) <==> a in Seen(ParsedCalls(others))
    {
      TextsAreCalls(calls, a);
      TextsAreCalls(others, a);
    }
    TextsAreCalls(calls, 0);
    TextsAreCalls(others, 0);
    RunIgnoresOrderAndBatching(ParsedCalls(calls), ParsedCalls(others));
  }

  /** The stored range of one device. */
  class DeviceNetworkRange {
    var stored: Option<Network>
    var writes: nat

    ghost predicate Valid()
      reads this
    {
      stored.Some? ==> IsBlock(stored.value)
    }

    constructor ()
      ensures Valid() && stored == None && writes == 0
    {
      stored, writes := None, 0;
    }

    method SetRange(n: Network)
      modifies this
      ensures stored == Some(n) && writes == old(writes) + 1
    {
      stored, writes := Some(n), writes + 1;
    }

    /** Recomputes the range from the known addresses and the stored range; writes it back only
        when it differs. */
    method GetNetworkScanRange(knownIps: seq<string>) returns (range: Option<Network>)
      requires Valid()
      modifies this
      ensures Valid()
      ensures stored == Step(old(stored), Parsed(knownIps)) && range == stored
      ensures writes == old(writes) + if stored == old(stored) then 0 else 1
    {
      var points: seq<Address> := [];
      for i := 0 to |knownIps|
        invariant points == Parsed(knownIps[..i])
        invariant stored == old(stored) && writes == old(writes)
      {
        assert knownIps[..i + 1][..i] == knownIps[..i];
        var parsed := Ipv4.Parse(knownIps[i]);
        if parsed.None? {
          continue;
        }
        points := points + [parsed.value];
      }
      assert knownIps[..|knownIps|] == knownIps;
      StepIsBlock(stored, points);
      if stored.Some? {
        var (first, last) := NetworkBounds(stored.value);
        points := points + [first, last];
      }
      range := None;
      if points != [] {
        var n := CoveringNetwork(points);
        range := Some(n);
        if stored.None? || stored.value != n {
          SetRange(n);
        }
      }
    }
  }
}
