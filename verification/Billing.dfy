/** Pricing of metered bandwidth in the smallest Qi unit (grid/metrics.rs). */
module Billing {
  import opened Prelude

  const QI: nat := 1_000_000_000_000_000_000
  const MICRO_QI: nat := 1_000_000_000_000
  const MIN_BILLABLE_QI: nat := 1_000_000_000_000
  const BYTES_PER_GB: nat := 1_073_741_824
  const RATE_PER_BYTE: nat := 931_322_574

  function Max(a: nat, b: nat): nat { if a < b then b else a }

  /** Round up to a multiple of MIN_BILLABLE_QI. */
  function RoundUp(raw: nat): nat {
    ((raw + MIN_BILLABLE_QI - 1) / MIN_BILLABLE_QI) * MIN_BILLABLE_QI
  }

  function BandwidthCost(bytes: nat, hops: nat): nat {
    if bytes > 0 then Max(RoundUp(bytes * RATE_PER_BYTE * hops), MIN_BILLABLE_QI * hops) else 0
  }

  function CostUnits(handshakes: nat, bytes: nat, hops: nat): nat {
    handshakes * MIN_BILLABLE_QI + BandwidthCost(bytes, hops)
  }

  /** The constants as the source derives them: the rate is a truncated quotient, so a gigabyte falls short of one Qi.
      */
  lemma DenominationConstants()
    ensures MICRO_QI == QI / 1_000_000 == MIN_BILLABLE_QI
    ensures BYTES_PER_GB == 1024 * 1024 * 1024 && RATE_PER_BYTE == QI / (1024 * 1024 * 1024)
    ensures BYTES_PER_GB * RATE_PER_BYTE == QI - 660865024
  {
  }

  /** RoundUp(raw) is the least multiple of the minimum that is at least `raw`. */
  lemma RoundUpIsLeastMultiple(raw: nat)
    ensures raw <= RoundUp(raw) < raw + MIN_BILLABLE_QI
    ensures RoundUp(raw) % MIN_BILLABLE_QI == 0
    ensures forall k: nat :: raw <= k * MIN_BILLABLE_QI ==> RoundUp(raw) <= k * MIN_BILLABLE_QI
  {
  }

  lemma ProductMonotone(a: nat, b: nat, c: nat, d: nat)
    requires a <= c && b <= d
    ensures a * b <= c * d
  {
  }

  lemma RawCost(bytes: nat, hops: nat)
    ensures bytes * RATE_PER_BYTE * hops == (bytes * hops) * RATE_PER_BYTE
  {
  }

  /** Distance from the ideal price bytes * hops * QI / 2^30, cleared of the division. */
  lemma CostNearIdeal(bytes: nat, hops: nat)
    requires 0 < bytes && 0 < hops
    ensures (bytes * hops) * QI - BandwidthCost(bytes, hops) * BYTES_PER_GB < (bytes * hops) * BYTES_PER_GB
    ensures BandwidthCost(bytes, hops) > MIN_BILLABLE_QI * hops ==>
      BandwidthCost(bytes, hops) * BYTES_PER_GB - (bytes * hops) * QI < MIN_BILLABLE_QI * BYTES_PER_GB
    ensures MIN_BILLABLE_QI * hops <= BandwidthCost(bytes, hops)
  {
  }

  /** Whole gigabytes are priced exactly, and only as long as the truncation error stays below one minimum. */
  lemma WholeGigabytesExactIff(gigabytes: nat, hops: nat)
    ensures BandwidthCost(gigabytes * BYTES_PER_GB, hops) == gigabytes * hops * QI <==> gigabytes * hops <= 1513
  {
    var n := gigabytes * hops;
    RawCost(gigabytes * BYTES_PER_GB, hops);
    assert gigabytes * BYTES_PER_GB * hops == n * BYTES_PER_GB;
    var raw := n * (QI - 660865024);
    assert (gigabytes * BYTES_PER_GB * hops) * RATE_PER_BYTE == raw;
    RoundUpIsLeastMultiple(raw);
    if 0 < gigabytes {
      ProductMonotone(1, hops, gigabytes, hops);
      assert hops <= n;
      var exact := n * 1_000_000;
      assert n * QI == exact * MIN_BILLABLE_QI;
      if n <= 1513 {
        assert RoundUp(raw) <= n * QI;
        assert n * QI - MIN_BILLABLE_QI < raw;
        WithinOneMultiple(RoundUp(raw), exact);
      } else {
        var below := exact - 1;
        assert raw <= below * MIN_BILLABLE_QI;
        assert RoundUp(raw) < n * QI;
      }
    }
  }

  lemma WithinOneMultiple(c: nat, k: nat)
    requires c % MIN_BILLABLE_QI == 0 && k * MIN_BILLABLE_QI - MIN_BILLABLE_QI < c <= k * MIN_BILLABLE_QI
    ensures c == k * MIN_BILLABLE_QI
  {
  }

  /** What the comment on the function takes the bandwidth cost to be. */
  function CommentedCost(bytes: nat, hops: nat): nat { Max(MIN_BILLABLE_QI, bytes * RATE_PER_BYTE) * hops }

  lemma MultipleIsItsRoundUp(raw: nat)
    ensures RoundUp(raw) == raw <==> raw % MIN_BILLABLE_QI == 0
  {
  }

  /** The code agrees with the comment if and only if the bytes cost no more than the minimum, or the whole raw cost is
      a multiple of it: the code rounds once, over all hops. */
  lemma CommentHoldsIff(bytes: nat, hops: nat)
    requires bytes > 0 && hops > 0
    ensures BandwidthCost(bytes, hops) == CommentedCost(bytes, hops)
       <==> bytes * RATE_PER_BYTE <= MIN_BILLABLE_QI || bytes * RATE_PER_BYTE * hops % MIN_BILLABLE_QI == 0
  {
    var first := bytes * RATE_PER_BYTE;
    var raw, floor := first * hops, MIN_BILLABLE_QI * hops;
    RoundUpIsLeastMultiple(raw);
    if first <= MIN_BILLABLE_QI {
      ProductMonotone(first, hops, MIN_BILLABLE_QI, hops);
      assert raw <= hops * MIN_BILLABLE_QI;
      assert CommentedCost(bytes, hops) == floor;
    } else {
      ProductMonotone(MIN_BILLABLE_QI, hops, first, hops);
      MultipleIsItsRoundUp(raw);
      assert BandwidthCost(bytes, hops) == RoundUp(raw) && CommentedCost(bytes, hops) == raw;
    }
  }

  /** One gigabyte over one hop costs more than the comment says. */
  lemma CommentFailsForAGigabyte()
    ensures BandwidthCost(BYTES_PER_GB, 1) == CommentedCost(BYTES_PER_GB, 1) + 660865024
  {
  }

  /** Every bill is a whole number of minimum denominations. */
  lemma CostIsMultiple(handshakes: nat, bytes: nat, hops: nat)
    ensures CostUnits(handshakes, bytes, hops) % MIN_BILLABLE_QI == 0
  {
    var raw := bytes * RATE_PER_BYTE * hops;
    var units := if bytes > 0 then Max((raw + MIN_BILLABLE_QI - 1) / MIN_BILLABLE_QI, hops) else 0;
    assert BandwidthCost(bytes, hops) == units * MIN_BILLABLE_QI;
    MultipleHasNoRemainder(CostUnits(handshakes, bytes, hops), handshakes + units);
  }

  lemma MultipleHasNoRemainder(c: nat, k: nat)
    requires c == k * MIN_BILLABLE_QI
    ensures c % MIN_BILLABLE_QI == 0
  {
  }

  lemma RoundUpMonotone(a: nat, b: nat)
    requires a <= b
    ensures RoundUp(a) <= RoundUp(b)
  {
  }

  /** More bytes or hops never cost less, and every handshake costs one minimum on top. */
  lemma CostMonotone(handshakes: nat, bytes: nat, hops: nat, handshakes': nat, bytes': nat, hops': nat)
    requires handshakes <= handshakes' && bytes <= bytes' && hops <= hops'
    ensures CostUnits(handshakes, bytes, hops) + (handshakes' - handshakes) * MIN_BILLABLE_QI
         <= CostUnits(handshakes', bytes', hops')
  {
    if bytes > 0 {
      ProductMonotone(bytes, hops, bytes', hops');
      RawCost(bytes, hops);
      RawCost(bytes', hops');
      RoundUpMonotone((bytes * hops) * RATE_PER_BYTE, (bytes' * hops') * RATE_PER_BYTE);
    }
  }

  lemma RoundUpOfSum(a: nat, b: nat)
    ensures RoundUp(a + b) <= RoundUp(a) + RoundUp(b) <= RoundUp(a + b) + MIN_BILLABLE_QI
  {
  }

  lemma CostForm(bytes: nat, hops: nat)
    ensures bytes > 0 ==>
      BandwidthCost(bytes, hops) == Max(RoundUp((bytes * hops) * RATE_PER_BYTE), MIN_BILLABLE_QI * hops)
  {
    RawCost(bytes, hops);
  }

  lemma FloorWithinSurcharge(hops: nat)
    ensures MIN_BILLABLE_QI * hops <= Max(1, hops) * MIN_BILLABLE_QI
    ensures MIN_BILLABLE_QI <= Max(1, hops) * MIN_BILLABLE_QI
  {
    ProductMonotone(1, MIN_BILLABLE_QI, Max(1, hops), MIN_BILLABLE_QI);
  }

  /** Splitting under a floor: `whole` is at most the sum of the parts and short of it by at most `slack`. */
  lemma SplittingUnderFloor(part1: nat, part2: nat, whole: nat, floor: nat, slack: nat)
    requires part1 <= whole && part2 <= whole && whole <= part1 + part2 <= whole + slack && floor <= slack
    ensures Max(whole, floor) <= Max(part1, floor) + Max(part2, floor) <= Max(whole, floor) + slack
  {
  }

  lemma ProductOfSum(a: nat, b: nat, c: nat)
    ensures (a + b) * c == a * c + b * c
  {
  }

  lemma SplittingProducts(n1: nat, n2: nat, floor: nat, slack: nat)
    requires floor <= slack && MIN_BILLABLE_QI <= slack
    ensures var c1, c2 := RoundUp(n1 * RATE_PER_BYTE), RoundUp(n2 * RATE_PER_BYTE);
      var c := RoundUp((n1 + n2) * RATE_PER_BYTE);
      Max(c, floor) <= Max(c1, floor) + Max(c2, floor) <= Max(c, floor) + slack
  {
    var a, b := n1 * RATE_PER_BYTE, n2 * RATE_PER_BYTE;
    RoundUpOfSum(a, b);
    RoundUpMonotone(a, a + b);
    RoundUpMonotone(b, a + b);
    SplittingUnderFloor(RoundUp(a), RoundUp(b), RoundUp(a + b), floor, slack);
  }

  lemma SplittingBandwidth(bytes1: nat, bytes2: nat, hops: nat)
    ensures BandwidthCost(bytes1 + bytes2, hops)
              <= BandwidthCost(bytes1, hops) + BandwidthCost(bytes2, hops)
              <= BandwidthCost(bytes1 + bytes2, hops) + Max(1, hops) * MIN_BILLABLE_QI
  {
    FloorWithinSurcharge(hops);
    if bytes1 > 0 && bytes2 > 0 {
      ProductOfSum(bytes1, bytes2, hops);
      CostOfProduct(bytes1, hops, bytes1 * hops);
      CostOfProduct(bytes2, hops, bytes2 * hops);
      CostOfProduct(bytes1 + bytes2, hops, bytes1 * hops + bytes2 * hops);
      SplittingProducts(bytes1 * hops, bytes2 * hops, MIN_BILLABLE_QI * hops, Max(1, hops) * MIN_BILLABLE_QI);
    }
  }

  lemma CostOfProduct(bytes: nat, hops: nat, product: nat)
    requires bytes > 0 && product == bytes * hops
    ensures BandwidthCost(bytes, hops) == Max(RoundUp(product * RATE_PER_BYTE), MIN_BILLABLE_QI * hops)
  {
    CostForm(bytes, hops);
  }

  /** Splitting a bill into two never pays, and costs at most one minimum per hop more. */
  lemma SplittingBills(handshakes1: nat, bytes1: nat, handshakes2: nat, bytes2: nat, hops: nat)
    ensures CostUnits(handshakes1 + handshakes2, bytes1 + bytes2, hops)
              <= CostUnits(handshakes1, bytes1, hops) + CostUnits(handshakes2, bytes2, hops)
              <= CostUnits(handshakes1 + handshakes2, bytes1 + bytes2, hops) + Max(1, hops) * MIN_BILLABLE_QI
  {
    SplittingBandwidth(bytes1, bytes2, hops);
  }

  /** Every intermediate value of the u64 computation, in the order it is formed. */
  function Intermediates(handshakes: nat, bytes: nat, hops: nat): seq<nat> {
    var handshakeCost := handshakes * MIN_BILLABLE_QI;
    if bytes > 0 then
      var raw := bytes * RATE_PER_BYTE * hops;
      [handshakeCost, bytes * RATE_PER_BYTE, raw, raw + MIN_BILLABLE_QI, raw + MIN_BILLABLE_QI - 1, RoundUp(raw),
       MIN_BILLABLE_QI * hops, CostUnits(handshakes, bytes, hops)]
    else
      [handshakeCost, CostUnits(handshakes, bytes, hops)]
  }

  ghost predicate AllFit(handshakes: nat, bytes: nat, hops: nat) {
    forall x :: x in Intermediates(handshakes, bytes, hops) ==> x < TWO_TO_64
  }

  lemma BoundedBillsFit(handshakes: nat, n: nat, hops: nat)
    requires n <= 18 * BYTES_PER_GB && hops <= 18_000_000 && handshakes <= 400_000
    ensures var raw := n * RATE_PER_BYTE; var c := Max(RoundUp(raw), MIN_BILLABLE_QI * hops);
      && raw + MIN_BILLABLE_QI < TWO_TO_64 && RoundUp(raw) < TWO_TO_64 && MIN_BILLABLE_QI * hops < TWO_TO_64
      && handshakes * MIN_BILLABLE_QI <= handshakes * MIN_BILLABLE_QI + c < TWO_TO_64
  {
    RoundUpIsLeastMultiple(n * RATE_PER_BYTE);
  }

  lemma EightBelow(a: nat, b: nat, c: nat, d: nat, e: nat, f: nat, g: nat, h: nat, bound: nat)
    ensures (forall x :: x in [a, b, c, d, e, f, g, h] ==> x < bound)
       <==> a < bound && b < bound && c < bound && d < bound && e < bound && f < bound && g < bound && h < bound
  {
    var s := [a, b, c, d, e, f, g, h];
    assert s[0] in s && s[1] in s && s[2] in s && s[3] in s && s[4] in s && s[5] in s && s[6] in s && s[7] in s;
  }

  lemma NoBytesFit(handshakes: nat, hops: nat)
    requires handshakes <= 400_000
    ensures AllFit(handshakes, 0, hops)
  {
    var fee := handshakes * MIN_BILLABLE_QI;
    assert Intermediates(handshakes, 0, hops) == [fee, fee];
  }

  lemma SomeBytesFitIff(handshakes: nat, bytes: nat, hops: nat)
    requires bytes > 0 && bytes * hops <= 18 * BYTES_PER_GB && hops <= 18_000_000 && handshakes <= 400_000
    ensures AllFit(handshakes, bytes, hops) <==> bytes * RATE_PER_BYTE < TWO_TO_64
  {
    RawCost(bytes, hops);
    CostForm(bytes, hops);
    BoundedBillsFit(handshakes, bytes * hops, hops);
    var fee, first, raw := handshakes * MIN_BILLABLE_QI, bytes * RATE_PER_BYTE, bytes * RATE_PER_BYTE * hops;
    var rounded, floor, bill := RoundUp(raw), MIN_BILLABLE_QI * hops, CostUnits(handshakes, bytes, hops);
    assert raw == (bytes * hops) * RATE_PER_BYTE && bill == fee + Max(rounded, floor);
    var all := [fee, first, raw, raw + MIN_BILLABLE_QI, raw + MIN_BILLABLE_QI - 1, rounded, floor, bill];
    assert Intermediates(handshakes, bytes, hops) == all;
    EightBelow(fee, first, raw, raw + MIN_BILLABLE_QI, raw + MIN_BILLABLE_QI - 1, rounded, floor, bill, TWO_TO_64);
    assert AllFit(handshakes, bytes, hops) <==> forall x :: x in all ==> x < TWO_TO_64;
  }

  /** Up to 18 GB-hops, 18,000,000 hops and 400,000 handshakes, no u64 overflow occurs if and only if there is a hop or
      the bytes are at most 19807040641: over zero hops the bytes are still multiplied by the rate. */
  lemma NoOverflowIff(handshakes: nat, bytes: nat, hops: nat)
    requires bytes * hops <= 18 * BYTES_PER_GB && hops <= 18_000_000 && handshakes <= 400_000
    ensures AllFit(handshakes, bytes, hops) <==> hops > 0 || bytes <= 19_807_040_641
  {
    if bytes == 0 {
      NoBytesFit(handshakes, hops);
    } else {
      SomeBytesFitIff(handshakes, bytes, hops);
      if hops > 0 {
        ProductMonotone(bytes, 1, bytes, hops);
      }
    }
  }

  /** A bill over zero hops, for one byte more than that, overflows. */
  lemma ZeroHopsCanOverflow()
    ensures !AllFit(0, 19_807_040_642, 0)
  {
    NoOverflowIff(0, 19_807_040_642, 0);
  }
}
