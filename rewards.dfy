/** The reward engine: the secure random float, the weighted walk shared by
    the trait roll and the lootbox opening, and the two draws built on it.
    Every random source is an explicit parameter: a secure draw is the
    unsigned 32-bit integer read from four random bytes. */
module Rewards {
  import opened Common
  import opened Catalog

  /** Number of distinct unsigned 32-bit values. */
  const U32Count := 0x1_0000_0000

  /** readUInt32LE of four random bytes. */
  newtype U32 = x: int | 0 <= x < 0x1_0000_0000

  /** secureRandomFloat as the source writes it: the 32-bit value divided by
      0xffffffff, so both 0.0 and 1.0 are reachable. */
  function SecureRandomFloatAsWritten(bytes: U32): (r: real)
    ensures 0.0 <= r <= 1.0
    ensures r == 1.0 <==> bytes as int == U32Count - 1
  {
    bytes as real / (U32Count - 1) as real
  }

  /** The secure float every caller evidently expects: uniform over [0, 1),
      dividing by 2^32 instead of 2^32 - 1. */
  function SecureRandomFloat(bytes: U32): (r: real)
    ensures 0.0 <= r < 1.0
    ensures bytes == 0 <==> r == 0.0
  {
    bytes as real / U32Count as real
  }

  /** Math.floor(u * (max - min + 1)) + min: a whole number drawn from [min, max]
      when u is in [0, 1). */
  function UniformInt(u: real, min: int, max: int): (r: int)
    requires 0.0 <= u < 1.0 && min <= max
    ensures min <= r <= max
  {
    Floor(u * (max - min + 1) as real) + min
  }

  // -------------------------------------------------------- weighted walk

  function Total(w: seq<nat>): nat {
    if w == [] then 0 else w[0] + Total(w[1..])
  }

  lemma {:induction false} TotalAppend(a: seq<nat>, b: seq<nat>)
    ensures Total(a + b) == Total(a) + Total(b)
  {
    if a == [] {
      assert a + b == b;
    } else {
      assert (a + b)[1..] == a[1..] + b;
      TotalAppend(a[1..], b);
    }
  }

  /** Prefix totals grow with the prefix. */
  lemma {:induction false} TotalPrefixMonotone(w: seq<nat>, i: nat, j: nat)
    requires i <= j <= |w|
    ensures Total(w[..i]) <= Total(w[..j])
  {
    assert w[..j] == w[..i] + w[i..j];
    TotalAppend(w[..i], w[i..j]);
  }

  /** The walk of the source: compare the draw with each weight in turn and
      subtract the weight when the draw is not below it. */
  function Walk(w: seq<nat>, r: real): Option<nat> {
    if w == [] then None
    else if r < w[0] as real then Some(0)
    else match Walk(w[1..], r - w[0] as real)
      case None => None
      case Some(k) => Some(k + 1)
  }

  /** The entry the walk picks is the one whose cumulative span
      [Total(w[..k]), Total(w[..k+1])) contains the draw, and the walk falls
      off the end exactly when the draw reaches the total weight. */
  lemma {:induction false} WalkPicksSpan(w: seq<nat>, r: real)
    requires r >= 0.0
    ensures Walk(w, r).None? <==> r >= Total(w) as real
    ensures Walk(w, r).Some? ==>
              (Walk(w, r).value < |w| &&
               Total(w[..Walk(w, r).value]) as real <= r < Total(w[..Walk(w, r).value + 1]) as real)
  {
    if w == [] {
    } else if r < w[0] as real {
      assert w[..1] == [w[0]];
      assert w[..0] == [];
    } else {
      WalkPicksSpan(w[1..], r - w[0] as real);
      match Walk(w[1..], r - w[0] as real)
      case None =>
      case Some(k) =>
        assert w[..k + 1] == [w[0]] + w[1..][..k];
        assert w[..k + 2] == [w[0]] + w[1..][..k + 1];
        TotalAppend([w[0]], w[1..][..k]);
        TotalAppend([w[0]], w[1..][..k + 1]);
    }
  }

  /** The spans are disjoint: at most one entry's span contains a draw, so
      "the first entry whose span contains r" is the only one. */
  lemma SpanUnique(w: seq<nat>, r: real, k1: nat, k2: nat)
    requires k1 < |w| && k2 < |w|
    requires Total(w[..k1]) as real <= r < Total(w[..k1 + 1]) as real
    requires Total(w[..k2]) as real <= r < Total(w[..k2 + 1]) as real
    ensures k1 == k2
  {
    if k1 < k2 {
      TotalPrefixMonotone(w, k1 + 1, k2);
    } else if k2 < k1 {
      TotalPrefixMonotone(w, k2 + 1, k1);
    }
  }

  /** The loop shared by rollNewTrait and openLootbox: `random -= weight`
      until the draw falls below an entry's weight. */
  method WeightedIndex(w: seq<nat>, r: real) returns (k: Option<nat>)
    requires r >= 0.0
    ensures k == Walk(w, r)
    ensures k.None? <==> r >= Total(w) as real
    ensures k.Some? ==>
              (k.value < |w| && Total(w[..k.value]) as real <= r < Total(w[..k.value + 1]) as real)
  {
    var random := r;
    var i := 0;
    while i < |w|
      invariant 0 <= i <= |w|
      invariant random == r - Total(w[..i]) as real
      invariant Walk(w, r) == ShiftBy(Walk(w[i..], random), i)
    {
      if random < w[i] as real {
        WalkPicksSpan(w, r);
        return Some(i);
      }
      assert w[..i + 1] == w[..i] + [w[i]];
      TotalAppend(w[..i], [w[i]]);
      assert w[i..][1..] == w[i + 1..];
      random := random - w[i] as real;
      i := i + 1;
    }
    WalkPicksSpan(w, r);
    return None;
  }

  /** A walk result on a suffix, renumbered as an index of the whole sequence. */
  function ShiftBy(k: Option<nat>, n: nat): Option<nat> {
    if k.None? then None else Some(k.value + n)
  }

  // ------------------------------------------------------------ trait roll

  /** The trait weights in table order. */
  function TraitWeights(): (w: seq<nat>)
    ensures |w| == |TraitKinds|
    ensures forall i :: 0 <= i < |w| ==> w[i] == TraitWeight(TraitKinds[i])
  {
    [30, 30, 15, 10, 7, 7, 1]
  }

  /** rollNewTrait as written. A kind draw of 0xffffffff walks past every
      weight and the function returns nothing; a level draw of 0 yields level 0. */
  method RollNewTraitAsWritten(kindBytes: U32, levelBytes: U32) returns (t: Option<Trait>)
    ensures t.None? <==> kindBytes as int == U32Count - 1
    ensures t.Some? ==> 0 <= t.value.level <= TraitMaxLevel
    ensures t.Some? ==> (t.value.level == 0 <==> levelBytes == 0)
  {
    var w := TraitWeights();
    assert Total(w) == 100;
    var random := SecureRandomFloatAsWritten(kindBytes) * Total(w) as real;
    var k := WeightedIndex(w, random);
    if k.None? {
      return None;
    }
    var u := SecureRandomFloatAsWritten(levelBytes);
    t := Some(Trait(TraitKinds[k.value], Ceil(u * TraitMaxLevel as real)));
  }

  /** rollNewTrait with the corrected draw in [0, 1) and the level taken as
      floor(u * maxLevel) + 1: a trait is always produced, its kind is the
      entry whose weight span holds the draw, and its level lies in [1, maxLevel]. */
  method RollNewTrait(kindBytes: U32, levelBytes: U32) returns (t: Trait)
    ensures 1 <= t.level <= TraitMaxLevel
    ensures exists k :: (0 <= k < |TraitKinds| && t.kind == TraitKinds[k] &&
                         Total(TraitWeights()[..k]) as real <= SecureRandomFloat(kindBytes) * 100.0 &&
                         SecureRandomFloat(kindBytes) * 100.0 < Total(TraitWeights()[..k + 1]) as real)
  {
    var w := TraitWeights();
    assert Total(w) == 100;
    var random := SecureRandomFloat(kindBytes) * Total(w) as real;
    var k := WeightedIndex(w, random);
    var level := UniformInt(SecureRandomFloat(levelBytes), 1, TraitMaxLevel);
    t := Trait(TraitKinds[k.value], level);
  }

  // --------------------------------------------------------------- lootbox

  function CrateWeights(box: Lootbox): (w: seq<nat>)
    ensures |w| == |CrateContents(box)|
    ensures forall i :: 0 <= i < |w| ==> w[i] == CrateContents(box)[i].weight
  {
    var c := CrateContents(box);
    seq(|c|, i requires 0 <= i < |c| => c[i].weight)
  }

  /** What one opened crate yields: Bits or an item, and an amount. */
  datatype Prize = Prize(grant: Grant, amount: int)

  /** The lootbox draw on two secure draws: the entry whose weight span
      holds the first draw scaled to the total weight, and an amount drawn
      from that entry's range with the second. */
  function LootboxPrize(box: Lootbox, pickBytes: U32, amountBytes: U32): (p: Prize)
    ensures p.amount >= 1
  {
    var c := CrateContents(box);
    var pick := PickPoint(box, pickBytes);
    WalkPicksSpan(CrateWeights(box), pick);
    // The pick lies below the total weight, so the walk never falls back
    // to the last entry here.
    var k := Walk(CrateWeights(box), pick).value;
    Prize(c[k].grant, UniformInt(SecureRandomFloat(amountBytes), c[k].min, c[k].max))
  }

  /** The prize comes from the crate's table: from the entry whose weight
      span holds the scaled first draw, with an amount inside that entry's
      range. */
  lemma PrizeFromTable(box: Lootbox, pickBytes: U32, amountBytes: U32)
    ensures var p := LootboxPrize(box, pickBytes, amountBytes);
            exists k :: (0 <= k < |CrateContents(box)| && p.grant == CrateContents(box)[k].grant &&
                         Total(CrateWeights(box)[..k]) as real <= PickPoint(box, pickBytes) &&
                         PickPoint(box, pickBytes) < Total(CrateWeights(box)[..k + 1]) as real &&
                         CrateContents(box)[k].min <= p.amount <= CrateContents(box)[k].max)
  {
    WalkPicksSpan(CrateWeights(box), PickPoint(box, pickBytes));
  }

  /** secureRandomFloat() * totalWeight: the point on the weight line the
      first draw selects. It always lies below the total weight. */
  function PickPoint(box: Lootbox, pickBytes: U32): (r: real)
    ensures 0.0 <= r < Total(CrateWeights(box)) as real
  {
    CratesWeighed(box);
    Scaled(SecureRandomFloat(pickBytes), Total(CrateWeights(box)))
  }

  /** Every crate has a positive total weight. */
  lemma CratesWeighed(box: Lootbox)
    ensures Total(CrateWeights(box)) > 0
  {
    var c := CrateContents(box);
    assert CrateWeights(box) == [c[0].weight] + CrateWeights(box)[1..];
  }

  /** A draw in [0, 1) scaled to a positive total lands below the total. */
  function Scaled(u: real, t: nat): (r: real)
    requires 0.0 <= u < 1.0 && t > 0
    ensures 0.0 <= r < t as real
  {
    u * t as real
  }

  lemma ScaleNonNegative(u: real, t: nat)
    requires 0.0 <= u
    ensures 0.0 <= u * t as real
  {
  }

  /** openLootbox: the weighted loop with the corrected secure draws. */
  method OpenLootbox(box: Lootbox, pickBytes: U32, amountBytes: U32) returns (p: Prize)
    ensures p == LootboxPrize(box, pickBytes, amountBytes)
  {
    var c := CrateContents(box);
    var w := CrateWeights(box);
    var random := PickPoint(box, pickBytes);
    var k := WeightedIndex(w, random);
    var e := c[k.value];
    p := Prize(e.grant, UniformInt(SecureRandomFloat(amountBytes), e.min, e.max));
  }

  /** openLootbox as written: with an amount draw of 0xffffffff the float is
      exactly 1.0 and the amount is one past the chosen entry's maximum. */
  method OpenLootboxAsWritten(box: Lootbox, pickBytes: U32, amountBytes: U32) returns (p: Prize, maxOfEntry: int)
    ensures amountBytes as int == U32Count - 1 ==> p.amount == maxOfEntry + 1
    ensures amountBytes as int < U32Count - 1 ==> p.amount <= maxOfEntry
    ensures exists k :: (0 <= k < |CrateContents(box)| && p.grant == CrateContents(box)[k].grant &&
                         maxOfEntry == CrateContents(box)[k].max)
  {
    var c := CrateContents(box);
    var w := CrateWeights(box);
    var u := SecureRandomFloatAsWritten(pickBytes);
    ScaleNonNegative(u, Total(w));
    var random := u * Total(w) as real;
    var k := WeightedIndex(w, random);
    var e := if k.Some? then c[k.value] else c[|c| - 1];
    var v := SecureRandomFloatAsWritten(amountBytes);
    p := Prize(e.grant, Floor(v * (e.max - e.min + 1) as real) + e.min);
    maxOfEntry := e.max;
  }
}
