/** The player market's pure parts: listings, the dense listing-id
    allocator, the trimmed mean of player prices that NPC vendors price
    from, the vendor price itself and the price bounds that the correction
    sweep enforces. The handlers that move items and Bits live in Economy. */
module Market {
  import opened Common
  import opened Catalog
  import opened Accounts
  import opened Rewards

  /** A market listing; the price per unit is a JavaScript number. */
  datatype Listing = Listing(id: int, sellerId: AccountId, item: Item, quantity: int, price: real)

  /** A price the market accepts: between 1 and 10000 Bits per unit. */
  predicate PriceAllowed(p: real) {
    MarketMinPrice <= p <= MarketMaxPrice
  }

  // ------------------------------------------------------------- listing ids

  /** The listing ids, in collection order. */
  function Ids(market: seq<Listing>): (ids: seq<int>)
    ensures |ids| == |market|
    ensures forall k :: 0 <= k < |market| ==> ids[k] == market[k].id
  {
    seq(|market|, k requires 0 <= k < |market| => market[k].id)
  }

  /** No id occurs twice (the unique index on listingId). */
  ghost predicate Unique(ids: seq<int>) {
    forall x :: multiset(ids)[x] <= 1
  }

  predicate Positive(ids: seq<int>) {
    forall k :: 0 <= k < |ids| ==> ids[k] >= 1
  }

  predicate Ascending(s: seq<int>) {
    forall i, j :: 0 <= i < j < |s| ==> s[i] <= s[j]
  }

  lemma AscendingCons(h: int, t: seq<int>)
    requires Ascending(t) && (t == [] || h <= t[0])
    ensures Ascending([h] + t)
  {
  }

  function InsertId(x: int, s: seq<int>): (r: seq<int>)
    requires Ascending(s)
    ensures Ascending(r)
    ensures multiset(r) == multiset(s) + multiset{x}
    ensures |r| == |s| + 1 && (r[0] == x || (s != [] && r[0] == s[0]))
  {
    if s == [] then [x]
    else if x <= s[0] then [x] + s
    else
      var rest := InsertId(x, s[1..]);
      assert Ascending([s[0]] + rest) by {
        AscendingCons(s[0], rest);
      }
      assert multiset([s[0]] + rest) == multiset(s) + multiset{x} by {
        assert s == [s[0]] + s[1..];
      }
      [s[0]] + rest
  }

  /** `.sort((a, b) => a - b)` */
  function SortIds(s: seq<int>): (r: seq<int>)
    ensures Ascending(r)
    ensures multiset(r) == multiset(s)
  {
    if s == [] then []
    else
      assert s == s[..|s| - 1] + [s[|s| - 1]];
      InsertId(s[|s| - 1], SortIds(s[..|s| - 1]))
  }

  /** Two positions holding the same value make it occur twice. */
  lemma TwoEqualPositions(s: seq<int>, i: int, j: int)
    requires 0 <= i < j < |s| && s[i] == s[j]
    ensures multiset(s)[s[i]] >= 2
  {
    assert s == s[..j] + [s[j]] + s[j + 1..];
    assert s[..j][i] == s[i];
    assert multiset(s[..j])[s[i]] >= 1;
  }

  /** An ascending sequence without repeats is strictly ascending. */
  lemma UniqueAscending(s: seq<int>, i: int, j: int)
    requires Ascending(s) && Unique(s) && 0 <= i < j < |s|
    ensures s[i] < s[j]
  {
    if s[i] == s[j] {
      TwoEqualPositions(s, i, j);
      assert false;
    }
  }

  /** findNextAvailableListingId: the ids sorted, then scanned for the first
      position whose id is not its expected value. With distinct positive ids
      the result is the smallest positive integer not in use. */
  method NextListingId(ids: seq<int>) returns (id: int)
    ensures id >= 1
    ensures Unique(ids) && Positive(ids) ==> id !in ids && forall k :: 1 <= k < id ==> k in ids
  {
    var used := SortIds(ids);
    var expected := 1;
    var k := 0;
    while k < |used|
      invariant 0 <= k <= |used|
      invariant expected == k + 1
      invariant forall j :: 0 <= j < k ==> used[j] == j + 1
    {
      if used[k] != expected {
        if Unique(ids) && Positive(ids) {
          GapFound(ids, used, k);
        }
        return expected;
      }
      expected := expected + 1;
      k := k + 1;
    }
    NoGap(ids, used);
    return expected;
  }

  /** Sorted ids that run 1, 2, 3, ... to the end leave the next one free. */
  lemma NoGap(ids: seq<int>, used: seq<int>)
    requires multiset(used) == multiset(ids)
    requires forall j :: 0 <= j < |used| ==> used[j] == j + 1
    ensures |used| + 1 !in ids && forall v :: 1 <= v < |used| + 1 ==> v in ids
  {
    forall x | x in ids
      ensures x != |used| + 1
    {
      assert x in multiset(used);
    }
    forall v | 1 <= v < |used| + 1
      ensures v in ids
    {
      assert used[v - 1] == v;
      assert v in multiset(used);
    }
  }

  /** The first position where the sorted ids leave 1, 2, 3, ... is a gap. */
  lemma GapFound(ids: seq<int>, used: seq<int>, k: int)
    requires Unique(ids) && Positive(ids)
    requires Ascending(used) && multiset(used) == multiset(ids)
    requires 0 <= k < |used| && used[k] != k + 1
    requires forall j :: 0 <= j < k ==> used[j] == j + 1
    ensures k + 1 !in ids
    ensures forall v :: 1 <= v < k + 1 ==> v in ids
  {
    assert Unique(used) by {
      forall x
        ensures multiset(used)[x] <= 1
      {
        assert multiset(used)[x] == multiset(ids)[x];
      }
    }
    assert used[k] in multiset(ids);
    assert used[k] >= k + 2 by {
      if k > 0 {
        UniqueAscending(used, k - 1, k);
      }
    }
    forall j | 0 <= j < |used|
      ensures used[j] != k + 1
    {
      if k < j {
        UniqueAscending(used, k, j);
      }
    }
    assert k + 1 !in multiset(used);
    forall v | 1 <= v < k + 1
      ensures v in ids
    {
      assert used[v - 1] == v;
      assert v in multiset(used);
    }
  }

  /** The first listing with the given id (findOneAndDelete({ listingId })). */
  function FindListing(market: seq<Listing>, id: int): (k: Option<nat>)
    ensures k.Some? ==> k.value < |market| && market[k.value].id == id
    ensures k.Some? ==> forall j :: 0 <= j < k.value ==> market[j].id != id
    ensures k.None? ==> forall j :: 0 <= j < |market| ==> market[j].id != id
  {
    if market == [] then None
    else if market[0].id == id then Some(0)
    else
      match FindListing(market[1..], id)
      case None => None
      case Some(j) => Some(j + 1)
  }

  /** The first listing with the given id and seller (the cancel query). */
  function FindOwnListing(market: seq<Listing>, id: int, seller: AccountId): (k: Option<nat>)
    ensures k.Some? ==> k.value < |market| && market[k.value].id == id && market[k.value].sellerId == seller
    ensures k.None? ==> forall j :: 0 <= j < |market| ==> !(market[j].id == id && market[j].sellerId == seller)
  {
    if market == [] then None
    else if market[0].id == id && market[0].sellerId == seller then Some(0)
    else
      match FindOwnListing(market[1..], id, seller)
      case None => None
      case Some(j) => Some(j + 1)
  }

  /** With unique ids the listing with a given id is the only one. */
  lemma FoundIsOnly(market: seq<Listing>, k: nat, j: nat)
    requires Unique(Ids(market)) && k < |market| && j < |market| && market[k].id == market[j].id
    ensures k == j
  {
    if k < j {
      TwoEqualPositions(Ids(market), k, j);
      assert false;
    } else if j < k {
      TwoEqualPositions(Ids(market), j, k);
      assert false;
    }
  }

  /** With unique ids the cancel query finds each listing at its own place. */
  lemma OwnListingFound(market: seq<Listing>, k: nat)
    requires Unique(Ids(market)) && k < |market|
    ensures FindOwnListing(market, market[k].id, market[k].sellerId) == Some(k)
  {
    var r := FindOwnListing(market, market[k].id, market[k].sellerId);
    if r.Some? {
      FoundIsOnly(market, r.value, k);
    }
  }

  lemma IdsConcat(a: seq<Listing>, b: seq<Listing>)
    ensures Ids(a + b) == Ids(a) + Ids(b)
  {
    assert forall k :: 0 <= k < |a + b| ==> Ids(a + b)[k] == (Ids(a) + Ids(b))[k];
  }

  /** Taking a listing out removes exactly its id from the ids. */
  lemma RemoveKeepsIds(market: seq<Listing>, k: nat)
    requires k < |market|
    ensures multiset(Ids(market[..k] + market[k + 1..])) + multiset{market[k].id} == multiset(Ids(market))
  {
    var before, after := market[..k], market[k + 1..];
    var l := market[k];
    assert market == (before + [l]) + after;
    IdsConcat(before + [l], after);
    IdsConcat(before, [l]);
    IdsConcat(before, after);
    assert Ids([l]) == [l.id];
    var a, b := Ids(before), Ids(after);
    assert Ids(market) == a + [l.id] + b;
    assert Ids(before + after) == a + b;
    calc {
      multiset(Ids(market));
      multiset(a + [l.id] + b);
      multiset(a) + multiset{l.id} + multiset(b);
    }
  }

  lemma AppendIds(market: seq<Listing>, l: Listing)
    ensures Ids(market + [l]) == Ids(market) + [l.id]
  {
    assert (market + [l])[..|market|] == market;
  }

  // ---------------------------------------------------- average player price

  /** The prices of the listings of `item` put up by players, in collection order. */
  function PlayerPrices(market: seq<Listing>, item: Item): (p: seq<real>)
    ensures |p| <= |market|
    ensures forall x :: x in p <==> exists k :: 0 <= k < |market| && market[k].item == item && !IsNpc(market[k].sellerId) && market[k].price == x
  {
    if market == [] then []
    else
      var rest := PlayerPrices(market[..|market| - 1], item);
      var l := market[|market| - 1];
      assert forall k :: 0 <= k < |market| - 1 ==> market[..|market| - 1][k] == market[k];
      if l.item == item && !IsNpc(l.sellerId) then rest + [l.price] else rest
  }

  predicate AscendingPrices(s: seq<real>) {
    forall i, j :: 0 <= i < j < |s| ==> s[i] <= s[j]
  }

  lemma AscendingPricesCons(h: real, t: seq<real>)
    requires AscendingPrices(t) && (t == [] || h <= t[0])
    ensures AscendingPrices([h] + t)
  {
  }

  function InsertPrice(x: real, s: seq<real>): (r: seq<real>)
    requires AscendingPrices(s)
    ensures AscendingPrices(r)
    ensures multiset(r) == multiset(s) + multiset{x}
    ensures |r| == |s| + 1 && (r[0] == x || (s != [] && r[0] == s[0]))
  {
    if s == [] then [x]
    else if x <= s[0] then [x] + s
    else
      var rest := InsertPrice(x, s[1..]);
      assert AscendingPrices([s[0]] + rest) by {
        AscendingPricesCons(s[0], rest);
      }
      assert multiset([s[0]] + rest) == multiset(s) + multiset{x} by {
        assert s == [s[0]] + s[1..];
      }
      [s[0]] + rest
  }

  /** `.sort({ price: 1 })` */
  function SortPrices(s: seq<real>): (r: seq<real>)
    ensures AscendingPrices(r)
    ensures multiset(r) == multiset(s)
  {
    if s == [] then []
    else
      assert s == s[..|s| - 1] + [s[|s| - 1]];
      InsertPrice(s[|s| - 1], SortPrices(s[..|s| - 1]))
  }

  function Sum(s: seq<real>): real {
    if s == [] then 0.0 else Sum(s[..|s| - 1]) + s[|s| - 1]
  }

  function Mean(s: seq<real>): real
    requires s != []
  {
    Sum(s) / |s| as real
  }

  /** Every element between lo and hi puts the sum between |s| x lo and |s| x hi. */
  lemma {:induction false} SumWithin(s: seq<real>, lo: real, hi: real)
    requires forall x :: x in s ==> lo <= x <= hi
    ensures |s| as real * lo <= Sum(s) <= |s| as real * hi
  {
    if s != [] {
      var init := s[..|s| - 1];
      assert forall x :: x in init ==> x in s;
      SumWithin(init, lo, hi);
      assert s[|s| - 1] in s;
      assert |s| as real * lo == |init| as real * lo + lo;
      assert |s| as real * hi == |init| as real * hi + hi;
    }
  }

  lemma MeanWithin(s: seq<real>, lo: real, hi: real)
    requires s != [] && forall x :: x in s ==> lo <= x <= hi
    ensures lo <= Mean(s) <= hi
  {
    SumWithin(s, lo, hi);
    var n := |s| as real;
    assert n * lo / n == lo && n * hi / n == hi;
  }

  /** The number of prices trimmed from each end: Math.floor(n x 0.1). */
  function TrimCount(n: nat): (c: nat)
    ensures c == Floor(n as real * 0.1)
    ensures 2 * c < n || n == 0
  {
    n / 10
  }

  /** The average of ascending prices: nothing for no prices, the plain
      mean for fewer than three, otherwise the mean of what remains after
      trimming a tenth from each end (the whole list when nothing is trimmed). */
  function TrimmedMean(sorted: seq<real>): (r: Option<real>)
    ensures r.None? <==> sorted == []
    ensures r.Some? && |sorted| < 10 ==> r.value == Mean(sorted)
    ensures r.Some? && |sorted| >= 10 ==>
              r.value == Mean(sorted[TrimCount(|sorted|)..|sorted| - TrimCount(|sorted|)])
  {
    var n := |sorted|;
    if n < 3 then (if n == 0 then None else Some(Mean(sorted)))
    else
      var cut := TrimCount(n);
      var kept := if cut > 0 then sorted[cut..n - cut] else [];
      Some(Mean(if |kept| > 0 then kept else sorted))
  }

  /** getAveragePlayerPrice */
  function AveragePlayerPrice(market: seq<Listing>, item: Item): (r: Option<real>)
    ensures r.None? <==> PlayerPrices(market, item) == []
  {
    var sorted := SortPrices(PlayerPrices(market, item));
    assert |sorted| == |PlayerPrices(market, item)| by {
      assert |multiset(sorted)| == |multiset(PlayerPrices(market, item))|;
    }
    TrimmedMean(sorted)
  }

  /** The average lies within any bounds every player price of the item
      respects; in particular within the market's price range once every
      listing has an allowed price. */
  lemma AverageWithin(market: seq<Listing>, item: Item, lo: real, hi: real)
    requires forall k :: 0 <= k < |market| && market[k].item == item && !IsNpc(market[k].sellerId) ==>
               lo <= market[k].price <= hi
    ensures AveragePlayerPrice(market, item).Some? ==> lo <= AveragePlayerPrice(market, item).value <= hi
  {
    var prices := PlayerPrices(market, item);
    PricesWithin(market, item, lo, hi);
    var sorted := SortPrices(prices);
    assert forall x :: x in sorted ==> lo <= x <= hi by {
      forall x | x in sorted
        ensures lo <= x <= hi
      {
        assert x in multiset(sorted);
        assert x in prices;
      }
    }
    TrimmedWithin(sorted, lo, hi);
  }

  lemma PricesWithin(market: seq<Listing>, item: Item, lo: real, hi: real)
    requires forall k :: 0 <= k < |market| && market[k].item == item && !IsNpc(market[k].sellerId) ==>
               lo <= market[k].price <= hi
    ensures forall x :: x in PlayerPrices(market, item) ==> lo <= x <= hi
  {
  }

  lemma TrimmedWithin(sorted: seq<real>, lo: real, hi: real)
    requires forall x :: x in sorted ==> lo <= x <= hi
    ensures TrimmedMean(sorted).Some? ==> lo <= TrimmedMean(sorted).value <= hi
  {
    var n := |sorted|;
    if n >= 3 {
      var cut := TrimCount(n);
      if cut > 0 {
        var kept := sorted[cut..n - cut];
        forall x | x in kept
          ensures lo <= x <= hi
        {
          var k :| 0 <= k < |kept| && kept[k] == x;
          assert sorted[cut + k] == x && sorted[cut + k] in sorted;
        }
        MeanWithin(kept, lo, hi);
      } else {
        MeanWithin(sorted, lo, hi);
      }
    } else if n > 0 {
      MeanWithin(sorted, lo, hi);
    }
  }

  // ------------------------------------------------------------ vendor price

  /** The price an NPC vendor asks for a stock entry: its fixed price, else
      the average player price plus 15% rounded up, else a draw from the
      item's fallback range (`Math.random()` is `r`). A zero average counts
      as none, as the source tests the average for truthiness. */
  function VendorPrice(stock: StockItem, average: Option<real>, r: real): (p: real)
    requires 0.0 <= r < 1.0
    ensures stock.fixedPrice.Some? ==> p == stock.fixedPrice.value as real
    ensures stock.fixedPrice.None? && average.Some? && average.value != 0.0 ==>
              p == Ceil(average.value * 1.15) as real
    ensures stock.fixedPrice.None? && (average.None? || average.value == 0.0) ==>
              FallbackPrice(stock.item).0 as real <= p <= FallbackPrice(stock.item).1 as real
  {
    if stock.fixedPrice.Some? then stock.fixedPrice.value as real
    else if average.Some? && average.value != 0.0 then Ceil(average.value * 1.15) as real
    else
      var range := FallbackPrice(stock.item);
      UniformInt(r, range.0, range.1) as real
  }

  /** Listings by one seller. */
  function CountBy(market: seq<Listing>, seller: AccountId): (n: nat)
    ensures n <= |market|
  {
    if market == [] then 0
    else CountBy(market[..|market| - 1], seller) + (if market[|market| - 1].sellerId == seller then 1 else 0)
  }

  // -------------------------------------------------------- price correction

  /** The listings the correction sweep keeps: those with an allowed price, in order. */
  function Allowed(market: seq<Listing>): (r: seq<Listing>)
    ensures forall k :: 0 <= k < |r| ==> PriceAllowed(r[k].price)
  {
    if market == [] then []
    else
      var l := market[|market| - 1];
      if PriceAllowed(l.price) then Allowed(market[..|market| - 1]) + [l] else Allowed(market[..|market| - 1])
  }

  /** The listings the correction sweep cancels. */
  function Disallowed(market: seq<Listing>): (r: seq<Listing>)
    ensures forall k :: 0 <= k < |r| ==> !PriceAllowed(r[k].price)
  {
    if market == [] then []
    else
      var l := market[|market| - 1];
      if PriceAllowed(l.price) then Disallowed(market[..|market| - 1]) else Disallowed(market[..|market| - 1]) + [l]
  }

  /** The sweep splits the market: nothing is lost and nothing is made up. */
  lemma {:induction false} SweepSplits(market: seq<Listing>)
    ensures multiset(Allowed(market)) + multiset(Disallowed(market)) == multiset(market)
  {
    if market != [] {
      SweepSplits(market[..|market| - 1]);
      assert market == market[..|market| - 1] + [market[|market| - 1]];
    }
  }

  /** A market whose prices are all allowed is left untouched. */
  lemma {:induction false} SweepIdle(market: seq<Listing>)
    requires forall k :: 0 <= k < |market| ==> PriceAllowed(market[k].price)
    ensures Allowed(market) == market && Disallowed(market) == []
  {
    if market != [] {
      var init := market[..|market| - 1];
      assert forall k :: 0 <= k < |init| ==> init[k] == market[k];
      SweepIdle(init);
      assert market == init + [market[|market| - 1]];
    }
  }
}
