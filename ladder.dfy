/** `build_v1_ladder` (pm4/trading.py): the bid and ask ladders around a
    reservation price in log-odds space, tick-rounded away from the book's
    inside, sized by a geometrically decaying share of the side budget, and
    de-duplicated by price. */
module Ladder {
  import opened RealMath
  import opened Utils

  /** One rung: its index on the side, its price and its size. */
  datatype Level = Level(level: nat, price: real, size: real)

  /** The keyword arguments of `build_v1_ladder`. */
  datatype LadderArgs = LadderArgs(
    rX: real, halfB: real, halfA: real, tick: real, bSide: real,
    decay: real, stepMult: real, minStepLogit: real, maxLevels: int)

  datatype Ladder = Ladder(bids: seq<Level>, asks: seq<Level>)

  /** Below this step no level is generated. */
  const MinBaseStep: real := 0.000000001
  /** Bids at or below this price, and asks at or above `PriceCap`, end their side. */
  const PriceFloor: real := 0.001
  const PriceCap: real := 0.999
  /** Each level risks this share of the side budget, decayed by level. */
  const RiskShare: real := 0.10

  // ---------------------------------------------------------------------
  // Geometry

  function BidStart(a: LadderArgs): real { a.rX - a.halfB }
  function AskStart(a: LadderArgs): real { a.rX + a.halfA }

  /** max(step_mult (half_b + half_a) / 2, min_step_logit). */
  function BaseStep(a: LadderArgs): (s: real)
    ensures s >= a.minStepLogit
  {
    Max(a.stepMult * (a.halfB + a.halfA) / 2.0, a.minStepLogit)
  }

  /** `min(max_levels, int(max(0, span / step)))`, or 0 for a degenerate step. */
  function LevelCount(span: real, step: real, maxLevels: int): (n: int)
    ensures n <= maxLevels || n == 0
    ensures step <= MinBaseStep ==> n == 0
    ensures step > MinBaseStep && maxLevels >= 0 ==> n >= 0
  {
    if step > MinBaseStep then
      var k := Trunc(Max(0.0, span / step));
      if maxLevels <= k then maxLevels else k
    else 0
  }

  function BidCount(f: Fns, a: LadderArgs): int {
    LevelCount(BidStart(a) - Logit(f, Max(a.tick, PriceFloor)), BaseStep(a), a.maxLevels)
  }

  function AskCount(f: Fns, a: LadderArgs): int {
    LevelCount(Logit(f, Min(1.0 - a.tick, PriceCap)) - AskStart(a), BaseStep(a), a.maxLevels)
  }

  /** `range(n)` is empty for a negative n. */
  function Iterations(n: int): nat { if n < 0 then 0 else n }

  /** `decay ** i` for an integer exponent. */
  function Power(b: real, n: nat): (r: real)
    ensures b >= 0.0 ==> r >= 0.0
  {
    if n == 0 then 1.0
    else
      var rest := Power(b, n - 1);
      assert b >= 0.0 ==> b * rest >= 0.0 by {
        if b >= 0.0 {
          MulNonNeg(b, rest);
        }
      }
      b * rest
  }

  /** The risk budget of level i. */
  function LevelRisk(a: LadderArgs, i: nat): (r: real)
    ensures a.bSide >= 0.0 && a.decay >= 0.0 ==> r >= 0.0
  {
    var unit := a.bSide * RiskShare;
    assert a.bSide >= 0.0 && a.decay >= 0.0 ==> unit * Power(a.decay, i) >= 0.0 by {
      if a.bSide >= 0.0 && a.decay >= 0.0 {
        MulNonNeg(unit, Power(a.decay, i));
      }
    }
    unit * Power(a.decay, i)
  }

  // ---------------------------------------------------------------------
  // The two sides before de-duplication

  /** The log-odds of bid level i: one step further down per level. */
  function BidLogit(a: LadderArgs, i: nat): (x: real)
    ensures BaseStep(a) >= 0.0 ==> x <= BidStart(a)
  {
    MulNonNeg(i as real, Max(BaseStep(a), 0.0));
    BidStart(a) - i as real * BaseStep(a)
  }

  /** The log-odds of ask level i: one step further up per level. */
  function AskLogit(a: LadderArgs, i: nat): (x: real)
    ensures BaseStep(a) >= 0.0 ==> x >= AskStart(a)
  {
    MulNonNeg(i as real, Max(BaseStep(a), 0.0));
    AskStart(a) + i as real * BaseStep(a)
  }

  /** The probability bid level i aims at, before rounding. */
  function BidTarget(f: Fns, a: LadderArgs, i: nat): (p: real)
    requires Laws(f)
    ensures 0.0 < p < 1.0
  {
    Sigmoid(f, BidLogit(a, i))
  }

  function AskTarget(f: Fns, a: LadderArgs, i: nat): (p: real)
    requires Laws(f)
    ensures 0.0 < p < 1.0
  {
    Sigmoid(f, AskLogit(a, i))
  }

  function BidPrice(f: Fns, a: LadderArgs, i: nat): real
    requires Laws(f)
    requires a.tick != 0.0
  {
    FloorToTick(BidTarget(f, a, i), a.tick)
  }

  function AskPrice(f: Fns, a: LadderArgs, i: nat): real
    requires Laws(f)
    requires a.tick != 0.0
  {
    CeilToTick(AskTarget(f, a, i), a.tick)
  }

  /** Size = level risk / max(p, 1e-3) for a bid. */
  function BidSize(a: LadderArgs, i: nat, p: real): (s: real)
    ensures a.bSide >= 0.0 && a.decay >= 0.0 ==> s >= 0.0
  {
    assert a.bSide >= 0.0 && a.decay >= 0.0 ==> LevelRisk(a, i) / Max(p, PriceFloor) >= 0.0 by {
      if a.bSide >= 0.0 && a.decay >= 0.0 {
        DivideMonotone(0.0, LevelRisk(a, i), Max(p, PriceFloor));
      }
    }
    LevelRisk(a, i) / Max(p, PriceFloor)
  }

  /** Size = level risk / max(1 - p, 1e-3) for an ask. */
  function AskSize(a: LadderArgs, i: nat, p: real): (s: real)
    ensures a.bSide >= 0.0 && a.decay >= 0.0 ==> s >= 0.0
  {
    assert a.bSide >= 0.0 && a.decay >= 0.0 ==> LevelRisk(a, i) / Max(1.0 - p, PriceFloor) >= 0.0 by {
      if a.bSide >= 0.0 && a.decay >= 0.0 {
        DivideMonotone(0.0, LevelRisk(a, i), Max(1.0 - p, PriceFloor));
      }
    }
    LevelRisk(a, i) / Max(1.0 - p, PriceFloor)
  }

  /** Bid level i as the loop builds it. */
  function BidLevel(f: Fns, a: LadderArgs, i: nat): Level
    requires Laws(f)
    requires a.tick != 0.0
  {
    var p := BidPrice(f, a, i);
    Level(i, p, BidSize(a, i, p))
  }

  function AskLevel(f: Fns, a: LadderArgs, i: nat): Level
    requires Laws(f)
    requires a.tick != 0.0
  {
    var p := AskPrice(f, a, i);
    Level(i, p, AskSize(a, i, p))
  }

  /** The bids the loop appends from level i on: consecutive levels below n,
      stopping at the first whose rounded price is at or below `PriceFloor`. */
  function BidsFrom(f: Fns, a: LadderArgs, i: nat, n: nat): (r: seq<Level>)
    requires Laws(f)
    requires a.tick != 0.0
    ensures i + |r| <= n || r == []
    decreases n - i
  {
    if i >= n then []
    else
      var l := BidLevel(f, a, i);
      if l.price <= PriceFloor then [] else [l] + BidsFrom(f, a, i + 1, n)
  }

  /** Entry k of the bids from level i is bid level i + k, priced
      above `PriceFloor`. */
  lemma {:induction false} BidAt(f: Fns, a: LadderArgs, i: nat, n: nat, k: nat)
    requires Laws(f)
    requires a.tick != 0.0
    requires k < |BidsFrom(f, a, i, n)|
    ensures BidsFrom(f, a, i, n)[k] == BidLevel(f, a, i + k)
    ensures BidsFrom(f, a, i, n)[k].price > PriceFloor
    decreases k
  {
    assert BidsFrom(f, a, i, n) == [BidLevel(f, a, i)] + BidsFrom(f, a, i + 1, n);
    if k > 0 {
      BidAt(f, a, i + 1, n, k - 1);
    }
  }

  /** The asks from level i on, stopping at the first whose rounded price is
      at or above `PriceCap`. */
  function AsksFrom(f: Fns, a: LadderArgs, i: nat, n: nat): (r: seq<Level>)
    requires Laws(f)
    requires a.tick != 0.0
    ensures i + |r| <= n || r == []
    decreases n - i
  {
    if i >= n then []
    else
      var l := AskLevel(f, a, i);
      if l.price >= PriceCap then [] else [l] + AsksFrom(f, a, i + 1, n)
  }

  /** Entry k of the asks from level i is ask level i + k, priced
      below `PriceCap`. */
  lemma {:induction false} AskAt(f: Fns, a: LadderArgs, i: nat, n: nat, k: nat)
    requires Laws(f)
    requires a.tick != 0.0
    requires k < |AsksFrom(f, a, i, n)|
    ensures AsksFrom(f, a, i, n)[k] == AskLevel(f, a, i + k)
    ensures AsksFrom(f, a, i, n)[k].price < PriceCap
    decreases k
  {
    assert AsksFrom(f, a, i, n) == [AskLevel(f, a, i)] + AsksFrom(f, a, i + 1, n);
    if k > 0 {
      AskAt(f, a, i + 1, n, k - 1);
    }
  }

  /** With a positive tick every bid price is below the probability it aims
      at by less than one tick, and lies on the tick grid. */
  lemma BidPriceBounds(f: Fns, a: LadderArgs, i: nat)
    requires Laws(f)
    requires a.tick > 0.0
    ensures BidPrice(f, a, i) <= BidTarget(f, a, i) < 1.0
    ensures BidTarget(f, a, i) - a.tick < BidPrice(f, a, i)
    ensures (BidPrice(f, a, i) / a.tick).Floor as real == BidPrice(f, a, i) / a.tick
  {
  }

  /** With a positive tick every ask price is above the probability it aims
      at by less than one tick, and lies on the tick grid. */
  lemma AskPriceBounds(f: Fns, a: LadderArgs, i: nat)
    requires Laws(f)
    requires a.tick > 0.0
    ensures 0.0 < AskTarget(f, a, i) <= AskPrice(f, a, i)
    ensures AskPrice(f, a, i) < AskTarget(f, a, i) + a.tick
    ensures (AskPrice(f, a, i) / a.tick).Floor as real == AskPrice(f, a, i) / a.tick
  {
  }

  /** Every bid of a side built from level 0 lies strictly inside
      (0.001, 1), carries a level below n, and is sized non-negatively for a
      non-negative budget and decay. */
  lemma BidsInRange(f: Fns, a: LadderArgs, n: nat)
    requires Laws(f)
    requires a.tick > 0.0
    ensures forall l :: l in BidsFrom(f, a, 0, n) ==>
              && PriceFloor < l.price < 1.0 && l.level < n
              && (a.bSide >= 0.0 && a.decay >= 0.0 ==> l.size >= 0.0)
  {
    var r := BidsFrom(f, a, 0, n);
    forall l | l in r
      ensures PriceFloor < l.price < 1.0 && l.level < n
      ensures a.bSide >= 0.0 && a.decay >= 0.0 ==> l.size >= 0.0
    {
      var k :| 0 <= k < |r| && r[k] == l;
      BidAt(f, a, 0, n, k);
      BidPriceBounds(f, a, k);
    }
  }

  /** Every ask of a side built from level 0 lies strictly inside (0, 0.999),
      carries a level below n, and is sized non-negatively for a non-negative
      budget and decay. */
  lemma AsksInRange(f: Fns, a: LadderArgs, n: nat)
    requires Laws(f)
    requires a.tick > 0.0
    ensures forall l :: l in AsksFrom(f, a, 0, n) ==>
              && 0.0 < l.price < PriceCap && l.level < n
              && (a.bSide >= 0.0 && a.decay >= 0.0 ==> l.size >= 0.0)
  {
    var r := AsksFrom(f, a, 0, n);
    forall l | l in r
      ensures 0.0 < l.price < PriceCap && l.level < n
      ensures a.bSide >= 0.0 && a.decay >= 0.0 ==> l.size >= 0.0
    {
      var k :| 0 <= k < |r| && r[k] == l;
      AskAt(f, a, 0, n, k);
      AskPriceBounds(f, a, k);
    }
  }

  // ---------------------------------------------------------------------
  // De-duplication

  /** Strictly descending prices for bids, strictly ascending for asks. */
  predicate Before(x: Level, y: Level, descending: bool) {
    if descending then x.price > y.price else x.price < y.price
  }

  ghost predicate StrictlyOrdered(s: seq<Level>, descending: bool) {
    forall i, j :: 0 <= i < j < |s| ==> Before(s[i], s[j], descending)
  }

  ghost predicate DistinctPrices(s: seq<Level>) {
    forall i, j :: 0 <= i < j < |s| ==> s[i].price != s[j].price
  }

  /** Some entry of `kept` is at price px. */
  ghost predicate HasPrice(kept: seq<Level>, px: real) {
    exists k :: 0 <= k < |kept| && kept[k].price == px
  }

  /** Every price of `levels` has an entry in `kept`. */
  ghost predicate Covers(kept: seq<Level>, levels: seq<Level>) {
    forall i :: 0 <= i < |levels| ==> HasPrice(kept, levels[i].price)
  }

  /** Every entry of `kept` is one of `levels`. */
  ghost predicate Drawn(kept: seq<Level>, levels: seq<Level>) {
    forall k :: 0 <= k < |kept| ==> kept[k] in levels
  }

  lemma DrawnFrom(kept: seq<Level>, levels: seq<Level>)
    requires Drawn(kept, levels)
    ensures forall l :: l in kept ==> l in levels
  {
    forall l | l in kept
      ensures l in levels
    {
      var k :| 0 <= k < |kept| && kept[k] == l;
    }
  }

  /** No entry of `kept` has a larger level than an input at its price. */
  ghost predicate Closest(kept: seq<Level>, levels: seq<Level>) {
    forall k, i :: 0 <= k < |kept| && 0 <= i < |levels| && levels[i].price == kept[k].price ==>
      kept[k].level <= levels[i].level
  }

  /** What `dedupe(levels, side)` returns: one entry per distinct input
      price, that entry taken from the input with the smallest level among
      those at its price, sorted strictly by price. */
  ghost predicate IsDedupe(out: seq<Level>, levels: seq<Level>, descending: bool) {
    && StrictlyOrdered(out, descending)
    && Covers(out, levels) && Drawn(out, levels) && Closest(out, levels)
    && |out| <= |levels|
  }

  /** The dict `seen` after the loop has visited `prefix`, in insertion order. */
  ghost predicate SeenInv(seen: seq<Level>, prefix: seq<Level>) {
    DistinctPrices(seen) && Covers(seen, prefix) && Drawn(seen, prefix) && Closest(seen, prefix)
  }

  /** Index of the entry of `seen` with price px, if any. */
  function FindPrice(seen: seq<Level>, px: real): (j: int)
    ensures -1 <= j < |seen|
    ensures j >= 0 ==> seen[j].price == px
    ensures j < 0 ==> forall k :: 0 <= k < |seen| ==> seen[k].price != px
  {
    if |seen| == 0 then -1
    else if seen[|seen| - 1].price == px then |seen| - 1
    else FindPrice(seen[..|seen| - 1], px)
  }

  /** A price not yet seen is inserted. */
  lemma SeenAddsNew(seen: seq<Level>, prefix: seq<Level>, l: Level)
    requires SeenInv(seen, prefix)
    requires forall k :: 0 <= k < |seen| ==> seen[k].price != l.price
    ensures SeenInv(seen + [l], prefix + [l])
  {
    var s', p' := seen + [l], prefix + [l];
    forall i | 0 <= i < |p'|
      ensures HasPrice(s', p'[i].price)
    {
      if i < |prefix| {
        var k :| 0 <= k < |seen| && seen[k].price == prefix[i].price;
        assert s'[k] == seen[k];
      } else {
        assert s'[|seen|] == l;
      }
    }
    forall k, i | 0 <= k < |s'| && 0 <= i < |p'| && p'[i].price == s'[k].price
      ensures s'[k].level <= p'[i].level
    {
      if k < |seen| && i == |prefix| {
        assert false;
      } else if k == |seen| && i < |prefix| {
        assert false;
      }
    }
  }

  /** A seen price met again at a smaller level takes the new entry. */
  lemma SeenReplaces(seen: seq<Level>, prefix: seq<Level>, l: Level, j: nat)
    requires SeenInv(seen, prefix)
    requires j < |seen| && seen[j].price == l.price && l.level < seen[j].level
    ensures SeenInv(seen[j := l], prefix + [l])
  {
    ReplacedDistinct(seen, l, j);
    ReplacedDrawn(seen, prefix, l, j);
    ReplacedCovers(seen, prefix, l, j);
    ReplacedClosest(seen, prefix, l, j);
  }

  lemma ReplacedDistinct(seen: seq<Level>, l: Level, j: nat)
    requires DistinctPrices(seen)
    requires j < |seen| && seen[j].price == l.price
    ensures DistinctPrices(seen[j := l])
  {
    var s' := seen[j := l];
    assert forall k :: 0 <= k < |s'| ==> s'[k].price == seen[k].price;
  }

  lemma ReplacedDrawn(seen: seq<Level>, prefix: seq<Level>, l: Level, j: nat)
    requires Drawn(seen, prefix) && j < |seen|
    ensures Drawn(seen[j := l], prefix + [l])
  {
    var s', p' := seen[j := l], prefix + [l];
    forall k | 0 <= k < |s'|
      ensures s'[k] in p'
    {
      if k != j {
        assert seen[k] in prefix;
      } else {
        assert p'[|prefix|] == l;
      }
    }
  }

  lemma ReplacedCovers(seen: seq<Level>, prefix: seq<Level>, l: Level, j: nat)
    requires Covers(seen, prefix)
    requires j < |seen| && seen[j].price == l.price
    ensures Covers(seen[j := l], prefix + [l])
  {
    var s', p' := seen[j := l], prefix + [l];
    forall i | 0 <= i < |p'|
      ensures HasPrice(s', p'[i].price)
    {
      if i < |prefix| {
        var k :| 0 <= k < |seen| && seen[k].price == prefix[i].price;
        assert p'[i] == prefix[i];
        assert 0 <= k < |s'| && s'[k].price == p'[i].price;
      } else {
        assert p'[i] == l;
        assert 0 <= j < |s'| && s'[j].price == p'[i].price;
      }
    }
  }

  lemma ReplacedClosest(seen: seq<Level>, prefix: seq<Level>, l: Level, j: nat)
    requires Closest(seen, prefix) && DistinctPrices(seen)
    requires j < |seen| && seen[j].price == l.price && l.level < seen[j].level
    ensures Closest(seen[j := l], prefix + [l])
  {
    var s', p' := seen[j := l], prefix + [l];
    forall k, i | 0 <= k < |s'| && 0 <= i < |p'| && p'[i].price == s'[k].price
      ensures s'[k].level <= p'[i].level
    {
      if i < |prefix| {
        assert p'[i] == prefix[i];
        if k == j {
          assert seen[j].level <= prefix[i].level;
        } else {
          assert s'[k] == seen[k];
        }
      } else if k != j {
        assert false;
      }
    }
  }



  /** A seen price met again at a level that is not smaller changes nothing. */
  lemma SeenKeeps(seen: seq<Level>, prefix: seq<Level>, l: Level, j: nat)
    requires SeenInv(seen, prefix)
    requires j < |seen| && seen[j].price == l.price && seen[j].level <= l.level
    ensures SeenInv(seen, prefix + [l])
  {
    var p' := prefix + [l];
    forall i | 0 <= i < |p'|
      ensures HasPrice(seen, p'[i].price)
    {
      if i == |prefix| {
        assert seen[j].price == p'[i].price;
      } else {
        assert p'[i] == prefix[i];
      }
    }
    forall k, i | 0 <= k < |seen| && 0 <= i < |p'| && p'[i].price == seen[k].price
      ensures seen[k].level <= p'[i].level
    {
      if i < |prefix| {
        assert p'[i] == prefix[i];
      }
    }
  }

  /** `sorted(..., key=price, reverse=descending)` of entries with distinct
      prices, by insertion. */
  function InsertByPrice(x: Level, s: seq<Level>, descending: bool): (r: seq<Level>)
    requires StrictlyOrdered(s, descending)
    requires forall y :: y in s ==> y.price != x.price
    ensures |r| == |s| + 1
    ensures r[0] == if |s| == 0 || Before(x, s[0], descending) then x else s[0]
    ensures StrictlyOrdered(r, descending)
    ensures multiset(r) == multiset(s) + multiset{x}
  {
    if |s| == 0 then [x]
    else if Before(x, s[0], descending) then
      OrderedPrepend(x, s, descending);
      [x] + s
    else
      var rest := InsertByPrice(x, s[1..], descending);
      assert s == [s[0]] + s[1..];
      OrderedPrepend(s[0], rest, descending);
      [s[0]] + rest
  }

  lemma OrderedPrepend(h: Level, t: seq<Level>, descending: bool)
    requires StrictlyOrdered(t, descending)
    requires |t| > 0 ==> Before(h, t[0], descending)
    ensures StrictlyOrdered([h] + t, descending)
  {
  }

  lemma DistinctTail(s: seq<Level>)
    requires |s| > 0 && DistinctPrices(s)
    ensures DistinctPrices(s[1..])
    ensures forall y :: y in s[1..] ==> y.price != s[0].price
    ensures multiset(s) == multiset(s[1..]) + multiset{s[0]}
  {
    assert s == [s[0]] + s[1..];
  }

  lemma SameMembers(r: seq<Level>, s: seq<Level>)
    requires multiset(r) == multiset(s)
    ensures forall y :: y in r ==> y in s
  {
    forall y | y in r
      ensures y in s
    {
      assert y in multiset(r);
    }
  }

  /** The sort of entries with distinct prices is strictly ordered and a
      permutation. */
  function SortByPrice(s: seq<Level>, descending: bool): (r: seq<Level>)
    requires DistinctPrices(s)
    ensures StrictlyOrdered(r, descending)
    ensures multiset(r) == multiset(s)
  {
    if |s| == 0 then []
    else
      DistinctTail(s);
      var rest := SortByPrice(s[1..], descending);
      SameMembers(rest, s[1..]);
      InsertByPrice(s[0], rest, descending)
  }

  /** Sorting what the loop kept gives the de-duplicated side. */
  lemma SortedSeenIsDedupe(seen: seq<Level>, levels: seq<Level>, out: seq<Level>, descending: bool)
    requires SeenInv(seen, levels) && |seen| <= |levels|
    requires StrictlyOrdered(out, descending)
    requires multiset(out) == multiset(seen)
    ensures IsDedupe(out, levels, descending)
  {
    SameMembers(out, seen);
    SameMembers(seen, out);
    PermutedDrawn(seen, levels, out);
    PermutedCovers(seen, levels, out);
    PermutedClosest(seen, levels, out);
    assert |out| == |multiset(out)| == |multiset(seen)| == |seen|;
  }

  lemma PermutedDrawn(seen: seq<Level>, levels: seq<Level>, out: seq<Level>)
    requires Drawn(seen, levels)
    requires forall y :: y in out ==> y in seen
    ensures Drawn(out, levels)
  {
    forall k | 0 <= k < |out|
      ensures out[k] in levels
    {
      assert out[k] in out;
      var k' :| 0 <= k' < |seen| && seen[k'] == out[k];
    }
  }

  lemma PermutedCovers(seen: seq<Level>, levels: seq<Level>, out: seq<Level>)
    requires Covers(seen, levels)
    requires forall y :: y in seen ==> y in out
    ensures Covers(out, levels)
  {
    forall i | 0 <= i < |levels|
      ensures HasPrice(out, levels[i].price)
    {
      var k :| 0 <= k < |seen| && seen[k].price == levels[i].price;
      assert seen[k] in seen;
      var k' :| 0 <= k' < |out| && out[k'] == seen[k];
    }
  }

  lemma PermutedClosest(seen: seq<Level>, levels: seq<Level>, out: seq<Level>)
    requires Closest(seen, levels)
    requires forall y :: y in out ==> y in seen
    ensures Closest(out, levels)
  {
    forall k, i | 0 <= k < |out| && 0 <= i < |levels| && levels[i].price == out[k].price
      ensures out[k].level <= levels[i].level
    {
      assert out[k] in out;
      var k' :| 0 <= k' < |seen| && seen[k'] == out[k];
    }
  }


  /** `dedupe(levels, side)`: a dict from price to the entry with the smallest
      level, then sorted by price. */
  method Dedupe(levels: seq<Level>, descending: bool) returns (out: seq<Level>)
    ensures IsDedupe(out, levels, descending)
  {
    var seen: seq<Level> := [];
    for i := 0 to |levels|
      invariant |seen| <= i
      invariant SeenInv(seen, levels[..i])
    {
      var l := levels[i];
      assert levels[..i + 1] == levels[..i] + [l];
      var j := FindPrice(seen, l.price);
      if j < 0 {
        SeenAddsNew(seen, levels[..i], l);
        seen := seen + [l];
      } else if l.level < seen[j].level {
        SeenReplaces(seen, levels[..i], l, j);
        seen := seen[j := l];
      } else {
        SeenKeeps(seen, levels[..i], l, j);
      }
    }
    assert levels[..|levels|] == levels;
    out := SortByPrice(seen, descending);
    SortedSeenIsDedupe(seen, levels, out, descending);
  }

  // ---------------------------------------------------------------------
  // The ladder

  /** The bids loop with what it has appended so far in `acc`. */
  function BidsAcc(f: Fns, a: LadderArgs, i: nat, n: nat, acc: seq<Level>): seq<Level>
    requires Laws(f)
    requires a.tick != 0.0
    decreases n - i
  {
    if i >= n then acc
    else
      var l := BidLevel(f, a, i);
      if l.price <= PriceFloor then acc else BidsAcc(f, a, i + 1, n, acc + [l])
  }

  /** The loop appends exactly the bids from level i. */
  lemma {:induction false} BidsAccFrom(f: Fns, a: LadderArgs, i: nat, n: nat, acc: seq<Level>)
    requires Laws(f)
    requires a.tick != 0.0
    ensures BidsAcc(f, a, i, n, acc) == acc + BidsFrom(f, a, i, n)
    decreases n - i
  {
    if i < n && BidLevel(f, a, i).price > PriceFloor {
      var l := BidLevel(f, a, i);
      BidsAccFrom(f, a, i + 1, n, acc + [l]);
      assert acc + [l] + BidsFrom(f, a, i + 1, n) == acc + ([l] + BidsFrom(f, a, i + 1, n));
    }
  }

  /** The bid loop of `build_v1_ladder`, before de-duplication. */
  method BuildBids(f: Fns, a: LadderArgs, n: nat) returns (bids: seq<Level>)
    requires Laws(f)
    requires a.tick != 0.0
    ensures bids == BidsFrom(f, a, 0, n)
  {
    bids := [];
    var i := 0;
    while i < n
      invariant 0 <= i <= n
      invariant BidsAcc(f, a, i, n, bids) == BidsAcc(f, a, 0, n, [])
    {
      var x := BidLogit(a, i);
      var p := Sigmoid(f, x);
      p := FloorToTick(p, a.tick);
      assert p == BidPrice(f, a, i);
      if p <= PriceFloor {
        break;
      }
      var size := BidSize(a, i, p);
      bids := bids + [Level(i, p, size)];
      i := i + 1;
    }
    BidsAccFrom(f, a, 0, n, []);
  }

  /** The asks loop with what it has appended so far in `acc`. */
  function AsksAcc(f: Fns, a: LadderArgs, i: nat, n: nat, acc: seq<Level>): seq<Level>
    requires Laws(f)
    requires a.tick != 0.0
    decreases n - i
  {
    if i >= n then acc
    else
      var l := AskLevel(f, a, i);
      if l.price >= PriceCap then acc else AsksAcc(f, a, i + 1, n, acc + [l])
  }

  /** The loop appends exactly the asks from level i. */
  lemma {:induction false} AsksAccFrom(f: Fns, a: LadderArgs, i: nat, n: nat, acc: seq<Level>)
    requires Laws(f)
    requires a.tick != 0.0
    ensures AsksAcc(f, a, i, n, acc) == acc + AsksFrom(f, a, i, n)
    decreases n - i
  {
    if i < n && AskLevel(f, a, i).price < PriceCap {
      var l := AskLevel(f, a, i);
      AsksAccFrom(f, a, i + 1, n, acc + [l]);
      assert acc + [l] + AsksFrom(f, a, i + 1, n) == acc + ([l] + AsksFrom(f, a, i + 1, n));
    }
  }

  /** The ask loop of `build_v1_ladder`, before de-duplication. */
  method BuildAsks(f: Fns, a: LadderArgs, n: nat) returns (asks: seq<Level>)
    requires Laws(f)
    requires a.tick != 0.0
    ensures asks == AsksFrom(f, a, 0, n)
  {
    asks := [];
    var i := 0;
    while i < n
      invariant 0 <= i <= n
      invariant AsksAcc(f, a, i, n, asks) == AsksAcc(f, a, 0, n, [])
    {
      var x := AskLogit(a, i);
      var p := Sigmoid(f, x);
      p := CeilToTick(p, a.tick);
      assert p == AskPrice(f, a, i);
      if p >= PriceCap {
        break;
      }
      var size := AskSize(a, i, p);
      asks := asks + [Level(i, p, size)];
      i := i + 1;
    }
    AsksAccFrom(f, a, 0, n, []);
  }

  /** `build_v1_ladder(...)`: both sides, each de-duplicated. A zero tick is
      excluded: the source divides by it. */
  method BuildV1Ladder(f: Fns, a: LadderArgs) returns (r: Ladder)
    requires Laws(f)
    requires a.tick != 0.0
    ensures IsDedupe(r.bids, BidsFrom(f, a, 0, Iterations(BidCount(f, a))), true)
    ensures IsDedupe(r.asks, AsksFrom(f, a, 0, Iterations(AskCount(f, a))), false)
  {
    var bids := BuildBids(f, a, Iterations(BidCount(f, a)));
    var asks := BuildAsks(f, a, Iterations(AskCount(f, a)));
    var dBids := Dedupe(bids, true);
    var dAsks := Dedupe(asks, false);
    r := Ladder(dBids, dAsks);
  }

  /** For a positive tick every quoted bid lies in (0.001, 1) and every ask in
      (0, 0.999); levels stay below max_levels and sizes are non-negative for a
      non-negative budget and decay. */
  lemma LadderInRange(f: Fns, a: LadderArgs, r: Ladder)
    requires Laws(f)
    requires a.tick > 0.0
    requires IsDedupe(r.bids, BidsFrom(f, a, 0, Iterations(BidCount(f, a))), true)
    requires IsDedupe(r.asks, AsksFrom(f, a, 0, Iterations(AskCount(f, a))), false)
    ensures forall l :: l in r.bids ==>
              && PriceFloor < l.price < 1.0 && l.level < a.maxLevels
              && (a.bSide >= 0.0 && a.decay >= 0.0 ==> l.size >= 0.0)
    ensures forall l :: l in r.asks ==>
              && 0.0 < l.price < PriceCap && l.level < a.maxLevels
              && (a.bSide >= 0.0 && a.decay >= 0.0 ==> l.size >= 0.0)
  {
    BidsInRange(f, a, Iterations(BidCount(f, a)));
    AsksInRange(f, a, Iterations(AskCount(f, a)));
  }

  /** Each side has at most max_levels entries, and none at all when the step
      is degenerate. */
  lemma LadderCount(f: Fns, a: LadderArgs, r: Ladder)
    requires Laws(f)
    requires a.tick != 0.0
    requires IsDedupe(r.bids, BidsFrom(f, a, 0, Iterations(BidCount(f, a))), true)
    requires IsDedupe(r.asks, AsksFrom(f, a, 0, Iterations(AskCount(f, a))), false)
    ensures |r.bids| <= a.maxLevels || r.bids == []
    ensures |r.asks| <= a.maxLevels || r.asks == []
    ensures BaseStep(a) <= MinBaseStep ==> r.bids == [] && r.asks == []
  {
  }

  /** Bid level i never sits above ask level j once the step is positive and
      the two half-spreads do not overlap. */
  lemma BidBelowAsk(f: Fns, a: LadderArgs, i: nat, j: nat)
    requires Laws(f)
    requires a.tick > 0.0
    requires BaseStep(a) >= 0.0 && a.halfB + a.halfA >= 0.0
    ensures BidPrice(f, a, i) <= AskPrice(f, a, j)
  {
    BidPriceBounds(f, a, i);
    AskPriceBounds(f, a, j);
    assert BidLogit(a, i) <= BidStart(a) <= AskStart(a) <= AskLogit(a, j);
    SigmoidMonotone(f, BidLogit(a, i), AskLogit(a, j));
  }

  /** Every bid a side generates sits at or below every generated ask. */
  lemma SidesNotCrossed(f: Fns, a: LadderArgs, nb: nat, na: nat)
    requires Laws(f)
    requires a.tick > 0.0
    requires BaseStep(a) >= 0.0 && a.halfB + a.halfA >= 0.0
    ensures forall b, s :: b in BidsFrom(f, a, 0, nb) && s in AsksFrom(f, a, 0, na) ==> b.price <= s.price
  {
    var bs, as_ := BidsFrom(f, a, 0, nb), AsksFrom(f, a, 0, na);
    forall b, s | b in bs && s in as_
      ensures b.price <= s.price
    {
      var k :| 0 <= k < |bs| && bs[k] == b;
      var m :| 0 <= m < |as_| && as_[m] == s;
      BidEntryPrice(f, a, nb, k);
      AskEntryPrice(f, a, na, m);
      BidBelowAsk(f, a, k, m);
    }
  }

  lemma BidEntryPrice(f: Fns, a: LadderArgs, n: nat, k: nat)
    requires Laws(f)
    requires a.tick != 0.0
    requires k < |BidsFrom(f, a, 0, n)|
    ensures BidsFrom(f, a, 0, n)[k].price == BidPrice(f, a, k)
  {
    BidAt(f, a, 0, n, k);
  }

  lemma AskEntryPrice(f: Fns, a: LadderArgs, n: nat, k: nat)
    requires Laws(f)
    requires a.tick != 0.0
    requires k < |AsksFrom(f, a, 0, n)|
    ensures AsksFrom(f, a, 0, n)[k].price == AskPrice(f, a, k)
  {
    AskAt(f, a, 0, n, k);
  }

  /** The ladder never crosses itself: with a positive tick and non-negative
      total half-spread, every bid price is at or below every ask price. */
  lemma LadderNotCrossed(f: Fns, a: LadderArgs, r: Ladder)
    requires Laws(f)
    requires a.tick > 0.0
    requires a.halfB + a.halfA >= 0.0
    requires IsDedupe(r.bids, BidsFrom(f, a, 0, Iterations(BidCount(f, a))), true)
    requires IsDedupe(r.asks, AsksFrom(f, a, 0, Iterations(AskCount(f, a))), false)
    ensures forall b, s :: b in r.bids && s in r.asks ==> b.price <= s.price
  {
    var nb, na := Iterations(BidCount(f, a)), Iterations(AskCount(f, a));
    var bs, as_ := BidsFrom(f, a, 0, nb), AsksFrom(f, a, 0, na);
    if BaseStep(a) > MinBaseStep {
      SidesNotCrossed(f, a, nb, na);
      DrawnFrom(r.bids, bs);
      DrawnFrom(r.asks, as_);
    } else {
      assert nb == 0;
      assert bs == [];
      assert r.bids == [];
    }
  }

  /** With a budget and a decay in [0, 1], each level risks no more than the
      one before it. */
  lemma {:induction false} LevelRiskDecays(a: LadderArgs, i: nat)
    requires a.bSide >= 0.0 && 0.0 <= a.decay <= 1.0
    ensures LevelRisk(a, i + 1) <= LevelRisk(a, i)
  {
    var pw, unit := Power(a.decay, i), a.bSide * RiskShare;
    assert Power(a.decay, i + 1) == a.decay * pw;
    MulMonotone(pw, a.decay, 1.0);
    assert a.decay * pw <= pw by {
      assert pw * a.decay == a.decay * pw;
      assert pw * 1.0 == pw;
    }
    MulMonotone(unit, a.decay * pw, pw);
    assert LevelRisk(a, i + 1) == unit * (a.decay * pw);
    assert LevelRisk(a, i) == unit * pw;
  }
}
