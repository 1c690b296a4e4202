/** The order-book state tracker of pm4/market_data.py: a `BookState` record
    updated in place by four feed handlers, a bounded history of trade
    timestamps, and the windowed trade-rate query. Feed messages arrive as
    already-decoded values; logging is left out. */
module Feed {
  import opened Wrappers
  import opened Utils
  import opened Deques
  import RealMath

  /** `deque(maxlen=5000)` for the trade timestamps. */
  const TradeHistoryCap: nat := 5000

  /** The value of `best_bid` or `best_ask` in one `price_changes` entry: the
      key may be absent, hold None, hold something `float()` accepts, or hold
      something it rejects with ValueError/TypeError. */
  datatype PriceField = Missing | Null | Parsed(value: real) | Unparsable

  datatype PriceChange = PriceChange(bestBid: PriceField, bestAsk: PriceField)

  datatype QuoteSide = BidSide | AskSide

  function FieldOf(pc: PriceChange, side: QuoteSide): PriceField {
    if side == BidSide then pc.bestBid else pc.bestAsk
  }

  /** A `book` message: each side is a list of levels, given here by their
      prices; a key may be missing. */
  datatype BookMsg = BookMsg(
    bids: Option<seq<real>>, buys: Option<seq<real>>,
    asks: Option<seq<real>>, sells: Option<seq<real>>,
    timestamp: Option<int>)

  /** `msg.get(primary) or msg.get(alternate) or []`: a missing key and an
      empty list are both falsy. */
  function FirstNonEmpty(primary: Option<seq<real>>, alternate: Option<seq<real>>): (r: seq<real>)
    ensures primary.Some? && |primary.value| > 0 ==> r == primary.value
    ensures !(primary.Some? && |primary.value| > 0) && alternate.Some? ==> r == alternate.value
    ensures primary.None? && alternate.None? ==> r == []
  {
    if primary.Some? && |primary.value| > 0 then primary.value
    else if alternate.Some? && |alternate.value| > 0 then alternate.value
    else []
  }

  /** The mid that `_update_mid` leaves behind: the midpoint of a valid book,
      otherwise the previous mid. */
  function MidAfter(bid: real, ask: real, mid: real): (r: real)
    ensures 0.0 < bid && ask < 1.0 && bid < ask ==> bid < r < ask
    ensures !(0.0 < bid && ask < 1.0 && bid < ask) ==> r == mid
    ensures 0.0 < mid < 1.0 ==> 0.0 < r < 1.0
  {
    if bid > 0.0 && ask < 1.0 && bid < ask then 0.5 * (bid + ask) else mid
  }

  /** The value the loop of `on_price_change` ends with for one side: the
      last entry whose field parsed, if any. */
  function LastParsed(pcs: seq<PriceChange>, side: QuoteSide): Option<real> {
    if pcs == [] then None
    else match FieldOf(pcs[|pcs| - 1], side)
      case Parsed(v) => Some(v)
      case _ => LastParsed(pcs[..|pcs| - 1], side)
  }

  /** LastParsed finds a value exactly when some entry parses. */
  lemma {:induction false} LastParsedFound(pcs: seq<PriceChange>, side: QuoteSide)
    ensures LastParsed(pcs, side).Some? <==> exists j :: 0 <= j < |pcs| && FieldOf(pcs[j], side).Parsed?
  {
    if pcs != [] {
      var init := pcs[..|pcs| - 1];
      LastParsedFound(init, side);
      if !FieldOf(pcs[|pcs| - 1], side).Parsed? {
        assert forall j :: 0 <= j < |init| ==> init[j] == pcs[j];
      }
    }
  }

  /** The value LastParsed picks is that of the last parseable entry. */
  lemma {:induction false} LastParsedIsLastValid(pcs: seq<PriceChange>, side: QuoteSide)
    requires LastParsed(pcs, side).Some?
    ensures exists j :: 0 <= j < |pcs| && FieldOf(pcs[j], side) == Parsed(LastParsed(pcs, side).value)
                        && forall k :: j < k < |pcs| ==> !FieldOf(pcs[k], side).Parsed?
  {
    var init := pcs[..|pcs| - 1];
    if FieldOf(pcs[|pcs| - 1], side).Parsed? {
      assert FieldOf(pcs[|pcs| - 1], side) == Parsed(LastParsed(pcs, side).value);
    } else {
      LastParsedIsLastValid(init, side);
      var j :| 0 <= j < |init| && FieldOf(init[j], side) == Parsed(LastParsed(init, side).value)
        && forall k :: j < k < |init| ==> !FieldOf(init[k], side).Parsed?;
      assert init[j] == pcs[j];
      assert forall k :: j < k < |init| ==> init[k] == pcs[k];
    }
  }

  /** The number of trailing entries of `ts` that are >= cutoff: what the
      backward loop with an early break counts. */
  function RecentCount(ts: seq<int>, cutoff: int): (n: nat)
    ensures n <= |ts|
    ensures forall k :: |ts| - n <= k < |ts| ==> ts[k] >= cutoff
    ensures n < |ts| ==> ts[|ts| - 1 - n] < cutoff
  {
    if ts == [] || ts[|ts| - 1] < cutoff then 0
    else 1 + RecentCount(ts[..|ts| - 1], cutoff)
  }

  /** Trades per second of window; the window is floored at 1e-9 s. */
  function Rate(count: nat, windowS: real): (r: real)
    ensures r >= 0.0
  {
    assert count as real / Max(windowS, 0.000000001) >= 0.0 by {
      RealMath.DivideMonotone(0.0, count as real, Max(windowS, 0.000000001));
    }
    count as real / Max(windowS, 0.000000001)
  }

  /** The backward loop from position i with n trades counted so far. */
  function RecentAcc(ts: seq<int>, i: nat, cutoff: int, n: nat): nat
    requires i <= |ts|
  {
    if i == 0 || ts[i - 1] < cutoff then n else RecentAcc(ts, i - 1, cutoff, n + 1)
  }

  /** The loop adds to n exactly the trailing count of the first i entries. */
  lemma {:induction false} RecentAccCount(ts: seq<int>, i: nat, cutoff: int, n: nat)
    requires i <= |ts|
    ensures RecentAcc(ts, i, cutoff, n) == n + RecentCount(ts[..i], cutoff)
  {
    if i > 0 && ts[i - 1] >= cutoff {
      RecentAccCount(ts, i - 1, cutoff, n + 1);
      assert ts[..i][..i - 1] == ts[..i - 1];
    }
  }

  /** The number of all entries of `ts` that are >= cutoff. */
  function CountAtLeast(ts: seq<int>, cutoff: int): nat {
    if ts == [] then 0
    else CountAtLeast(ts[..|ts| - 1], cutoff) + (if ts[|ts| - 1] >= cutoff then 1 else 0)
  }

  predicate NonDecreasing(ts: seq<int>) {
    forall i, j :: 0 <= i <= j < |ts| ==> ts[i] <= ts[j]
  }

  lemma {:induction false} NoneAtLeast(ts: seq<int>, cutoff: int)
    requires NonDecreasing(ts)
    requires ts == [] || ts[|ts| - 1] < cutoff
    ensures CountAtLeast(ts, cutoff) == 0
  {
    if ts != [] {
      var init := ts[..|ts| - 1];
      assert init == [] || init[|init| - 1] <= ts[|ts| - 1];
      NoneAtLeast(init, cutoff);
    }
  }

  /** When the timestamps arrive in order, the early break loses nothing:
      the backward count is the number of trades in the window. */
  lemma {:induction false} RecentCountOfSorted(ts: seq<int>, cutoff: int)
    requires NonDecreasing(ts)
    ensures RecentCount(ts, cutoff) == CountAtLeast(ts, cutoff)
  {
    if ts != [] {
      var init := ts[..|ts| - 1];
      if ts[|ts| - 1] < cutoff {
        NoneAtLeast(ts, cutoff);
      } else {
        RecentCountOfSorted(init, cutoff);
      }
    }
  }

  /** Appending a timestamp no older than the newest keeps the bounded
      history in order. */
  lemma AppendKeepsOrder(ts: seq<int>, t: int)
    requires |ts| <= TradeHistoryCap
    ensures NonDecreasing(ts) && (ts == [] || ts[|ts| - 1] <= t) ==>
      NonDecreasing(BoundedAppend(ts, t, TradeHistoryCap))
  {
    if NonDecreasing(ts) && (ts == [] || ts[|ts| - 1] <= t) {
      var all := ts + [t];
      assert NonDecreasing(all);
      var r := BoundedAppend(ts, t, TradeHistoryCap);
      var d := |ts| + 1 - |r|;
      assert forall k :: 0 <= k < |r| ==> r[k] == all[k + d];
    }
  }

  /** The `BookState` dataclass, with its defaults. */
  class BookState {
    var bestBid: real
    var bestAsk: real
    var mid: real
    var tickSize: real
    var lastTradePrice: Option<real>
    var lastBookTsMs: int
    var lastTradeTsMs: int

    constructor ()
      ensures bestBid == 0.0 && bestAsk == 1.0 && mid == 0.5 && tickSize == 0.01
      ensures lastTradePrice == None && lastBookTsMs == 0 && lastTradeTsMs == 0
    {
      bestBid, bestAsk, mid, tickSize := 0.0, 1.0, 0.5, 0.01;
      lastTradePrice, lastBookTsMs, lastTradeTsMs := None, 0, 0;
    }
  }

  class MarketData {
    const state: BookState
    var tradeTs: seq<int>

    /** The tracker's invariant: the mid is a probability strictly inside
        (0,1) and the trade history respects its bound. */
    ghost predicate Valid()
      reads this, state
    {
      0.0 < state.mid < 1.0 && |tradeTs| <= TradeHistoryCap
    }

    constructor ()
      ensures Valid() && fresh(state)
      ensures state.bestBid == 0.0 && state.bestAsk == 1.0 && state.mid == 0.5
      ensures state.tickSize == 0.01 && tradeTs == []
    {
      state := new BookState();
      tradeTs := [];
    }

    /** `_update_mid`: writes the mid only from a valid book. */
    method UpdateMid()
      requires Valid()
      modifies state`mid
      ensures Valid()
      ensures state.mid == MidAfter(state.bestBid, state.bestAsk, old(state.mid))
    {
      var b, a := state.bestBid, state.bestAsk;
      if b > 0.0 && a < 1.0 && b < a {
        state.mid := 0.5 * (b + a);
      }
    }

    /** `on_book`: the first level of each side (bids, else buys; asks,
        else sells) becomes the best price; an empty side keeps its price. */
    method OnBook(msg: BookMsg, now: int)
      requires Valid()
      modifies state`bestBid, state`bestAsk, state`lastBookTsMs, state`mid
      ensures Valid()
      ensures var bids := FirstNonEmpty(msg.bids, msg.buys);
              state.bestBid == if |bids| > 0 then bids[0] else old(state.bestBid)
      ensures var asks := FirstNonEmpty(msg.asks, msg.sells);
              state.bestAsk == if |asks| > 0 then asks[0] else old(state.bestAsk)
      ensures state.lastBookTsMs == msg.timestamp.GetOr(now)
      ensures state.mid == MidAfter(state.bestBid, state.bestAsk, old(state.mid))
      ensures tradeTs == old(tradeTs) && state.lastTradePrice == old(state.lastTradePrice)
      ensures state.lastTradeTsMs == old(state.lastTradeTsMs) && state.tickSize == old(state.tickSize)
    {
      var bids := FirstNonEmpty(msg.bids, msg.buys);
      var asks := FirstNonEmpty(msg.asks, msg.sells);
      if |bids| > 0 {
        state.bestBid := bids[0];
      }
      if |asks| > 0 {
        state.bestAsk := asks[0];
      }
      state.lastBookTsMs := msg.timestamp.GetOr(now);
      UpdateMid();
    }

    /** `on_price_change`: per side the last parseable value across the
        entries wins; a side without one keeps its price. */
    method OnPriceChange(changes: seq<PriceChange>, timestamp: Option<int>, now: int)
      requires Valid()
      modifies state`bestBid, state`bestAsk, state`lastBookTsMs, state`mid
      ensures Valid()
      ensures state.bestBid == LastParsed(changes, BidSide).GetOr(old(state.bestBid))
      ensures state.bestAsk == LastParsed(changes, AskSide).GetOr(old(state.bestAsk))
      ensures state.lastBookTsMs == timestamp.GetOr(now)
      ensures state.mid == MidAfter(state.bestBid, state.bestAsk, old(state.mid))
      ensures tradeTs == old(tradeTs) && state.lastTradePrice == old(state.lastTradePrice)
      ensures state.lastTradeTsMs == old(state.lastTradeTsMs) && state.tickSize == old(state.tickSize)
    {
      var bestBid: Option<real> := None;
      var bestAsk: Option<real> := None;
      for i := 0 to |changes|
        invariant bestBid == LastParsed(changes[..i], BidSide)
        invariant bestAsk == LastParsed(changes[..i], AskSide)
      {
        assert changes[..i + 1][..i] == changes[..i];
        var pc := changes[i];
        if pc.bestBid.Parsed? {
          bestBid := Some(pc.bestBid.value);
        }
        if pc.bestAsk.Parsed? {
          bestAsk := Some(pc.bestAsk.value);
        }
      }
      assert changes[..|changes|] == changes;
      if bestBid.Some? {
        state.bestBid := bestBid.value;
      }
      if bestAsk.Some? {
        state.bestAsk := bestAsk.value;
      }
      state.lastBookTsMs := timestamp.GetOr(now);
      UpdateMid();
    }

    /** `on_tick_size_change`: changes the tick size and nothing else. */
    method OnTickSizeChange(newTickSize: real)
      requires Valid()
      modifies state`tickSize
      ensures Valid()
      ensures state.tickSize == newTickSize
    {
      state.tickSize := newTickSize;
    }

    /** `on_last_trade_price`: records the trade and appends exactly one
        timestamp to the bounded history; the book is untouched. */
    method OnLastTradePrice(price: real, timestamp: Option<int>, now: int)
      requires Valid()
      modifies this`tradeTs, state`lastTradePrice, state`lastTradeTsMs
      ensures Valid()
      ensures state.lastTradePrice == Some(price)
      ensures state.lastTradeTsMs == timestamp.GetOr(now)
      ensures tradeTs == BoundedAppend(old(tradeTs), timestamp.GetOr(now), TradeHistoryCap)
      ensures NonDecreasing(old(tradeTs)) && (old(tradeTs) == [] || old(tradeTs)[|old(tradeTs)| - 1] <= timestamp.GetOr(now))
              ==> NonDecreasing(tradeTs)
      ensures state.bestBid == old(state.bestBid) && state.bestAsk == old(state.bestAsk)
      ensures state.mid == old(state.mid) && state.tickSize == old(state.tickSize)
    {
      var ts := timestamp.GetOr(now);
      AppendKeepsOrder(tradeTs, ts);
      state.lastTradePrice := Some(price);
      state.lastTradeTsMs := ts;
      tradeTs := BoundedAppend(tradeTs, ts, TradeHistoryCap);
    }

    /** `trade_rate_per_s`: 0 on an empty history, otherwise the number of
        trailing timestamps at or after now - window, per second of window. */
    method TradeRatePerS(windowS: real, now: int) returns (rate: real)
      ensures tradeTs == [] ==> rate == 0.0
      ensures tradeTs != [] ==>
        rate == Rate(RecentCount(tradeTs, now - Trunc(windowS * 1000.0)), windowS)
      ensures rate >= 0.0
    {
      if tradeTs == [] {
        return 0.0;
      }
      var cutoff := now - Trunc(windowS * 1000.0);
      var n := 0;
      var i := |tradeTs|;
      while i > 0
        invariant 0 <= i <= |tradeTs|
        invariant RecentAcc(tradeTs, i, cutoff, n) == RecentAcc(tradeTs, |tradeTs|, cutoff, 0)
      {
        if tradeTs[i - 1] < cutoff {
          break;
        }
        n := n + 1;
        i := i - 1;
      }
      RecentAccCount(tradeTs, |tradeTs|, cutoff, 0);
      assert tradeTs[..|tradeTs|] == tradeTs;
      rate := Rate(n, windowS);
    }
  }
}
