/** The order-diffing decision of `MarketMakerBot._reconcile`: the open
    orders of the quoted asset are indexed by price, one dictionary per side;
    every wanted order is matched against the existing prices and kept,
    replaced or placed; every existing price that no wanted order claimed is
    cancelled. The exchange calls become a list of planned actions. */
module Reconcile {
  import opened Wrappers
  import opened Utils
  import opened Risk
  import opened Quoting

  /** Two prices closer than this are the same level. */
  const PriceTolerance: real := 0.000000001
  /** Floor of the size an order's relative size difference is taken against. */
  const SizeFloor: real := 0.000000001
  /** A relative size difference above this replaces the order. */
  const ResizeThreshold: real := 0.25

  /** An open order as the exchange lists it; `size_remaining` and `size` may
      be absent. */
  datatype OpenOrder = OpenOrder(orderId: string, assetId: string, side: string, price: real,
                                 sizeRemaining: Option<real>, size: Option<real>)

  /** What the bot asks the exchange to do. */
  datatype Action = Cancel(orderId: string) | Place(order: Order)

  /** A dictionary keyed by price, as its entries in insertion order. */
  type PriceMap = seq<(real, OpenOrder)>

  /** `size_remaining`, else `size`, else 0. */
  function CurrentSize(o: OpenOrder): real {
    o.sizeRemaining.GetOr(o.size.GetOr(0.0))
  }

  /** |wanted - current| / max(current, 1e-9). */
  function SizeDiff(wanted: real, current: real): (d: real)
    ensures d >= 0.0
    ensures d == 0.0 <==> wanted == current
  {
    Abs(wanted - current) / Max(current, SizeFloor)
  }

  // ---------------------------------------------------------------------
  // Price dictionaries

  ghost function Keys(m: PriceMap): set<real> {
    if m == [] then {} else {m[0].0} + Keys(m[1..])
  }

  /** No key occurs twice. */
  ghost predicate DistinctKeys(m: PriceMap) {
    m == [] || (m[0].0 !in Keys(m[1..]) && DistinctKeys(m[1..]))
  }

  /** `d[p]`, or None when p is not a key. */
  function Lookup(m: PriceMap, p: real): (r: Option<OpenOrder>)
    ensures r.Some? <==> p in Keys(m)
  {
    if m == [] then None
    else if m[0].0 == p then Some(m[0].1)
    else Lookup(m[1..], p)
  }

  /** `d[p] = o`: an existing key keeps its place and takes the new value,
      a new key goes at the end. */
  function Put(m: PriceMap, p: real, o: OpenOrder): (r: PriceMap)
    ensures Keys(r) == Keys(m) + {p}
    ensures Lookup(r, p) == Some(o)
    ensures forall q :: q != p ==> Lookup(r, q) == Lookup(m, q)
    ensures DistinctKeys(m) ==> DistinctKeys(r)
  {
    if m == [] then [(p, o)]
    else if m[0].0 == p then
      assert ([(p, o)] + m[1..])[1..] == m[1..];
      [(p, o)] + m[1..]
    else
      var t := Put(m[1..], p, o);
      assert ([m[0]] + t)[1..] == t;
      [m[0]] + t
  }

  /** An order goes in the dictionary of `side` when it is for the quoted
      asset and on that side. */
  predicate Listed(o: OpenOrder, asset: string, side: string) {
    o.assetId == asset && o.side == side
  }

  /** The price dictionary of one side, built by writing the listed orders
      in turn. */
  function Book(orders: seq<OpenOrder>, asset: string, side: string): (m: PriceMap)
    ensures DistinctKeys(m)
  {
    if orders == [] then []
    else
      var o := orders[|orders| - 1];
      var m := Book(orders[..|orders| - 1], asset, side);
      if Listed(o, asset, side) then Put(m, o.price, o) else m
  }

  /** Reference: the last listed order at price p. */
  function LastAt(orders: seq<OpenOrder>, asset: string, side: string, p: real): Option<OpenOrder> {
    if orders == [] then None
    else
      var o := orders[|orders| - 1];
      if Listed(o, asset, side) && o.price == p then Some(o)
      else LastAt(orders[..|orders| - 1], asset, side, p)
  }

  /** Later orders at the same price overwrite earlier ones: the dictionary
      holds, at every price, the last listed order at that price, and has a
      key exactly where some listed order has that price. */
  lemma {:induction false} BookIsLastWrite(orders: seq<OpenOrder>, asset: string, side: string, p: real)
    ensures Lookup(Book(orders, asset, side), p) == LastAt(orders, asset, side, p)
  {
    if orders != [] {
      BookIsLastWrite(orders[..|orders| - 1], asset, side, p);
    }
  }

  lemma {:induction false} LastAtListed(orders: seq<OpenOrder>, asset: string, side: string, p: real)
    ensures LastAt(orders, asset, side, p).Some?
        <==> exists k :: 0 <= k < |orders| && Listed(orders[k], asset, side) && orders[k].price == p
  {
    if orders != [] {
      var n := |orders| - 1;
      LastAtListed(orders[..n], asset, side, p);
      if exists k :: 0 <= k < |orders| && Listed(orders[k], asset, side) && orders[k].price == p {
        var k :| 0 <= k < |orders| && Listed(orders[k], asset, side) && orders[k].price == p;
        if k < n {
          assert orders[..n][k] == orders[k];
        }
      }
    }
  }

  /** Keys of the side dictionary: exactly the prices of the listed orders. */
  lemma BookKeys(orders: seq<OpenOrder>, asset: string, side: string, p: real)
    ensures p in Keys(Book(orders, asset, side))
        <==> exists k :: 0 <= k < |orders| && Listed(orders[k], asset, side) && orders[k].price == p
  {
    BookIsLastWrite(orders, asset, side, p);
    LastAtListed(orders, asset, side, p);
  }

  /** The open orders for `asset`, in order. */
  function OfAsset(orders: seq<OpenOrder>, asset: string): (r: seq<OpenOrder>)
    ensures forall k :: 0 <= k < |r| ==> r[k].assetId == asset
  {
    if orders == [] then []
    else
      var o := orders[|orders| - 1];
      var r := OfAsset(orders[..|orders| - 1], asset);
      if o.assetId == asset then r + [o] else r
  }

  /** Open orders for other assets do not change either dictionary. */
  lemma {:induction false} BookIgnoresOtherAssets(orders: seq<OpenOrder>, asset: string, side: string)
    ensures Book(orders, asset, side) == Book(OfAsset(orders, asset), asset, side)
  {
    if orders != [] {
      var n := |orders| - 1;
      BookIgnoresOtherAssets(orders[..n], asset, side);
      var r := OfAsset(orders[..n], asset);
      if orders[n].assetId == asset {
        assert (r + [orders[n]])[..|r|] == r;
      }
    }
  }

  // ---------------------------------------------------------------------
  // Matching a wanted order

  predicate Close(ep: real, wp: real) {
    Abs(ep - wp) < PriceTolerance
  }

  /** The position of the first existing price within the tolerance of wp,
      in dictionary order. */
  function FirstClose(m: PriceMap, wp: real): (r: Option<nat>)
    ensures r.Some? ==> r.value < |m| && Close(m[r.value].0, wp)
    ensures r.Some? ==> forall j :: 0 <= j < r.value ==> !Close(m[j].0, wp)
    ensures r.None? ==> forall j :: 0 <= j < |m| ==> !Close(m[j].0, wp)
  {
    if m == [] then None
    else if Close(m[0].0, wp) then Some(0)
    else
      match FirstClose(m[1..], wp)
      case None => None
      case Some(k) => Some(k + 1)
  }

  /** The search loop of `reconcile_side`: the first existing price close
      to wp. */
  method FindClose(m: PriceMap, wp: real) returns (found: Option<real>)
    ensures found.Some? <==> FirstClose(m, wp).Some?
    ensures found.Some? ==> found.value == m[FirstClose(m, wp).value].0
  {
    found := None;
    for i := 0 to |m|
      invariant found.None?
      invariant forall j :: 0 <= j < i ==> !Close(m[j].0, wp)
    {
      if Abs(m[i].0 - wp) < PriceTolerance {
        found := Some(m[i].0);
        FirstCloseIs(m, wp, i);
        return;
      }
    }
  }

  lemma FirstCloseIs(m: PriceMap, wp: real, i: nat)
    requires i < |m| && Close(m[i].0, wp)
    requires forall j :: 0 <= j < i ==> !Close(m[j].0, wp)
    ensures FirstClose(m, wp) == Some(i)
  {
  }

  /** The value of the first entry with a given key is what the dictionary
      returns for that key. */
  lemma {:induction false} LookupFirst(m: PriceMap, k: nat)
    requires k < |m|
    requires forall j :: 0 <= j < k ==> m[j].0 != m[k].0
    ensures Lookup(m, m[k].0) == Some(m[k].1)
  {
    if k > 0 {
      assert m[1..][k - 1] == m[k];
      LookupFirst(m[1..], k - 1);
    }
  }

  /** What `reconcile_side` plans for one wanted order: nothing if a close
      existing order has a size within 25%, cancel and place if its size is
      further off, a plain placement if no existing price is close. */
  function WantPlan(w: Order, m: PriceMap): seq<Action> {
    match FirstClose(m, w.price)
    case None => [Place(w)]
    case Some(k) =>
      if SizeDiff(w.size, CurrentSize(m[k].1)) > ResizeThreshold then [Cancel(m[k].1.orderId), Place(w)]
      else []
  }

  /** The existing price a wanted order claims, if any. */
  function ClaimOf(w: Order, m: PriceMap): set<real> {
    match FirstClose(m, w.price)
    case None => {}
    case Some(k) => {m[k].0}
  }

  function WantActions(ws: seq<Order>, m: PriceMap): seq<Action> {
    if ws == [] then [] else WantActions(ws[..|ws| - 1], m) + WantPlan(ws[|ws| - 1], m)
  }

  function Claimed(ws: seq<Order>, m: PriceMap): set<real> {
    if ws == [] then {} else Claimed(ws[..|ws| - 1], m) + ClaimOf(ws[|ws| - 1], m)
  }

  /** The cancellations of the existing entries whose price was not
      claimed, in dictionary order. */
  function Prune(m: PriceMap, claimed: set<real>): seq<Action> {
    if m == [] then []
    else
      var e := m[|m| - 1];
      Prune(m[..|m| - 1], claimed) + (if e.0 in claimed then [] else [Cancel(e.1.orderId)])
  }

  /** Everything `reconcile_side` plans for one side. */
  function SideActions(ws: seq<Order>, m: PriceMap): seq<Action> {
    WantActions(ws, m) + Prune(m, Claimed(ws, m))
  }

  /** `reconcile_side(wanted_list, existing_map, side)`. */
  method ReconcileSide(wanted: seq<Order>, existing: PriceMap) returns (actions: seq<Action>)
    ensures actions == SideActions(wanted, existing)
  {
    var placed: seq<Action> := [];
    var claimed: set<real> := {};
    for i := 0 to |wanted|
      invariant placed == WantActions(wanted[..i], existing)
      invariant claimed == Claimed(wanted[..i], existing)
    {
      var want := wanted[i];
      assert wanted[..i + 1][..i] == wanted[..i];
      var found := FindClose(existing, want.price);
      if found.Some? {
        var k := FirstClose(existing, want.price).value;
        LookupFirst(existing, k);
        var o := Lookup(existing, found.value).value;
        var current := CurrentSize(o);
        if SizeDiff(want.size, current) > ResizeThreshold {
          placed := placed + [Cancel(o.orderId), Place(want)];
        }
        claimed := claimed + {found.value};
      } else {
        placed := placed + [Place(want)];
      }
    }
    assert wanted[..|wanted|] == wanted;
    var pruned: seq<Action> := [];
    for k := 0 to |existing|
      invariant pruned == Prune(existing[..k], claimed)
    {
      assert existing[..k + 1][..k] == existing[..k];
      if existing[k].0 !in claimed {
        pruned := pruned + [Cancel(existing[k].1.orderId)];
      }
    }
    assert existing[..|existing|] == existing;
    actions := placed + pruned;
  }

  // ---------------------------------------------------------------------
  // Properties of one side

  /** A wanted order is placed when no existing price is close, or when the
      close one's size is more than 25% off. */
  predicate NeedsPlace(w: Order, m: PriceMap) {
    match FirstClose(m, w.price)
    case None => true
    case Some(k) => SizeDiff(w.size, CurrentSize(m[k].1)) > ResizeThreshold
  }

  /** The plan for one wanted order places it exactly when it needs it, and
      places nothing else. */
  lemma PlanPlaces(x: Order, m: PriceMap, w: Order)
    ensures Place(w) in WantPlan(x, m) <==> x == w && NeedsPlace(w, m)
  {
  }

  /** Exactly the wanted orders that need it are placed. */
  lemma {:induction false} PlacedIffNeeded(ws: seq<Order>, m: PriceMap, w: Order)
    ensures Place(w) in WantActions(ws, m) <==> w in ws && NeedsPlace(w, m)
  {
    if ws != [] {
      var n := |ws| - 1;
      PlacedIffNeeded(ws[..n], m, w);
      PlanPlaces(ws[n], m, w);
      assert ws == ws[..n] + [ws[n]];
    }
  }

  /** Every cancellation planned for wanted orders names an existing order. */
  lemma {:induction false} WantCancelsExisting(ws: seq<Order>, m: PriceMap, id: string)
    requires Cancel(id) in WantActions(ws, m)
    ensures exists k :: 0 <= k < |m| && m[k].1.orderId == id
  {
    var n := |ws| - 1;
    if Cancel(id) in WantActions(ws[..n], m) {
      WantCancelsExisting(ws[..n], m, id);
    } else {
      var k := FirstClose(m, ws[n].price).value;
      assert m[k].1.orderId == id;
    }
  }

  /** The prune step cancels exactly the entries whose price is unclaimed. */
  lemma {:induction false} PruneExactlyUnclaimed(m: PriceMap, claimed: set<real>, a: Action)
    ensures a in Prune(m, claimed) <==> exists e :: e in m && e.0 !in claimed && a == Cancel(e.1.orderId)
  {
    if m != [] {
      var n := |m| - 1;
      PruneExactlyUnclaimed(m[..n], claimed, a);
      assert m == m[..n] + [m[n]];
      if exists e :: e in m && e.0 !in claimed && a == Cancel(e.1.orderId) {
        var e :| e in m && e.0 !in claimed && a == Cancel(e.1.orderId);
        if e != m[n] {
          assert e in m[..n];
        }
      }
    }
  }

  /** Claimed prices are existing prices, each close to some wanted order. */
  lemma {:induction false} ClaimedAreExisting(ws: seq<Order>, m: PriceMap, p: real)
    requires p in Claimed(ws, m)
    ensures exists i, k :: 0 <= i < |ws| && 0 <= k < |m| && m[k].0 == p && Close(p, ws[i].price)
  {
    var n := |ws| - 1;
    if p in Claimed(ws[..n], m) {
      ClaimedAreExisting(ws[..n], m, p);
      var i, k :| 0 <= i < n && 0 <= k < |m| && m[k].0 == p && Close(p, ws[..n][i].price);
      assert ws[..n][i] == ws[i];
    } else {
      var k := FirstClose(m, ws[n].price).value;
      assert m[k].0 == p;
    }
  }

  /** Nothing is invented: every planned placement is a wanted order and
      every planned cancellation names an existing order. */
  lemma SideActionsGrounded(ws: seq<Order>, m: PriceMap, a: Action)
    requires a in SideActions(ws, m)
    ensures a.Place? ==> a.order in ws
    ensures a.Cancel? ==> exists e :: e in m && e.1.orderId == a.orderId
  {
    if a in WantActions(ws, m) {
      if a.Place? {
        PlacedIffNeeded(ws, m, a.order);
      } else {
        WantCancelsExisting(ws, m, a.orderId);
        var k :| 0 <= k < |m| && m[k].1.orderId == a.orderId;
        assert m[k] in m;
      }
    } else {
      PruneExactlyUnclaimed(m, Claimed(ws, m), a);
    }
  }

  /** A book that already matches the wanted ladder is left alone: when
      every wanted order finds a close existing order of about its size and
      every existing price is claimed, nothing is planned. */
  lemma SteadyState(ws: seq<Order>, m: PriceMap)
    requires forall i :: 0 <= i < |ws| ==> !NeedsPlace(ws[i], m)
    requires forall k :: 0 <= k < |m| ==> m[k].0 in Claimed(ws, m)
    ensures SideActions(ws, m) == []
  {
    NoWantActions(ws, m);
    NoPrune(m, Claimed(ws, m));
  }

  lemma {:induction false} NoWantActions(ws: seq<Order>, m: PriceMap)
    requires forall i :: 0 <= i < |ws| ==> !NeedsPlace(ws[i], m)
    ensures WantActions(ws, m) == []
  {
    if ws != [] {
      var n := |ws| - 1;
      assert forall i :: 0 <= i < n ==> ws[..n][i] == ws[i];
      NoWantActions(ws[..n], m);
      assert !NeedsPlace(ws[n], m);
    }
  }

  lemma {:induction false} NoPrune(m: PriceMap, claimed: set<real>)
    requires forall k :: 0 <= k < |m| ==> m[k].0 in claimed
    ensures Prune(m, claimed) == []
  {
    if m != [] {
      var n := |m| - 1;
      assert forall k :: 0 <= k < n ==> m[..n][k] == m[k];
      NoPrune(m[..n], claimed);
    }
  }

  // ---------------------------------------------------------------------
  // The whole reconciliation

  /** The plan for a listing of open orders: nothing when the listing
      failed, otherwise the bid side's actions, then the ask side's. */
  function Plan(fetched: Option<seq<OpenOrder>>, bids: seq<Order>, asks: seq<Order>, asset: string)
    : seq<Action>
  {
    match fetched
    case None => []
    case Some(orders) =>
      SideActions(bids, Book(orders, asset, "BUY")) + SideActions(asks, Book(orders, asset, "SELL"))
  }

  /** The indexing loop: each open order of the asset is written into the
      dictionary of its side; other sides are skipped. */
  method BuildBooks(orders: seq<OpenOrder>, asset: string) returns (bids: PriceMap, asks: PriceMap)
    ensures bids == Book(orders, asset, "BUY")
    ensures asks == Book(orders, asset, "SELL")
  {
    bids, asks := [], [];
    for i := 0 to |orders|
      invariant bids == Book(orders[..i], asset, "BUY")
      invariant asks == Book(orders[..i], asset, "SELL")
    {
      var o := orders[i];
      assert orders[..i + 1][..i] == orders[..i] && orders[..i + 1][i] == o;
      if o.assetId != asset {
        continue;
      }
      if o.side == "BUY" {
        bids := Put(bids, o.price, o);
      } else if o.side == "SELL" {
        asks := Put(asks, o.price, o);
      }
    }
    assert orders[..|orders|] == orders;
  }

  /** `_reconcile(desired)`, with the listing of open orders (None when it
      raised) as a parameter and the exchange calls as the returned plan. */
  method Reconcile(fetched: Option<seq<OpenOrder>>, bids: seq<Order>, asks: seq<Order>, asset: string)
    returns (actions: seq<Action>)
    ensures actions == Plan(fetched, bids, asks, asset)
  {
    if fetched.None? {
      return [];
    }
    var bidBook, askBook := BuildBooks(fetched.value, asset);
    var bidActions := ReconcileSide(bids, bidBook);
    var askActions := ReconcileSide(asks, askBook);
    actions := bidActions + askActions;
  }

  /** Open orders for other assets change nothing in the plan. */
  lemma OtherAssetsIgnored(orders: seq<OpenOrder>, bids: seq<Order>, asks: seq<Order>, asset: string)
    ensures Plan(Some(orders), bids, asks, asset) == Plan(Some(OfAsset(orders, asset)), bids, asks, asset)
  {
    BookIgnoresOtherAssets(orders, asset, "BUY");
    BookIgnoresOtherAssets(orders, asset, "SELL");
  }
}
