/** The market screening rules of `pm4/market_analyzer.py`: the slug of a
    market URL, and the five-tier score that turns the market's fetched
    figures into a recommendation. */
module Analyzer {
  import opened Wrappers
  import opened Utils
  import opened Slugs

  // ---------------------------------------------------------------------
  // extract_market_slug

  /** A URL rather than a bare slug. */
  predicate HasUrlPrefix(s: string) {
    "http://" <= s || "https://" <= s || "www." <= s
  }

  /** `extract_market_slug(url_or_slug)`: a bare slug is returned as it is;
      a URL yields the group of the first pattern that matches it, and one
      that none matches is an error. */
  function ExtractMarketSlug(s: string): (r: Result<string, string>)
    ensures !HasUrlPrefix(s) ==> r == Ok(s)
    ensures HasUrlPrefix(s) && r.Ok? ==> WellFormedSlug(r.value)
  {
    if !HasUrlPrefix(s) then Ok(s)
    else
      match SearchPatterns(s, Patterns)
      case Some(slug) => Ok(slug)
      case None =>
        Err("Could not extract market slug from: " + s
            + ". Please provide either a Polymarket URL or market slug.")
  }

  /** Only a URL that no pattern matches is refused. */
  lemma ExtractFailsOnlyOnUnmatchedUrl(s: string)
    ensures ExtractMarketSlug(s).Err?
        <==> HasUrlPrefix(s) && forall k :: 0 <= k < |Patterns| ==> Search(s, Patterns[k]).None?
  {
    var k := FirstPattern(s, Patterns);
    if HasUrlPrefix(s) && k < |Patterns| {
      assert Search(s, Patterns[k]).Some?;
    }
  }

  // ---------------------------------------------------------------------
  // analyze_market

  /** The fields of the market record the analysis reads; an absent key is
      None. `outcomePrices` holds the parsed entries of the list, None for
      an entry that is not a number; `daysToEnd` is the whole days from now
      to `endDate`, None when the date is missing or does not parse. */
  datatype MarketRecord = MarketRecord(
    id: Option<string>,
    volume: Option<real>,
    activeUsers: Option<int>,
    outcomePrices: Option<seq<Option<real>>>,
    daysToEnd: Option<int>,
    lastTradeTimestamp: Option<int>)

  datatype Recommendation = Recommended | Conditional | NotRecommended | Error

  /** One line of the report, with the figure it quotes. */
  datatype Reason =
    | ExcellentVolume(volume: real) | GoodVolume(volume: real) | LowVolume(volume: real)
    | HighTraders(traders: int) | ModerateTraders(traders: int) | LowTraderVisibility(traders: int)
    | VeryActive(hours: real) | ModerateActivity(hours: real) | Stagnant(hours: real)
    | LongHorizon(days: int) | ModerateHorizon(days: int) | ShortHorizon(days: int)
    | PriceInGoodRange(price: real) | PriceAtExtreme(price: real)
    | FetchFailed

  datatype MarketAnalysis = MarketAnalysis(
    marketSlug: string,
    conditionId: string,
    volume24h: real,
    activeTraders: int,
    lastTradeHours: real,
    priceRange24h: (real, real),
    currentPrice: real,
    timeToResolutionDays: int,
    recommendation: Recommendation,
    reasons: seq<Reason>)
  {
    /** `is_recommended`. */
    predicate IsRecommended() {
      recommendation == Recommended
    }
  }

  const MsPerHour: real := 3600000.0

  /** The analysis returned when the fetch failed or returned nothing. */
  function ErrorAnalysis(slug: string): (a: MarketAnalysis)
    ensures a.marketSlug == slug && !a.IsRecommended() && a.recommendation == Error
    ensures a.reasons == [FetchFailed] && a.currentPrice == 0.5
  {
    MarketAnalysis(slug, "", 0.0, 0, 999.0, (0.0, 1.0), 0.5, 0, Error, [FetchFailed])
  }

  /** The YES price: the first of `outcomePrices` (default ["0.5", "0.5"]);
      0.5 when the list has fewer than two entries or either of the first
      two does not parse. */
  function CurrentPrice(prices: Option<seq<Option<real>>>): (p: real)
    ensures p == 0.5 || (prices.Some? && |prices.value| >= 2 && prices.value[0] == Some(p))
    ensures prices.Some? && |prices.value| >= 2 && prices.value[0].Some? && prices.value[1].Some? ==>
              p == prices.value[0].value
  {
    match prices
    case None => 0.5
    case Some(ps) =>
      if |ps| < 2 || ps[0].None? || ps[1].None? then 0.5 else ps[0].value
  }

  /** Whole days to resolution: never negative, 365 when unknown. */
  function DaysToResolution(daysToEnd: Option<int>): (d: int)
    ensures d >= 0
    ensures daysToEnd.None? ==> d == 365
  {
    match daysToEnd
    case None => 365
    case Some(days) => if 0 >= days then 0 else days
  }

  /** Hours since the last trade; 24 when there is no (non-zero) timestamp. */
  function HoursSinceTrade(lastTs: Option<int>, now: int): (h: real)
    ensures lastTs.None? || lastTs == Some(0) ==> h == 24.0
    ensures lastTs.Some? && lastTs.value != 0 && lastTs.value <= now ==> h >= 0.0
    ensures lastTs.Some? && lastTs.value != 0 ==> h * MsPerHour == (now - lastTs.value) as real
  {
    match lastTs
    case Some(ts) => if ts != 0 then (now - ts) as real / MsPerHour else 24.0
    case None => 24.0
  }

  /** The assumed 24h range: the price plus or minus 0.1, kept inside
      [0.01, 0.99]. */
  function PriceRange(p: real): (r: (real, real))
    ensures 0.01 <= r.0 && r.1 <= 0.99
    ensures r.0 == p - 0.1 || r.0 == 0.01
    ensures r.1 == p + 0.1 || r.1 == 0.99
  {
    (Max(0.01, p - 0.1), Min(0.99, p + 0.1))
  }

  // The five tiers: the points each adds and the line it reports.

  function VolumePoints(v: real): nat {
    if v >= 50000.0 then 2 else if v >= 25000.0 then 1 else 0
  }

  function VolumeReason(v: real): Reason {
    if v >= 50000.0 then ExcellentVolume(v) else if v >= 25000.0 then GoodVolume(v) else LowVolume(v)
  }

  function TraderPoints(n: int): nat {
    if n >= 100 then 2 else if n >= 50 then 1 else 0
  }

  function TraderReason(n: int): Reason {
    if n >= 100 then HighTraders(n) else if n >= 50 then ModerateTraders(n) else LowTraderVisibility(n)
  }

  function ActivityPoints(h: real): nat {
    if h <= 2.0 then 2 else if h <= 6.0 then 1 else 0
  }

  function ActivityReason(h: real): Reason {
    if h <= 2.0 then VeryActive(h) else if h <= 6.0 then ModerateActivity(h) else Stagnant(h)
  }

  function HorizonPoints(d: int): nat {
    if d >= 30 then 1 else 0
  }

  function HorizonReason(d: int): Reason {
    if d >= 30 then LongHorizon(d) else if d >= 7 then ModerateHorizon(d) else ShortHorizon(d)
  }

  function PricePoints(p: real): nat {
    if 0.15 <= p <= 0.85 then 1 else 0
  }

  function PriceReason(p: real): Reason {
    if 0.15 <= p <= 0.85 then PriceInGoodRange(p) else PriceAtExtreme(p)
  }

  /** The score: the sum of the five tiers. */
  function Score(v: real, n: int, h: real, d: int, p: real): nat {
    VolumePoints(v) + TraderPoints(n) + ActivityPoints(h) + HorizonPoints(d) + PricePoints(p)
  }

  /** The report: one line per tier, in the order the tiers are checked. */
  function Reasons(v: real, n: int, h: real, d: int, p: real): seq<Reason> {
    [VolumeReason(v), TraderReason(n), ActivityReason(h), HorizonReason(d), PriceReason(p)]
  }

  /** The points a report line stands for: the lines marked as good or
      moderate carry them. */
  function ReasonPoints(r: Reason): nat {
    match r
    case ExcellentVolume(_) => 2
    case GoodVolume(_) => 1
    case HighTraders(_) => 2
    case ModerateTraders(_) => 1
    case VeryActive(_) => 2
    case ModerateActivity(_) => 1
    case LongHorizon(_) => 1
    case PriceInGoodRange(_) => 1
    case _ => 0
  }

  function TotalPoints(rs: seq<Reason>): nat {
    if rs == [] then 0 else ReasonPoints(rs[0]) + TotalPoints(rs[1..])
  }

  /** The recommendation for a score. */
  function Classify(score: int): Recommendation {
    if score >= 5 then Recommended else if score >= 3 then Conditional else NotRecommended
  }

  /** The volume check: adds its points and appends its line. */
  method CheckVolume(score: nat, reasons: seq<Reason>, v: real) returns (score': nat, reasons': seq<Reason>)
    ensures score' == score + VolumePoints(v) && reasons' == reasons + [VolumeReason(v)]
  {
    if v >= 50000.0 {
      score', reasons' := score + 2, reasons + [ExcellentVolume(v)];
    } else if v >= 25000.0 {
      score', reasons' := score + 1, reasons + [GoodVolume(v)];
    } else {
      score', reasons' := score, reasons + [LowVolume(v)];
    }
  }

  /** The trader check. */
  method CheckTraders(score: nat, reasons: seq<Reason>, n: int) returns (score': nat, reasons': seq<Reason>)
    ensures score' == score + TraderPoints(n) && reasons' == reasons + [TraderReason(n)]
  {
    if n >= 100 {
      score', reasons' := score + 2, reasons + [HighTraders(n)];
    } else if n >= 50 {
      score', reasons' := score + 1, reasons + [ModerateTraders(n)];
    } else {
      score', reasons' := score, reasons + [LowTraderVisibility(n)];
    }
  }

  /** The activity check. */
  method CheckActivity(score: nat, reasons: seq<Reason>, h: real) returns (score': nat, reasons': seq<Reason>)
    ensures score' == score + ActivityPoints(h) && reasons' == reasons + [ActivityReason(h)]
  {
    if h <= 2.0 {
      score', reasons' := score + 2, reasons + [VeryActive(h)];
    } else if h <= 6.0 {
      score', reasons' := score + 1, reasons + [ModerateActivity(h)];
    } else {
      score', reasons' := score, reasons + [Stagnant(h)];
    }
  }

  /** The time-to-resolution check. */
  method CheckHorizon(score: nat, reasons: seq<Reason>, d: int) returns (score': nat, reasons': seq<Reason>)
    ensures score' == score + HorizonPoints(d) && reasons' == reasons + [HorizonReason(d)]
  {
    if d >= 30 {
      score', reasons' := score + 1, reasons + [LongHorizon(d)];
    } else if d >= 7 {
      score', reasons' := score, reasons + [ModerateHorizon(d)];
    } else {
      score', reasons' := score, reasons + [ShortHorizon(d)];
    }
  }

  /** The price-position check. */
  method CheckPrice(score: nat, reasons: seq<Reason>, p: real) returns (score': nat, reasons': seq<Reason>)
    ensures score' == score + PricePoints(p) && reasons' == reasons + [PriceReason(p)]
  {
    if 0.15 <= p <= 0.85 {
      score', reasons' := score + 1, reasons + [PriceInGoodRange(p)];
    } else {
      score', reasons' := score, reasons + [PriceAtExtreme(p)];
    }
  }

  /** The scoring part of `analyze_market(market_slug)`, given what the fetch
      returned (None for a failed fetch or an empty record) and the clock. */
  method AnalyzeMarket(slug: string, data: Option<MarketRecord>, now: int) returns (a: MarketAnalysis)
    ensures data.None? ==> a == ErrorAnalysis(slug)
    ensures data.Some? ==>
      var m := data.value;
      && a.marketSlug == slug
      && a.conditionId == m.id.GetOr("")
      && a.volume24h == m.volume.GetOr(0.0)
      && a.activeTraders == m.activeUsers.GetOr(0)
      && a.lastTradeHours == HoursSinceTrade(m.lastTradeTimestamp, now)
      && a.currentPrice == CurrentPrice(m.outcomePrices)
      && a.priceRange24h == PriceRange(a.currentPrice)
      && a.timeToResolutionDays == DaysToResolution(m.daysToEnd)
      && a.reasons == Reasons(a.volume24h, a.activeTraders, a.lastTradeHours,
                              a.timeToResolutionDays, a.currentPrice)
      && a.recommendation == Classify(Score(a.volume24h, a.activeTraders, a.lastTradeHours,
                                            a.timeToResolutionDays, a.currentPrice))
  {
    if data.None? {
      return ErrorAnalysis(slug);
    }
    var m := data.value;
    var marketId := m.id.GetOr("");
    var volume := m.volume.GetOr(0.0);
    var traders := m.activeUsers.GetOr(0);
    var price := CurrentPrice(m.outcomePrices);
    var days := DaysToResolution(m.daysToEnd);
    var hours := HoursSinceTrade(m.lastTradeTimestamp, now);
    var range := PriceRange(price);

    var score, reasons := 0, [];
    score, reasons := CheckVolume(score, reasons, volume);
    score, reasons := CheckTraders(score, reasons, traders);
    score, reasons := CheckActivity(score, reasons, hours);
    score, reasons := CheckHorizon(score, reasons, days);
    score, reasons := CheckPrice(score, reasons, price);
    var recommendation;
    if score >= 5 {
      recommendation := Recommended;
    } else if score >= 3 {
      recommendation := Conditional;
    } else {
      recommendation := NotRecommended;
    }
    a := MarketAnalysis(slug, marketId, volume, traders, hours, range, price, days, recommendation, reasons);
  }

  /** The report agrees with the score: its lines' points add up to it,
      and there are exactly five of them. */
  lemma {:induction false} ReasonsAddUp(v: real, n: int, h: real, d: int, p: real)
    ensures |Reasons(v, n, h, d, p)| == 5
    ensures TotalPoints(Reasons(v, n, h, d, p)) == Score(v, n, h, d, p)
  {
    var rs := Reasons(v, n, h, d, p);
    assert rs[1..] == [TraderReason(n), ActivityReason(h), HorizonReason(d), PriceReason(p)];
    assert rs[1..][1..] == [ActivityReason(h), HorizonReason(d), PriceReason(p)];
    assert rs[1..][1..][1..] == [HorizonReason(d), PriceReason(p)];
    assert rs[1..][1..][1..][1..] == [PriceReason(p)];
    assert rs[1..][1..][1..][1..][1..] == [];
    assert TotalPoints(rs[1..][1..][1..][1..]) == PricePoints(p);
    assert TotalPoints(rs[1..][1..][1..]) == HorizonPoints(d) + PricePoints(p);
    assert TotalPoints(rs[1..][1..]) == ActivityPoints(h) + HorizonPoints(d) + PricePoints(p);
    assert TotalPoints(rs[1..]) == TraderPoints(n) + ActivityPoints(h) + HorizonPoints(d) + PricePoints(p);
  }

  // ---------------------------------------------------------------------
  // Properties of the score

  /** 0 <= score <= 8. */
  lemma ScoreBounds(v: real, n: int, h: real, d: int, p: real)
    ensures 0 <= Score(v, n, h, d, p) <= 8
  {
  }

  /** More volume, more traders, a more recent trade, a longer horizon never
      lower the score. */
  lemma ScoreMonotone(v1: real, v2: real, n1: int, n2: int, h1: real, h2: real, d1: int, d2: int, p: real)
    requires v1 <= v2 && n1 <= n2 && h2 <= h1 && d1 <= d2
    ensures Score(v1, n1, h1, d1, p) <= Score(v2, n2, h2, d2, p)
  {
  }

  /** RECOMMENDED from 5 points, CONDITIONAL at 3 and 4, NOT_RECOMMENDED
      below; `is_recommended` holds exactly for the first. */
  lemma ClassifyThresholds(a: MarketAnalysis, score: int)
    requires a.recommendation == Classify(score)
    ensures a.IsRecommended() <==> score >= 5
    ensures a.recommendation == Conditional <==> 3 <= score <= 4
    ensures a.recommendation == NotRecommended <==> score <= 2
  {
  }
}
