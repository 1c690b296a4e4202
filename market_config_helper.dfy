/** `extract_market_slug` of `pm4/market_config_helper.py`: the same
    pattern list as the analyzer's, without the bare-slug passthrough. */
module ConfigHelper {
  import opened Wrappers
  import opened Slugs
  import Analyzer

  /** `extract_market_slug(url)`: the group of the first pattern that
      matches, an error when none does. */
  function ExtractMarketSlug(url: string): (r: Result<string, string>)
    ensures r.Ok? ==> WellFormedSlug(r.value)
  {
    match SearchPatterns(url, Patterns)
    case Some(slug) => Ok(slug)
    case None => Err("Could not extract market slug from URL: " + url)
  }

  /** A bare slug (no '/') is refused. */
  lemma BareSlugRefused(s: string)
    requires '/' !in s
    ensures ExtractMarketSlug(s).Err?
  {
    NoSlashNoSlug(s);
  }

  /** Any input containing `polymarket.com/market/` followed by a slug
      character is accepted, with the longest run of slug characters after
      the leftmost such occurrence. */
  lemma MarketUrlAccepted(s: string, i: nat)
    requires StartsAt(s, i, MarketPath)
    requires i + |MarketPath| < |s| && SlugChar(s[i + |MarketPath|])
    ensures FirstMatch(s, Literal(MarketPath), 0).Some?
    ensures var k := FirstMatch(s, Literal(MarketPath), 0).value + |MarketPath|;
      ExtractMarketSlug(s) == Ok(s[k..SlugEnd(s, k)])
  {
    MarketPathFound(s, i);
  }

  /** On a URL the two extractors agree, up to the wording of the error. */
  lemma AgreesWithAnalyzer(s: string)
    requires Analyzer.HasUrlPrefix(s)
    ensures ExtractMarketSlug(s).Ok? <==> Analyzer.ExtractMarketSlug(s).Ok?
    ensures ExtractMarketSlug(s).Ok? ==> ExtractMarketSlug(s) == Analyzer.ExtractMarketSlug(s)
  {
  }
}
