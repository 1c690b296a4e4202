/** The three regular expressions both `extract_market_slug` functions try
    on a market URL, with Python's `re.search` semantics: the leftmost
    position where the pattern matches wins, and the greedy classes
    `[^/?]+` and `[^/]+` take the longest run they can. */
module Slugs {
  import opened Wrappers

  /** `polymarket\.com/market/` */
  const MarketPath: string := "polymarket.com/market/"
  /** `gamma\.polymarket\.com/market/` */
  const GammaMarketPath: string := "gamma.polymarket.com/market/"

  /** A pattern of the list: a literal followed by the slug group
      `([^/?]+)`, or `https?://[^/]+/market/([^/?]+)`. */
  datatype Pattern = Literal(lit: string) | AnyHost

  /** The list, in the order it is tried. */
  const Patterns: seq<Pattern> := [Literal(MarketPath), Literal(GammaMarketPath), AnyHost]

  predicate SlugChar(c: char) { c != '/' && c != '?' }

  /** A slug the group can capture: non-empty, without '/' or '?'. */
  predicate WellFormedSlug(slug: string) {
    |slug| > 0 && '/' !in slug && '?' !in slug
  }

  predicate StartsAt(s: string, i: nat, lit: string) {
    i + |lit| <= |s| && s[i..i + |lit|] == lit
  }

  /** The end of the longest run of slug characters from j (`[^/?]*`). */
  function SlugEnd(s: string, j: nat): (e: nat)
    requires j <= |s|
    ensures j <= e <= |s|
    ensures forall k :: j <= k < e ==> SlugChar(s[k])
    ensures e == |s| || !SlugChar(s[e])
    decreases |s| - j
  {
    if j == |s| || !SlugChar(s[j]) then j else SlugEnd(s, j + 1)
  }

  /** The end of the longest run of characters other than '/' from j
      (`[^/]*`). */
  function HostEnd(s: string, j: nat): (e: nat)
    requires j <= |s|
    ensures j <= e <= |s|
    ensures forall k :: j <= k < e ==> s[k] != '/'
    ensures e == |s| || s[e] == '/'
    decreases |s| - j
  {
    if j == |s| || s[j] == '/' then j else HostEnd(s, j + 1)
  }

  /** The slug group at j: present when the run is non-empty. */
  function SlugGroup(s: string, j: nat): (r: Option<string>)
    requires j <= |s|
    ensures r.Some? ==> WellFormedSlug(r.value)
  {
    var e := SlugEnd(s, j);
    if e > j then
      assert forall k :: 0 <= k < e - j ==> s[j..e][k] == s[j + k];
      Some(s[j..e])
    else None
  }

  /** Where the host starts after `https?://` at i. The optional 's' is
      tried first; without it the literal needs ':' where the 's' is, so
      at most one of the two readings fits. */
  function SchemeEnd(s: string, i: nat): (r: Option<nat>)
    requires i <= |s|
    ensures r.Some? ==> r.value <= |s|
  {
    if StartsAt(s, i, "https://") then Some(i + 8)
    else if StartsAt(s, i, "http://") then Some(i + 7)
    else None
  }

  /** The pattern matched at position i, and its group. A backtracking
      `[^/]+` could only stop before a character that is not '/', where
      `/market/` cannot start, so the longest host run is the only one that
      can succeed. */
  function MatchAt(s: string, p: Pattern, i: nat): (r: Option<string>)
    requires i <= |s|
    ensures r.Some? ==> WellFormedSlug(r.value)
  {
    match p
    case Literal(lit) =>
      if StartsAt(s, i, lit) then SlugGroup(s, i + |lit|) else None
    case AnyHost =>
      match SchemeEnd(s, i)
      case None => None
      case Some(j) =>
        var h := HostEnd(s, j);
        if h > j && StartsAt(s, h, "/market/") then SlugGroup(s, h + 8) else None
  }

  /** `re.search`: the leftmost position from i on where the pattern
      matches. */
  function FirstMatch(s: string, p: Pattern, i: nat): (r: Option<nat>)
    requires i <= |s|
    ensures r.Some? ==> i <= r.value <= |s| && MatchAt(s, p, r.value).Some?
    ensures r.Some? ==> forall j :: i <= j < r.value ==> MatchAt(s, p, j).None?
    ensures r.None? ==> forall j :: i <= j <= |s| ==> MatchAt(s, p, j).None?
    decreases |s| - i
  {
    if MatchAt(s, p, i).Some? then Some(i)
    else if i == |s| then None
    else FirstMatch(s, p, i + 1)
  }

  /** `match.group(1)` of `re.search(p, s)`. */
  function Search(s: string, p: Pattern): (r: Option<string>)
    ensures r.Some? ==> WellFormedSlug(r.value)
  {
    match FirstMatch(s, p, 0)
    case None => None
    case Some(i) => MatchAt(s, p, i)
  }

  /** The position of the first pattern of ps that matches s, |ps| when
      none does. */
  function FirstPattern(s: string, ps: seq<Pattern>): (k: nat)
    ensures k <= |ps|
    ensures k < |ps| ==> Search(s, ps[k]).Some?
    ensures forall j :: 0 <= j < k ==> Search(s, ps[j]).None?
  {
    if ps == [] || Search(s, ps[0]).Some? then 0
    else 1 + FirstPattern(s, ps[1..])
  }

  /** The loop over the patterns: the group of the first one that matches. */
  function SearchPatterns(s: string, ps: seq<Pattern>): (r: Option<string>)
    ensures r.Some? ==> WellFormedSlug(r.value)
  {
    var k := FirstPattern(s, ps);
    if k < |ps| then Search(s, ps[k]) else None
  }

  // ---------------------------------------------------------------------
  // Properties of the pattern list

  /** The first pattern wins whenever it matches. */
  lemma FirstPatternWins(s: string)
    requires Search(s, Patterns[0]).Some?
    ensures SearchPatterns(s, Patterns) == Search(s, Patterns[0])
  {
  }

  /** Every string the `gamma.` pattern matches is matched by the first
      pattern too, so the second pattern never decides the result. */
  lemma GammaPatternShadowed(s: string)
    requires Search(s, Literal(GammaMarketPath)).Some?
    ensures Search(s, Literal(MarketPath)).Some?
  {
    var i := FirstMatch(s, Literal(GammaMarketPath), 0).value;
    GammaContainsMarketPath(s, i);
    assert MatchAt(s, Literal(MarketPath), i + 6).Some?;
  }

  lemma GammaContainsMarketPath(s: string, i: nat)
    requires StartsAt(s, i, GammaMarketPath)
    ensures StartsAt(s, i + 6, MarketPath)
  {
    assert s[i + 6..i + 6 + |MarketPath|] == s[i..i + |GammaMarketPath|][6..];
  }

  /** A string that contains `polymarket.com/market/` followed by a slug
      character has a slug: the longest run of slug characters after the
      leftmost such occurrence. */
  lemma MarketPathFound(s: string, i: nat)
    requires StartsAt(s, i, MarketPath)
    requires i + |MarketPath| < |s| && SlugChar(s[i + |MarketPath|])
    ensures FirstMatch(s, Literal(MarketPath), 0).Some?
    ensures var k := FirstMatch(s, Literal(MarketPath), 0).value;
      k <= i && SearchPatterns(s, Patterns) == Some(s[k + |MarketPath|..SlugEnd(s, k + |MarketPath|)])
  {
    MarketPathMatches(s, i);
    assert Search(s, Patterns[0]).Some?;
  }

  lemma MarketPathMatches(s: string, i: nat)
    requires StartsAt(s, i, MarketPath)
    requires i + |MarketPath| < |s| && SlugChar(s[i + |MarketPath|])
    ensures MatchAt(s, Literal(MarketPath), i).Some?
  {
  }

  /** Every pattern needs a '/', so a string without one matches none. */
  lemma NoSlashNoMatch(s: string, p: Pattern, i: nat)
    requires i <= |s| && '/' !in s && p in Patterns
    ensures MatchAt(s, p, i).None?
  {
    if i + 7 <= |s| {
      assert s[i + 6] in s;
    }
    match p
    case Literal(lit) =>
      if i + |lit| <= |s| {
        assert s[i + |lit| - 1] in s;
        assert s[i..i + |lit|][|lit| - 1] != lit[|lit| - 1];
      }
    case AnyHost =>
  }

  lemma NoSlashNoSlug(s: string)
    requires '/' !in s
    ensures SearchPatterns(s, Patterns).None?
  {
    forall k | 0 <= k < |Patterns|
      ensures Search(s, Patterns[k]).None?
    {
      var r := FirstMatch(s, Patterns[k], 0);
      if r.Some? {
        NoSlashNoMatch(s, Patterns[k], r.value);
        assert false;
      }
    }
  }
}
