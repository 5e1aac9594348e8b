/** How the competitor-research agent reads the language model's replies:
    the code-fence removal, the per-competitor analysis (which throws on a
    reply it cannot parse) and the landscape analysis (which falls back to
    a fixed record on any error). The reply and the JSON parser are inputs. */
module CompetitorReplies {
  import opened Common
  import CompetitorRetry
  import CompetitorReddit
  import CompetitorDiscovery

  // ---------------------------------------------------------------------
  // Global removal of alternatives, scanning left to right
  // ---------------------------------------------------------------------

  /** The length of the first pattern of `pats` that starts `s`, if any:
      the regular expression's alternatives expanded in the order the
      engine tries them. Empty patterns never match. */
  function FirstMatch(s: string, pats: seq<string>): (m: Option<nat>)
    ensures m.Some? ==> 0 < m.value <= |s| && exists p :: p in pats && |p| == m.value && StartsWith(s, p)
    ensures m.None? ==> forall p :: p in pats && |p| > 0 ==> !StartsWith(s, p)
  {
    if pats == [] then None
    else if |pats[0]| > 0 && StartsWith(s, pats[0]) then Some(|pats[0]|)
    else
      var rest := FirstMatch(s, pats[1..]);
      assert forall p :: p in pats ==> p == pats[0] || p in pats[1..];
      rest
  }

  /** `s.replace(/alt1|alt2|.../g, "")`: at each position the first
      alternative that matches is removed and the scan resumes after it;
      otherwise the character is kept. */
  function RemoveAll(s: string, pats: seq<string>): (r: string)
    ensures |r| <= |s|
    decreases |s|
  {
    if s == [] then []
    else match FirstMatch(s, pats)
      case Some(n) => RemoveAll(s[n..], pats)
      case None => [s[0]] + RemoveAll(s[1..], pats)
  }

  /** `/```json\n?|\n?```/g`, its optional newlines expanded greedily. */
  const CompetitorFence: seq<string> := ["```json\n", "```json", "\n```", "```"]

  /** `/```json\n|\n```/g`, applied when the reply contains "```json". */
  const JsonFence: seq<string> := ["```json\n", "\n```"]

  /** `/```\n|\n```/g`, applied when the text then contains "```". */
  const PlainFence: seq<string> := ["```\n", "\n```"]

  /** Every pattern has a backtick in its first two characters. */
  predicate FencePatterns(pats: seq<string>) {
    forall p :: p in pats ==> |p| >= 2 && (p[0] == '`' || p[1] == '`')
  }

  /** No fence pattern starts a text whose first two characters are not backticks. */
  lemma NoFenceAt(s: string, pats: seq<string>)
    requires FencePatterns(pats) && s != [] && s[0] != '`' && (|s| >= 2 ==> s[1] != '`')
    ensures FirstMatch(s, pats) == None
  {
    forall p | p in pats && |p| > 0 ensures !StartsWith(s, p) {
      if |p| <= |s| {
        assert s[..|p|][0] == s[0] && s[..|p|][1] == s[1];
      }
    }
  }

  lemma TailWithout(t: string, c: char)
    requires t != [] && c !in t
    ensures c !in t[1..]
  {
    assert forall x :: x in t[1..] ==> x in t;
  }

  /** Text without backticks passes unchanged. */
  lemma {:induction false} BacktickFreeUnchanged(t: string, pats: seq<string>)
    requires FencePatterns(pats) && '`' !in t
    ensures RemoveAll(t, pats) == t
    decreases |t|
  {
    if t != [] {
      NoFenceAt(t, pats);
      TailWithout(t, '`');
      BacktickFreeUnchanged(t[1..], pats);
    }
  }

  /** A closing "\n```" after backtick-free text is removed and the text kept. */
  lemma {:induction false} ClosingFenceRemoved(t: string, pats: seq<string>)
    requires FencePatterns(pats) && FirstMatch("\n```", pats) == Some(4) && '`' !in t
    ensures RemoveAll(t + "\n```", pats) == t
    decreases |t|
  {
    var s := t + "\n```";
    if t == [] {
      assert s == "\n```" && s[4..] == [];
    } else {
      assert s[0] == t[0] && s[1] != '`' by {
        if |t| >= 2 {
          assert s[1] == t[1];
        } else {
          assert s[1] == '\n';
        }
      }
      NoFenceAt(s, pats);
      assert s[1..] == t[1..] + "\n```";
      TailWithout(t, '`');
      ClosingFenceRemoved(t[1..], pats);
    }
  }

  /** An opening fence that is the first pattern to match is removed. */
  lemma OpeningFenceRemoved(open: string, x: string, pats: seq<string>)
    requires pats != [] && pats[0] == open && |open| > 0
    ensures RemoveAll(open + x, pats) == RemoveAll(x, pats)
  {
    var s := open + x;
    assert s[..|open|] == open;
    assert s[|open|..] == x;
  }

  /** The text the competitor analysis parses: fences removed, then `trim()`. */
  function StripFences(content: string): (r: string)
    ensures |r| <= |content|
  {
    Trim(RemoveAll(content, CompetitorFence))
  }

  /** A fenced reply whose body has no backticks parses as the trimmed body. */
  lemma FencedRoundTrip(inner: string)
    requires '`' !in inner
    ensures StripFences("```json\n" + inner + "\n```") == Trim(inner)
  {
    assert FencePatterns(CompetitorFence);
    assert FirstMatch("\n```", CompetitorFence) == Some(4) by {
      assert !StartsWith("\n```", "```json\n") && !StartsWith("\n```", "```json");
      assert StartsWith("\n```", "\n```");
    }
    assert "```json\n" + inner + "\n```" == "```json\n" + (inner + "\n```");
    OpeningFenceRemoved("```json\n", inner + "\n```", CompetitorFence);
    ClosingFenceRemoved(inner, CompetitorFence);
  }

  /** A reply without backticks is only trimmed. */
  lemma UnfencedReplyTrimmed(content: string)
    requires '`' !in content
    ensures StripFences(content) == Trim(content)
  {
    BacktickFreeUnchanged(content, CompetitorFence);
  }

  /** The text the landscape analysis parses: the "```json" pass when the
      reply contains "```json", then the plain pass when what is left
      contains "```"; no trim. */
  function CleanLandscape(text: string): (r: string)
    ensures |r| <= |text|
  {
    var t1 := if Contains(text, "```json") then RemoveAll(text, JsonFence) else text;
    if Contains(t1, "```") then RemoveAll(t1, PlainFence) else t1
  }

  /** A fenced reply whose body has no backticks gives the body exactly. */
  lemma LandscapeRoundTrip(inner: string)
    requires '`' !in inner
    ensures CleanLandscape("```json\n" + inner + "\n```") == inner
  {
    var text := "```json\n" + inner + "\n```";
    assert Contains(text, "```json") by {
      assert text[..7] == "```json";
      assert OccursAt(text, "```json", 0);
    }
    assert FencePatterns(JsonFence);
    assert FirstMatch("\n```", JsonFence) == Some(4) by {
      assert !StartsWith("\n```", "```json\n");
      assert StartsWith("\n```", "\n```");
    }
    assert text == "```json\n" + (inner + "\n```");
    OpeningFenceRemoved("```json\n", inner + "\n```", JsonFence);
    ClosingFenceRemoved(inner, JsonFence);
    NotContainsWithoutFirstLetter(inner, "```");
  }

  // ---------------------------------------------------------------------
  // analyzeCompetitor
  // ---------------------------------------------------------------------

  /** The model call: it fails with a message, or returns a reply whose
      first content block's text may be missing. */
  datatype ReplyOutcome = CallFailed(message: string) | Replied(text: Option<string>)

  const ParseFailure := "Failed to parse competitor analysis response"

  /** `{ ...competitor, analysis, redditData }`. */
  datatype CompetitorReport<J> = CompetitorReport(competitor: CompetitorDiscovery.Competitor, analysis: J,
                                                  redditData: seq<CompetitorReddit.RedditPost>)

  /** The Reddit posts the analysis gets: the search result when a token was
      obtained, none when the token request threw. */
  function RedditData(tokenAttempt: nat -> CompetitorRetry.TokenAttempt,
                      respond: string -> CompetitorReddit.SubredditOutcome): seq<CompetitorReddit.RedditPost> {
    if CompetitorRetry.TokenPolicy(tokenAttempt, 0).result.Ok?
    then CompetitorReddit.TopPosts(CompetitorReddit.Harvest(CompetitorReddit.SearchSubreddits, respond))
    else []
  }

  /** The token request, then the search when a token was obtained; a
      failed token request leaves the posts empty. */
  method FetchRedditData(tokenAttempt: nat -> CompetitorRetry.TokenAttempt,
                         respond: string -> CompetitorReddit.SubredditOutcome)
    returns (redditData: seq<CompetitorReddit.RedditPost>)
    ensures redditData == RedditData(tokenAttempt, respond)
  {
    redditData := [];
    var token := CompetitorRetry.GetRedditToken(tokenAttempt);
    if token.result.Ok? {
      var posts, _, _ := CompetitorReddit.SearchReddit(respond);
      redditData := posts;
    }
  }

  /** The reply as `analyzeCompetitor` reads it: a failed call rethrows its
      error; a missing text or a cleaned text that does not parse throws the
      parse failure; otherwise the parsed analysis. */
  function ParsedReply<J>(reply: ReplyOutcome, parse: string -> Option<J>): (r: Result<J, string>)
    ensures reply.CallFailed? ==> r == Err(reply.message)
    ensures reply.Replied? && (reply.text.None? || parse(StripFences(reply.text.value)).None?) ==>
      r == Err(ParseFailure)
    ensures r.Ok? <==> reply.Replied? && reply.text.Some? && parse(StripFences(reply.text.value)).Some?
    ensures r.Ok? ==> r.value == parse(StripFences(reply.text.value)).value
  {
    match reply
    case CallFailed(m) => Err(m)
    case Replied(None) => Err(ParseFailure)
    case Replied(Some(text)) =>
      match parse(StripFences(text))
      case None => Err(ParseFailure)
      case Some(a) => Ok(a)
  }

  /** `analyzeCompetitor(businessIdea, competitor)`: the Reddit search for
      the competitor (a token failure leaves no posts and is not fatal),
      then the model's reply, read by `ParsedReply`: its error is thrown,
      or the report keeps the competitor, the analysis and the top five
      posts. */
  method AnalyzeCompetitor<J>(competitor: CompetitorDiscovery.Competitor,
                              tokenAttempt: nat -> CompetitorRetry.TokenAttempt,
                              respond: string -> CompetitorReddit.SubredditOutcome,
                              reply: ReplyOutcome, parse: string -> Option<J>)
    returns (r: Result<CompetitorReport<J>, string>)
    ensures r.Ok? <==> ParsedReply(reply, parse).Ok?
    ensures r.Err? ==> r.error == ParsedReply(reply, parse).error
    ensures r.Ok? ==>
      r.value == CompetitorReport(competitor, ParsedReply(reply, parse).value,
                                  Take(RedditData(tokenAttempt, respond), 5))
  {
    var redditData := FetchRedditData(tokenAttempt, respond);
    var parsed := ParsedReply(reply, parse);
    if parsed.Err? {
      return Err(parsed.error);
    }
    return Ok(CompetitorReport(competitor, parsed.value, Take(redditData, 5)));
  }

  /** The posts given to the model and kept in the report are at most five,
      sorted by score, and come from listings. */
  lemma ReportPostsBounded(tokenAttempt: nat -> CompetitorRetry.TokenAttempt,
                           respond: string -> CompetitorReddit.SubredditOutcome)
    ensures var d := Take(RedditData(tokenAttempt, respond), 5);
      |d| <= 5 && CompetitorReddit.SortedByScore(d)
      && multiset(d) <= multiset(CompetitorReddit.Harvest(CompetitorReddit.SearchSubreddits, respond))
  {
    var h := CompetitorReddit.Harvest(CompetitorReddit.SearchSubreddits, respond);
    var data := RedditData(tokenAttempt, respond);
    if data == [] {
      assert Take(data, 5) == [];
    } else {
      assert data == CompetitorReddit.TopPosts(h);
      CompetitorReddit.TopPostsSelected(h);
      CompetitorReddit.TakeSorted(data, 5);
    }
  }

  // ---------------------------------------------------------------------
  // analyzeCompetitiveLandscape
  // ---------------------------------------------------------------------

  datatype MarketStructure = MarketStructure(concentration: string, barriers: seq<string>, intensity: string,
                                             maturity: string)
  datatype Dynamics = Dynamics(forces: seq<string>, shareDistribution: string, growthPatterns: string,
                               strategies: seq<string>)
  datatype Opportunity = Opportunity(marketGaps: seq<string>, underservedSegments: seq<string>,
                                     advantages: seq<string>, growthAreas: seq<string>)
  datatype Defensibility = Defensibility(advantages: seq<string>, moats: seq<string>, switchingCosts: string,
                                         networkEffects: string)
  datatype Landscape = Landscape(marketStructure: MarketStructure, dynamics: Dynamics, opportunity: Opportunity,
                                 defensibility: Defensibility, score: real, confidence: real, reasoning: string)

  /** The record returned on any error. */
  const FallbackLandscape := Landscape(
    MarketStructure("Unknown", ["Unknown"], "Unknown", "Unknown"),
    Dynamics(["Unknown"], "Unknown", "Unknown", ["Unknown"]),
    Opportunity(["Unknown"], ["Unknown"], ["Unknown"], ["Unknown"]),
    Defensibility(["Unknown"], ["Unknown"], "Unknown", "Unknown"),
    5.0, 0.5, "Fallback analysis due to API error")

  /** `analyzeCompetitiveLandscape(businessIdea, competitors)`: the parsed
      reply, or the fallback when the call fails, the text is missing or
      the cleaned text does not parse. The parse yields whatever value the
      text describes (`J`), which need not have the fallback's fields; the
      fallback is `FallbackLandscape` read as such a value. */
  function AnalyzeLandscape<J>(reply: ReplyOutcome, parse: string -> Option<J>, fallback: J): (r: J)
    ensures r == fallback <== reply.CallFailed? || reply.text.None?
    ensures reply.Replied? && reply.text.Some? ==>
      r == parse(CleanLandscape(reply.text.value)).GetOr(fallback)
    ensures r == fallback || (reply.Replied? && reply.text.Some?
                              && parse(CleanLandscape(reply.text.value)) == Some(r))
  {
    match reply
    case CallFailed(_) => fallback
    case Replied(None) => fallback
    case Replied(Some(text)) =>
      match parse(CleanLandscape(text))
      case None => fallback
      case Some(a) => a
  }

  /** The landscape never fails: an error gives the fallback, whose score
      is 5 and confidence 0.5, and a fenced reply with a backtick-free body
      is parsed from the body. */
  lemma LandscapeOutcomes<J>(reply: ReplyOutcome, parse: string -> Option<J>, fallback: J, inner: string)
    ensures AnalyzeLandscape(reply, parse, fallback) != fallback ==>
      reply.Replied? && reply.text.Some? && parse(CleanLandscape(reply.text.value)).Some?
    ensures FallbackLandscape.score == 5.0 && FallbackLandscape.confidence == 0.5
    ensures '`' !in inner ==>
      AnalyzeLandscape(Replied(Some("```json\n" + inner + "\n```")), parse, fallback) == parse(inner).GetOr(fallback)
  {
    if '`' !in inner {
      LandscapeRoundTrip(inner);
    }
  }
}
