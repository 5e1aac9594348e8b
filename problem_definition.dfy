/** The problem-definition agent: searches six subreddits for the business
    idea, scores the discussions it finds (clarity, evidence, urgency,
    frequency) and falls back to a fixed mock analysis when the Reddit
    token cannot be obtained or scoring throws on a child without `data`. */
module ProblemDefinition {
  import opened Common
  import opened Lambda

  const RelevantSubreddits: seq<string> :=
    ["entrepreneur", "startups", "smallbusiness", "business", "sidehustle", "indiebiz"]

  const UrgencyWords: seq<string> :=
    ["urgent", "critical", "pain", "problem", "need", "must", "help"]

  /** The fields of a Reddit search child (`post.data`) the scoring reads. */
  datatype Post = Post(title: string, selftext: string, score: int, numComments: int)

  datatype Breakdown = Breakdown(clarity: real, evidence: real, urgency: real, frequency: real)

  datatype ProblemAnalysis = ProblemAnalysis(score: real, breakdown: Breakdown, confidence: real, reasoning: string)

  function BreakdownSum(b: Breakdown): real {
    b.clarity + b.evidence + b.urgency + b.frequency
  }

  // ---------------------------------------------------------------------
  // Scoring (`analyzeRedditData`)
  // ---------------------------------------------------------------------

  /** Sum of `post.data.score` over the posts (the first `reduce`). */
  function TotalScore(posts: seq<Post>): int {
    if posts == [] then 0 else TotalScore(posts[..|posts| - 1]) + posts[|posts| - 1].score
  }

  /** Sum of `post.data.num_comments` over the posts. */
  function TotalComments(posts: seq<Post>): int {
    if posts == [] then 0 else TotalComments(posts[..|posts| - 1]) + posts[|posts| - 1].numComments
  }

  /** The text searched for urgency words: title, a blank, self text, lower-cased. */
  function PostText(p: Post): string {
    Lower(p.title + " " + p.selftext)
  }

  /** `words.filter(word => text.includes(word)).length`. */
  function WordsFound(text: string, words: seq<string>): (k: nat)
    ensures k <= |words|
  {
    if words == [] then 0
    else (if Contains(text, words[0]) then 1 else 0) + WordsFound(text, words[1..])
  }

  /** The number of urgency words a post contributes. */
  function PostUrgency(p: Post): (k: nat)
    ensures k <= |UrgencyWords|
  {
    WordsFound(PostText(p), UrgencyWords)
  }

  /** `urgencyCount`: each post adds the number of distinct urgency words found
      in its text, so at most seven per post. */
  function UrgencyCount(posts: seq<Post>): (k: nat)
    ensures k <= |UrgencyWords| * |posts|
  {
    if posts == [] then 0 else UrgencyCount(posts[..|posts| - 1]) + PostUrgency(posts[|posts| - 1])
  }

  /** `Math.min(0.9, 0.3 + totalPosts / 100)`. */
  function ConfidenceFor(n: nat): (c: real)
    ensures 0.3 <= c <= 0.9
    ensures c == 0.9 <==> n >= 60
  {
    Min(0.9, 0.3 + n as real / 100.0)
  }

  const NoDiscussions := ProblemAnalysis(0.0, Breakdown(0.0, 0.0, 0.0, 0.0), 0.3, "No relevant discussions found")

  /** `RELEVANT_SUBREDDITS.length` as the reasoning line renders it. */
  const SubredditCountText := "6"

  lemma SubredditCountRendered()
    ensures NatToString(|RelevantSubreddits|) == SubredditCountText
  {
  }

  /** The reasoning line: posts analysed, subreddits searched, comments and
      urgency indicators found. */
  function Reasoning(posts: nat, comments: int, urgency: nat): string {
    "Analyzed " + NatToString(posts) + " relevant discussions across "
    + SubredditCountText + " subreddits. Found "
    + IntToString(comments) + " comments and "
    + NatToString(urgency) + " urgency indicators."
  }

  /** The four sub-scores of a non-empty post list, before `toFixed(1)`. */
  function Scores(posts: seq<Post>): (b: Breakdown)
    requires posts != []
    ensures b.clarity <= 3.0 && b.evidence <= 3.0 && b.urgency <= 2.0 && b.frequency <= 2.0
    ensures BreakdownSum(b) <= 10.0
  {
    var n := |posts| as real;
    Breakdown(
      Min(3.0, (TotalScore(posts) as real / (n * 100.0)) * 3.0),
      Min(3.0, (n / 50.0) * 3.0),
      Min(2.0, (UrgencyCount(posts) as real / (n * 2.0)) * 2.0),
      Min(2.0, (TotalComments(posts) as real / (n * 10.0)) * 2.0))
  }

  /** `analyzeRedditData` on exact values (the rounding by `toFixed(1)` is not
      modelled): every sub-score is capped from above, the score is their
      sum, so at most 10, and the confidence depends only on the number of
      posts. The empty list's record is `NoPostsNoDiscussions`. */
  function AnalyzeRedditData(posts: seq<Post>): (a: ProblemAnalysis)
    ensures a.breakdown.clarity <= 3.0 && a.breakdown.evidence <= 3.0
    ensures a.breakdown.urgency <= 2.0 && a.breakdown.frequency <= 2.0
    ensures a.score == BreakdownSum(a.breakdown) <= 10.0
    ensures a.confidence == ConfidenceFor(|posts|)
  {
    if posts == [] then NoDiscussions else Scored(posts)
  }

  /** The record of a non-empty list: the four capped sub-scores, their sum,
      the confidence of the post count and the reasoning line. */
  function Scored(posts: seq<Post>): (a: ProblemAnalysis)
    requires posts != []
    ensures a.breakdown.clarity <= 3.0 && a.breakdown.evidence <= 3.0
    ensures a.breakdown.urgency <= 2.0 && a.breakdown.frequency <= 2.0
    ensures a.score == BreakdownSum(a.breakdown) <= 10.0
    ensures a.confidence == ConfidenceFor(|posts|)
  {
    var b := Scores(posts);
    ProblemAnalysis(BreakdownSum(b), b, ConfidenceFor(|posts|),
                    Reasoning(|posts|, TotalComments(posts), UrgencyCount(posts)))
  }

  /** `getMockAnalysis`: a literal that ignores the idea. */
  function MockAnalysis(businessIdea: string): (a: ProblemAnalysis)
    ensures a.score == BreakdownSum(a.breakdown) == 7.5
    ensures a.confidence == 0.8
  {
    ProblemAnalysis(7.5, Breakdown(2.5, 2.0, 1.5, 1.5), 0.8, "Mock analysis - Reddit API research failed")
  }

  // ---------------------------------------------------------------------
  // Properties of the scoring
  // ---------------------------------------------------------------------

  /** With no posts the analysis is the fixed "no discussions" record. */
  lemma NoPostsNoDiscussions()
    ensures AnalyzeRedditData([]) == NoDiscussions
  {
  }

  /** Evidence reaches its cap of 3 exactly when there are at least 50 posts. */
  lemma EvidenceCap(posts: seq<Post>)
    requires posts != []
    ensures AnalyzeRedditData(posts).breakdown.evidence == 3.0 <==> |posts| >= 50
  {
  }

  /** More posts never lower the confidence. */
  lemma ConfidenceMonotone(m: nat, n: nat)
    requires m <= n
    ensures ConfidenceFor(m) <= ConfidenceFor(n)
  {
  }

  lemma {:induction false} TotalScoreNonNegative(posts: seq<Post>)
    requires forall i :: 0 <= i < |posts| ==> posts[i].score >= 0
    ensures TotalScore(posts) >= 0
  {
    if posts != [] {
      TotalScoreNonNegative(posts[..|posts| - 1]);
    }
  }

  lemma {:induction false} TotalCommentsNonNegative(posts: seq<Post>)
    requires forall i :: 0 <= i < |posts| ==> posts[i].numComments >= 0
    ensures TotalComments(posts) >= 0
  {
    if posts != [] {
      TotalCommentsNonNegative(posts[..|posts| - 1]);
    }
  }

  lemma QuotientSign(a: real, d: real)
    requires d > 0.0
    ensures a >= 0.0 ==> a / d >= 0.0
    ensures a < 0.0 ==> a / d < 0.0
  {
    assert (a / d) * d == a;
  }

  lemma BreakdownNonNegative(posts: seq<Post>)
    requires posts != []
    requires forall i :: 0 <= i < |posts| ==> posts[i].score >= 0 && posts[i].numComments >= 0
    ensures var b := Scores(posts);
      b.clarity >= 0.0 && b.evidence >= 0.0 && b.urgency >= 0.0 && b.frequency >= 0.0
  {
    TotalScoreNonNegative(posts);
    TotalCommentsNonNegative(posts);
    var n := |posts| as real;
    QuotientSign(TotalScore(posts) as real, n * 100.0);
    QuotientSign(n, 50.0);
    QuotientSign(UrgencyCount(posts) as real, n * 2.0);
    QuotientSign(TotalComments(posts) as real, n * 10.0);
  }

  /** The sub-scores are clamped only from above: with non-negative post
      scores and comment counts every sub-score, and so the score, is at
      least 0. */
  lemma ScoresNonNegative(posts: seq<Post>)
    requires forall i :: 0 <= i < |posts| ==> posts[i].score >= 0 && posts[i].numComments >= 0
    ensures var a := AnalyzeRedditData(posts);
      a.breakdown.clarity >= 0.0 && a.breakdown.evidence >= 0.0
      && a.breakdown.urgency >= 0.0 && a.breakdown.frequency >= 0.0 && a.score >= 0.0
  {
    if posts != [] {
      BreakdownNonNegative(posts);
      assert AnalyzeRedditData(posts).breakdown == Scores(posts);
    }
  }

  /** A negative summed post score gives a negative clarity (no lower clamp). */
  lemma NegativeClarity(posts: seq<Post>)
    requires posts != [] && TotalScore(posts) < 0
    ensures AnalyzeRedditData(posts).breakdown.clarity < 0.0
  {
    QuotientSign(TotalScore(posts) as real, |posts| as real * 100.0);
  }

  /** A post adds all seven urgency words exactly when its text contains each
      of them, and nothing exactly when it contains none. */
  lemma {:induction false} WordsFoundExtremes(text: string, words: seq<string>)
    ensures WordsFound(text, words) == |words| <==> forall i :: 0 <= i < |words| ==> Contains(text, words[i])
    ensures WordsFound(text, words) == 0 <==> forall i :: 0 <= i < |words| ==> !Contains(text, words[i])
  {
    if words != [] {
      WordsFoundExtremes(text, words[1..]);
      assert forall i :: 1 <= i < |words| ==> words[i] == words[1..][i - 1];
    }
  }

  // ---------------------------------------------------------------------
  // Collecting posts (`searchReddit`)
  // ---------------------------------------------------------------------

  /** A child of a listing: its `data` record, which a malformed child lacks. */
  datatype Child = Child(data: Option<Post>)

  /** The outcome of one subreddit search: its children, or any error
      (network, HTTP status, or a response without `data.data.children`). */
  datatype SearchOutcome = Listing(children: seq<Child>) | SearchFailed

  function ChildrenOf(o: SearchOutcome): seq<Child> {
    if o.Listing? then o.children else []
  }

  /** The children of every subreddit, in list order; a failed search adds nothing. */
  function Collected(subs: seq<string>, respond: string -> SearchOutcome): seq<Child> {
    if subs == [] then [] else Collected(subs[..|subs| - 1], respond) + ChildrenOf(respond(subs[|subs| - 1]))
  }

  /** `searchReddit`: one search per subreddit in `RELEVANT_SUBREDDITS`,
      pushing the children of each successful one; an error is logged and the
      loop goes on. */
  method SearchReddit(respond: string -> SearchOutcome) returns (results: seq<Child>)
    ensures results == Collected(RelevantSubreddits, respond)
  {
    results := [];
    for i := 0 to |RelevantSubreddits|
      invariant results == Collected(RelevantSubreddits[..i], respond)
    {
      assert RelevantSubreddits[..i + 1][..i] == RelevantSubreddits[..i];
      match respond(RelevantSubreddits[i])
      case Listing(children) =>
        results := results + children;
      case SearchFailed =>
    }
    assert RelevantSubreddits[..|RelevantSubreddits|] == RelevantSubreddits;
  }

  /** Collecting over two runs of subreddits is collecting each, in order. */
  lemma {:induction false} CollectedAppend(a: seq<string>, b: seq<string>, respond: string -> SearchOutcome)
    ensures Collected(a + b, respond) == Collected(a, respond) + Collected(b, respond)
    decreases |b|
  {
    if b == [] {
      assert a + b == a;
    } else {
      var b' := b[..|b| - 1];
      var last := ChildrenOf(respond(b[|b| - 1]));
      assert (a + b)[..|a + b| - 1] == a + b' && (a + b)[|a + b| - 1] == b[|b| - 1];
      assert Collected(a + b, respond) == Collected(a + b', respond) + last;
      CollectedAppend(a, b', respond);
      assert Collected(b, respond) == Collected(b', respond) + last;
    }
  }

  /** A failing subreddit contributes nothing and does not stop the others. */
  lemma {:induction false} FailureSkipped(a: seq<string>, s: string, b: seq<string>, respond: string -> SearchOutcome)
    requires respond(s) == SearchFailed
    ensures Collected(a + [s] + b, respond) == Collected(a, respond) + Collected(b, respond)
  {
    var left := a + [s];
    CollectedAppend(left, b, respond);
    CollectedSnoc(a, s, respond);
    assert ChildrenOf(respond(s)) == [];
  }

  lemma CollectedSnoc(a: seq<string>, s: string, respond: string -> SearchOutcome)
    ensures Collected(a + [s], respond) == Collected(a, respond) + ChildrenOf(respond(s))
  {
    assert (a + [s])[..|a + [s]| - 1] == a;
  }

  /** Every collected post is a child of a subreddit whose search succeeded. */
  lemma {:induction false} CollectedFromListings(subs: seq<string>, respond: string -> SearchOutcome, p: Child)
    requires p in Collected(subs, respond)
    ensures exists i :: 0 <= i < |subs| && respond(subs[i]).Listing? && p in respond(subs[i]).children
  {
    var last := |subs| - 1;
    if p in ChildrenOf(respond(subs[last])) {
      assert respond(subs[last]).Listing?;
    } else {
      CollectedFromListings(subs[..last], respond, p);
      var i :| 0 <= i < last && respond(subs[..last][i]).Listing? && p in respond(subs[..last][i]).children;
      assert subs[..last][i] == subs[i];
    }
  }

  // ---------------------------------------------------------------------
  // The handler
  // ---------------------------------------------------------------------

  /** The outcome of `getRedditToken`: the call answered, possibly without an
      `access_token`, or it threw. */
  datatype TokenOutcome = TokenIssued(accessToken: Option<string>) | TokenFailed

  datatype StoreOutcome = Stored | StoreFailed

  /** `fullAnalysis` without the generated id and timestamp. */
  datatype FullAnalysis = FullAnalysis(businessIdea: string, analysis: ProblemAnalysis)

  datatype ProblemBody = EmptyBody | ErrorBody(error: string) | AnalysisBody(full: FullAnalysis)

  /** Every child carries its `data` record. */
  predicate HasData(cs: seq<Child>) {
    forall i :: 0 <= i < |cs| ==> cs[i].data.Some?
  }

  function PostsOf(cs: seq<Child>): (ps: seq<Post>)
    requires HasData(cs)
    ensures |ps| == |cs| && forall i :: 0 <= i < |cs| ==> ps[i] == cs[i].data.value
  {
    seq(|cs|, i requires 0 <= i < |cs| => cs[i].data.value)
  }

  /** `analyzeRedditData` on the collected children: reading
      `post.data.num_comments` of a child without `data` throws a
      `TypeError` (`None`); an empty list returns before any child is read. */
  function AnalyzeChildren(cs: seq<Child>): (r: Option<ProblemAnalysis>)
    ensures r.None? <==> exists i :: 0 <= i < |cs| && cs[i].data.None?
    ensures r.Some? ==> r.value.score <= 10.0 && r.value.confidence == ConfidenceFor(|cs|)
    ensures cs == [] ==> r == Some(AnalyzeRedditData([]))
  {
    if HasData(cs) then Some(AnalyzeRedditData(PostsOf(cs))) else None
  }

  /** The analysis the handler settles on: the mock one when the token call
      fails or scoring the collected children throws, otherwise the score
      of the collected posts. */
  function ChosenAnalysis(idea: string, token: TokenOutcome, respond: string -> SearchOutcome): (a: ProblemAnalysis)
    ensures token.TokenFailed? ==> a == MockAnalysis(idea)
    ensures token.TokenIssued? && !HasData(Collected(RelevantSubreddits, respond)) ==> a == MockAnalysis(idea)
    ensures a.score <= 10.0
  {
    if token.TokenFailed? then MockAnalysis(idea)
    else AnalyzeChildren(Collected(RelevantSubreddits, respond)).GetOr(MockAnalysis(idea))
  }

  /** The inner `try`/`catch` of the handler that assigns `analysis`: any
      throw, from the token call or from scoring a child without `data`,
      gives the mock analysis. */
  method Investigate(idea: string, token: TokenOutcome, respond: string -> SearchOutcome)
    returns (analysis: ProblemAnalysis)
    ensures token.TokenFailed? ==> analysis == MockAnalysis(idea)
    ensures token.TokenIssued? && !HasData(Collected(RelevantSubreddits, respond)) ==> analysis == MockAnalysis(idea)
    ensures token.TokenIssued? && HasData(Collected(RelevantSubreddits, respond)) ==>
      analysis == AnalyzeRedditData(PostsOf(Collected(RelevantSubreddits, respond)))
  {
    if token.TokenFailed? {
      analysis := MockAnalysis(idea);
    } else {
      var results := SearchReddit(respond);
      match AnalyzeChildren(results)
      case None =>
        analysis := MockAnalysis(idea);
      case Some(a) =>
        analysis := a;
    }
  }

  /** The handler as written: the store step builds `new PutItemCommand(...)`
      and calls `marshall`, neither of which the file imports, so it throws a
      `ReferenceError` and every request that gets past validation ends in
      the outer `catch` with a 500. */
  method HandleAsWritten(event: Event, token: TokenOutcome, respond: string -> SearchOutcome)
    returns (r: Response<ProblemBody>)
    ensures r.headers == HandlerCorsHeaders
    ensures event.httpMethod == "OPTIONS" <==> r.statusCode == 200
    ensures event.httpMethod != "OPTIONS" ==> r.statusCode == 400 || r.statusCode == 500
    ensures event.httpMethod != "OPTIONS" && ParsedBody(event.body).Json? && IdeaGiven(ParsedBody(event.body).businessIdea)
      ==> r == Response(500, HandlerCorsHeaders, ErrorBody(InternalError))
  {
    if event.httpMethod == "OPTIONS" {
      return Response(200, HandlerCorsHeaders, EmptyBody);
    }
    var body := ParsedBody(event.body);
    if body.Malformed? {
      return Response(500, HandlerCorsHeaders, ErrorBody(InternalError));
    }
    if !IdeaGiven(body.businessIdea) {
      return Response(400, HandlerCorsHeaders, ErrorBody(MissingIdeaError));
    }
    var analysis := Investigate(body.businessIdea.value, token, respond);
    // the store call throws before any write is attempted
    r := Response(500, HandlerCorsHeaders, ErrorBody(InternalError));
  }

  /** The handler with the store step importing its commands: preflight,
      validation, the analysis (mock on token failure) and the store write,
      whose failure is a 500. */
  method Handle(event: Event, token: TokenOutcome, respond: string -> SearchOutcome, store: StoreOutcome)
    returns (r: Response<ProblemBody>)
    ensures r.headers == HandlerCorsHeaders
    ensures event.httpMethod == "OPTIONS" ==> r == Response(200, HandlerCorsHeaders, EmptyBody)
    ensures event.httpMethod != "OPTIONS" ==>
      match ParsedBody(event.body)
      case Malformed(_) => r == Response(500, HandlerCorsHeaders, ErrorBody(InternalError))
      case Json(idea) =>
        if !IdeaGiven(idea) then r == Response(400, HandlerCorsHeaders, ErrorBody(MissingIdeaError))
        else if store == StoreFailed then r == Response(500, HandlerCorsHeaders, ErrorBody(InternalError))
        else r == Response(200, HandlerCorsHeaders,
                           AnalysisBody(FullAnalysis(idea.value, ChosenAnalysis(idea.value, token, respond))))
  {
    if event.httpMethod == "OPTIONS" {
      return Response(200, HandlerCorsHeaders, EmptyBody);
    }
    var body := ParsedBody(event.body);
    if body.Malformed? {
      return Response(500, HandlerCorsHeaders, ErrorBody(InternalError));
    }
    if !IdeaGiven(body.businessIdea) {
      return Response(400, HandlerCorsHeaders, ErrorBody(MissingIdeaError));
    }
    var idea := body.businessIdea.value;
    var analysis := Investigate(idea, token, respond);
    var full := FullAnalysis(idea, analysis);
    if store == StoreFailed {
      return Response(500, HandlerCorsHeaders, ErrorBody(InternalError));
    }
    r := Response(200, HandlerCorsHeaders, AnalysisBody(full));
  }

  /** With a failing token call the handler answers with the mock analysis,
      whatever the searches would have returned. */
  lemma TokenFailureGivesMock(idea: string, respond: string -> SearchOutcome)
    ensures ChosenAnalysis(idea, TokenFailed, respond).score == 7.5
    ensures ChosenAnalysis(idea, TokenFailed, respond).confidence == 0.8
  {
  }

  /** Without any successful search nothing is collected. */
  lemma {:induction false} NothingListedNothingCollected(subs: seq<string>, respond: string -> SearchOutcome)
    requires forall k :: 0 <= k < |subs| ==> respond(subs[k]) == SearchFailed
    ensures Collected(subs, respond) == []
  {
    if subs != [] {
      var last := |subs| - 1;
      assert forall k :: 0 <= k < last ==> subs[..last][k] == subs[k];
      NothingListedNothingCollected(subs[..last], respond);
    }
  }

  /** A child of a subreddit whose search succeeded is among the collected ones. */
  lemma {:induction false} ListingCollected(subs: seq<string>, respond: string -> SearchOutcome, k: nat, c: Child)
    requires k < |subs| && respond(subs[k]).Listing? && c in respond(subs[k]).children
    ensures c in Collected(subs, respond)
  {
    var last := |subs| - 1;
    if k < last {
      assert subs[..last][k] == subs[k];
      ListingCollected(subs[..last], respond, k, c);
    }
  }

  /** One child without `data` in any listing makes the whole analysis the
      mock one, whatever the other children hold. */
  lemma MalformedChildGivesMock(idea: string, accessToken: Option<string>, respond: string -> SearchOutcome,
                                k: nat, j: nat)
    requires k < |RelevantSubreddits| && respond(RelevantSubreddits[k]).Listing?
    requires j < |respond(RelevantSubreddits[k]).children| && respond(RelevantSubreddits[k]).children[j].data.None?
    ensures ChosenAnalysis(idea, TokenIssued(accessToken), respond) == MockAnalysis(idea)
    ensures ChosenAnalysis(idea, TokenIssued(accessToken), respond).score == 7.5
  {
    var c := respond(RelevantSubreddits[k]).children[j];
    ListingCollected(RelevantSubreddits, respond, k, c);
  }
}
