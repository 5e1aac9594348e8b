/** The competitor-research agent's Reddit search: one request per
    subreddit, a rate-limit wait carried to the next request, and the
    top posts by score. Each subreddit's response is an input. */
module CompetitorReddit {
  import opened Common

  const SearchSubreddits: seq<string> :=
    ["startups", "entrepreneur", "smallbusiness", "business", "investing", "stocks", "finance", "technology",
     "producthunt", "indiehackers"]

  const MaxRedditPosts: nat := 50

  /** A child of a listing, as Reddit sends it. */
  datatype RawPost = RawPost(title: string, permalink: string, score: int, numComments: int, createdUtc: int,
                             subreddit: string, author: string, selftext: string)

  /** A post as the agent keeps it. */
  datatype RedditPost = RedditPost(title: string, url: string, score: int, comments: int, createdUtc: int,
                                   subreddit: string, author: string, selftext: string)

  /** One subreddit's response: a listing (whose `data.data.children` may be
      missing), an HTTP error with its status and parsed `retry-after`
      header, or a failure without a response. */
  datatype SubredditOutcome =
    | Listing(children: Option<seq<RawPost>>)
    | HttpError(status: int, retryAfter: Option<int>)
    | NoResponse

  function ToPost(p: RawPost): (q: RedditPost)
    ensures q.url == "https://reddit.com" + p.permalink && q.score == p.score && q.title == p.title
  {
    RedditPost(p.title, "https://reddit.com" + p.permalink, p.score, p.numComments, p.createdUtc, p.subreddit,
               p.author, p.selftext)
  }

  function ToPosts(ps: seq<RawPost>): (qs: seq<RedditPost>)
    ensures |qs| == |ps| && forall i :: 0 <= i < |ps| ==> qs[i] == ToPost(ps[i])
  {
    seq(|ps|, i requires 0 <= i < |ps| => ToPost(ps[i]))
  }

  /** The posts a response contributes: the children of a listing that has them. */
  function Found(o: SubredditOutcome): seq<RedditPost> {
    if o.Listing? && o.children.Some? then ToPosts(o.children.value) else []
  }

  /** The posts collected over `subs`, in request order. */
  function Harvest(subs: seq<string>, respond: string -> SubredditOutcome): seq<RedditPost> {
    if subs == [] then [] else Harvest(subs[..|subs| - 1], respond) + Found(respond(subs[|subs| - 1]))
  }

  /** The seconds a response asks the next request to wait: the
      `retry-after` header (60 when absent) after a 429, nothing otherwise. */
  function ResetAfter(o: SubredditOutcome): int {
    if o.HttpError? && o.status == 429 then o.retryAfter.GetOr(60) else 0
  }

  /** The sleep before the request to subreddit `k`, in milliseconds: only
      the previous subreddit's response decides it. */
  function WaitBefore(subs: seq<string>, respond: string -> SubredditOutcome, k: nat): (ms: int)
    requires k < |subs|
    ensures ms >= 0 && (k == 0 ==> ms == 0)
    ensures k > 0 ==> (ms > 0 <==> ResetAfter(respond(subs[k - 1])) > 0)
  {
    if k == 0 then 0
    else
      var reset := ResetAfter(respond(subs[k - 1]));
      if reset > 0 then reset * 1000 else 0
  }

  // ---------------------------------------------------------------------
  // Sorting by score
  // ---------------------------------------------------------------------

  predicate SortedByScore(s: seq<RedditPost>) {
    forall i, j :: 0 <= i < j < |s| ==> s[i].score >= s[j].score
  }

  /** Places `x` before the first post it does not score below. */
  function Insert(x: RedditPost, s: seq<RedditPost>): seq<RedditPost> {
    if s == [] || x.score >= s[0].score then [x] + s else [s[0]] + Insert(x, s[1..])
  }

  /** `sort((a, b) => b.score - a.score)`: a stable sort, highest score first. */
  function SortByScore(s: seq<RedditPost>): seq<RedditPost> {
    if s == [] then [] else Insert(s[0], SortByScore(s[1..]))
  }

  /** The posts of `s` with score `v`, in order. */
  function OfScore(s: seq<RedditPost>, v: int): seq<RedditPost> {
    if s == [] then [] else (if s[0].score == v then [s[0]] else []) + OfScore(s[1..], v)
  }

  lemma {:induction false} InsertPermutes(x: RedditPost, s: seq<RedditPost>)
    ensures multiset(Insert(x, s)) == multiset(s) + multiset{x}
    decreases |s|
  {
    if s != [] && x.score < s[0].score {
      InsertPermutes(x, s[1..]);
      assert s == [s[0]] + s[1..];
    }
  }

  /** Every post of `s` scores at most `v`. */
  predicate AllAtMost(s: seq<RedditPost>, v: int) {
    forall i :: 0 <= i < |s| ==> s[i].score <= v
  }

  lemma {:induction false} InsertAtMost(x: RedditPost, s: seq<RedditPost>, v: int)
    requires x.score <= v && AllAtMost(s, v)
    ensures AllAtMost(Insert(x, s), v)
    decreases |s|
  {
    if s != [] && x.score < s[0].score {
      InsertAtMost(x, s[1..], v);
      assert Insert(x, s) == [s[0]] + Insert(x, s[1..]);
    }
  }

  lemma {:induction false} InsertSorted(x: RedditPost, s: seq<RedditPost>)
    requires SortedByScore(s)
    ensures SortedByScore(Insert(x, s))
    decreases |s|
  {
    if s != [] && x.score < s[0].score {
      var rest := s[1..];
      var t := Insert(x, rest);
      assert SortedByScore(t) by {
        InsertSorted(x, rest);
      }
      assert AllAtMost(t, s[0].score) by {
        assert AllAtMost(rest, s[0].score) by {
          forall m | 0 <= m < |rest| ensures rest[m].score <= s[0].score {
            assert rest[m] == s[m + 1];
          }
        }
        InsertAtMost(x, rest, s[0].score);
      }
      var r := [s[0]] + t;
      assert Insert(x, s) == r;
      forall i, j | 0 <= i < j < |r| ensures r[i].score >= r[j].score {
        assert r[j] == t[j - 1];
        if i > 0 {
          assert r[i] == t[i - 1];
        }
      }
    }
  }

  lemma {:induction false} SortOrders(s: seq<RedditPost>)
    ensures SortedByScore(SortByScore(s))
  {
    if s != [] {
      SortOrders(s[1..]);
      InsertSorted(s[0], SortByScore(s[1..]));
    }
  }

  lemma {:induction false} SortPermutes(s: seq<RedditPost>)
    ensures multiset(SortByScore(s)) == multiset(s)
  {
    if s != [] {
      SortPermutes(s[1..]);
      InsertPermutes(s[0], SortByScore(s[1..]));
      assert s == [s[0]] + s[1..];
    }
  }

  /** `results.sort((a, b) => b.score - a.score)`: scores do not increase
      and the posts are those collected. */
  lemma SortSorted(s: seq<RedditPost>)
    ensures SortedByScore(SortByScore(s))
    ensures multiset(SortByScore(s)) == multiset(s)
  {
    SortOrders(s);
    SortPermutes(s);
  }

  lemma {:induction false} OfScoreAppend(a: seq<RedditPost>, b: seq<RedditPost>, v: int)
    ensures OfScore(a + b, v) == OfScore(a, v) + OfScore(b, v)
  {
    if a != [] {
      assert (a + b)[1..] == a[1..] + b;
      OfScoreAppend(a[1..], b, v);
    } else {
      assert a + b == b;
    }
  }

  lemma {:induction false} InsertStable(x: RedditPost, s: seq<RedditPost>, v: int)
    requires SortedByScore(s)
    ensures OfScore(Insert(x, s), v) == OfScore([x] + s, v)
    decreases |s|
  {
    if s != [] && x.score < s[0].score {
      var rest := s[1..];
      var ox, o0, or := OfScore([x], v), OfScore([s[0]], v), OfScore(rest, v);
      assert OfScore(Insert(x, s), v) == o0 + (ox + or) by {
        assert Insert(x, s) == [s[0]] + Insert(x, rest);
        OfScoreAppend([s[0]], Insert(x, rest), v);
        InsertStable(x, rest, v);
        OfScoreAppend([x], rest, v);
      }
      assert OfScore([x] + s, v) == ox + (o0 + or) by {
        assert [x] + s == [x] + ([s[0]] + rest);
        OfScoreAppend([x], s, v);
        OfScoreAppend([s[0]], rest, v);
      }
      // x and s[0] differ in score, so at most one of them is kept
      assert ox == [] || o0 == [] by {
        assert [x][1..] == [] && [s[0]][1..] == [];
      }
    }
  }

  /** Posts of equal score keep their collected order. */
  lemma {:induction false} SortStable(s: seq<RedditPost>, v: int)
    ensures OfScore(SortByScore(s), v) == OfScore(s, v)
  {
    if s != [] {
      SortStable(s[1..], v);
      SortOrders(s[1..]);
      InsertStable(s[0], SortByScore(s[1..]), v);
      OfScoreAppend([s[0]], SortByScore(s[1..]), v);
      OfScoreAppend([s[0]], s[1..], v);
      assert s == [s[0]] + s[1..];
    }
  }

  /** A prefix of a sorted list is sorted and drawn from the list. */
  lemma TakeSorted(s: seq<RedditPost>, n: nat)
    requires SortedByScore(s)
    ensures SortedByScore(Take(s, n)) && multiset(Take(s, n)) <= multiset(s)
  {
    if |s| > n {
      assert s == Take(s, n) + s[n..];
    }
  }

  /** `results.sort(...).slice(0, MAX_REDDIT_POSTS)`. */
  function TopPosts(s: seq<RedditPost>): (top: seq<RedditPost>)
    ensures |top| <= MaxRedditPosts
  {
    Take(SortByScore(s), MaxRedditPosts)
  }

  /** The selection is sorted, at most 50 long, drawn from the collected
      posts, and keeps every collected post when there are at most 50. */
  lemma TopPostsSelected(s: seq<RedditPost>)
    ensures SortedByScore(TopPosts(s)) && |TopPosts(s)| <= MaxRedditPosts
    ensures multiset(TopPosts(s)) <= multiset(s)
    ensures |s| <= MaxRedditPosts ==> TopPosts(s) == SortByScore(s) && multiset(TopPosts(s)) == multiset(s)
  {
    SortSorted(s);
    var sorted := SortByScore(s);
    TakeSorted(sorted, MaxRedditPosts);
    assert |sorted| == |multiset(sorted)| == |multiset(s)| == |s|;
  }

  /** A collected post left out of the selection scores no more than any
      post kept. */
  lemma TopPostsBest(s: seq<RedditPost>, p: RedditPost, q: RedditPost)
    requires p in TopPosts(s) && q in s && q !in TopPosts(s)
    ensures q.score <= p.score
  {
    SortSorted(s);
    var sorted := SortByScore(s);
    var top := TopPosts(s);
    assert q in multiset(sorted);
    var j :| 0 <= j < |sorted| && sorted[j] == q;
    var i :| 0 <= i < |top| && top[i] == p;
    assert sorted[i] == p;
  }

  // ---------------------------------------------------------------------
  // The search loop
  // ---------------------------------------------------------------------

  /** `searchReddit(query, token)`: the search loop over
      `SEARCH_SUBREDDITS`, then the sort and slice. */
  method SearchReddit(respond: string -> SubredditOutcome)
    returns (posts: seq<RedditPost>, requested: seq<string>, waits: seq<int>)
    ensures requested == SearchSubreddits
    ensures |waits| == |requested|
    ensures forall k :: 0 <= k < |waits| ==> waits[k] == WaitBefore(SearchSubreddits, respond, k)
    ensures posts == TopPosts(Harvest(SearchSubreddits, respond))
  {
    var results;
    results, requested, waits := SearchEach(SearchSubreddits, respond);
    posts := TopPosts(results);
  }

  /** The loop of `searchReddit` over `subs`: each subreddit is requested
      once, in order; the wait a 429 asks for is slept before the next
      request and then cleared; a 404, a 429 or any other error skips the
      subreddit. */
  method SearchEach(subs: seq<string>, respond: string -> SubredditOutcome)
    returns (results: seq<RedditPost>, requested: seq<string>, waits: seq<int>)
    ensures requested == subs
    ensures |waits| == |requested| && forall k :: 0 <= k < |waits| ==> waits[k] == WaitBefore(subs, respond, k)
    ensures results == Harvest(subs, respond)
  {
    results := [];
    var rateLimitReset := 0;
    requested := [];
    waits := [];
    for i := 0 to |subs|
      invariant requested == subs[..i]
      invariant |waits| == i && forall k :: 0 <= k < i ==> waits[k] == WaitBefore(subs, respond, k)
      invariant results == Harvest(subs[..i], respond)
      invariant i == 0 ==> rateLimitReset == 0
      invariant i > 0 ==> (rateLimitReset > 0 <==> ResetAfter(respond(subs[i - 1])) > 0)
      invariant i > 0 && rateLimitReset > 0 ==> rateLimitReset == ResetAfter(respond(subs[i - 1]))
    {
      assert subs[..i + 1][..i] == subs[..i];
      var subreddit := subs[i];
      var wait := 0;
      if rateLimitReset > 0 {
        wait := rateLimitReset * 1000;
        rateLimitReset := 0;
      }
      assert wait == WaitBefore(subs, respond, i);
      ghost var before := waits;
      waits := waits + [wait];
      assert forall k :: 0 <= k < i ==> waits[k] == before[k];
      requested := requested + [subreddit];
      match respond(subreddit)
      case Listing(children) =>
        if children.Some? {
          results := results + ToPosts(children.value);
        }
      case HttpError(status, retryAfter) =>
        if status == 404 {
        } else if status == 429 {
          rateLimitReset := retryAfter.GetOr(60);
        }
      case NoResponse =>
    }
    assert subs[..|subs|] == subs;
  }

  /** Every collected post comes from a listing with children. */
  lemma {:induction false} HarvestFromListings(subs: seq<string>, respond: string -> SubredditOutcome, p: RedditPost)
    requires p in Harvest(subs, respond)
    ensures exists i ::
      && 0 <= i < |subs| && respond(subs[i]).Listing? && respond(subs[i]).children.Some?
      && p in ToPosts(respond(subs[i]).children.value)
  {
    var last := |subs| - 1;
    if p in Found(respond(subs[last])) {
      assert respond(subs[last]).Listing?;
    } else {
      HarvestFromListings(subs[..last], respond, p);
      var i :| 0 <= i < last && respond(subs[..last][i]).Listing? && respond(subs[..last][i]).children.Some?
        && p in ToPosts(respond(subs[..last][i]).children.value);
      assert subs[..last][i] == subs[i];
    }
  }

  /** The search result is sorted by non-increasing score, at most 50 long,
      and holds only posts of subreddits whose request returned a listing. */
  lemma SearchResultProperties(respond: string -> SubredditOutcome, p: RedditPost)
    ensures var top := TopPosts(Harvest(SearchSubreddits, respond));
      SortedByScore(top) && |top| <= MaxRedditPosts
      && (p in top ==>
            exists i ::
              && 0 <= i < |SearchSubreddits|
              && respond(SearchSubreddits[i]).Listing? && respond(SearchSubreddits[i]).children.Some?
              && p in ToPosts(respond(SearchSubreddits[i]).children.value))
  {
    var h := Harvest(SearchSubreddits, respond);
    TopPostsSelected(h);
    if p in TopPosts(h) {
      assert p in multiset(TopPosts(h));
      assert p in multiset(h);
      HarvestFromListings(SearchSubreddits, respond, p);
    }
  }

  /** The last subreddit's response sets no wait: answers that differ only
      there give the same waits. */
  lemma LastRateLimitUnused(subs: seq<string>, r1: string -> SubredditOutcome, r2: string -> SubredditOutcome)
    requires forall k :: 0 <= k < |subs| - 1 ==> r1(subs[k]) == r2(subs[k])
    ensures forall k :: 0 <= k < |subs| ==> WaitBefore(subs, r1, k) == WaitBefore(subs, r2, k)
  {
  }

  /** A 429 delays only the next request, by its `retry-after` seconds (60
      when absent), and the limited subreddit contributes nothing. */
  lemma RateLimitWaitsOnce(subs: seq<string>, respond: string -> SubredditOutcome, k: nat)
    requires k + 1 < |subs| && respond(subs[k]).HttpError? && respond(subs[k]).status == 429
    ensures var s := respond(subs[k]).retryAfter.GetOr(60);
      WaitBefore(subs, respond, k + 1) == (if s > 0 then s * 1000 else 0)
    ensures Found(respond(subs[k])) == []
  {
  }
}
