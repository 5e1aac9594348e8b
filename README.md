# Investment due-diligence agents: a verified model

This project models the decision logic of the investment-dd-tool backend in Dafny. The backend has three AWS Lambda agents and a shared CORS wrapper:

- **Problem definition.** Searches six subreddits for a business idea and scores what it finds on clarity, evidence, urgency and frequency. If the Reddit token cannot be had, or scoring throws on a listing child without `data`, it uses a fixed mock analysis.
- **Market size.** Issues five Census requests, which yield eight figures, and turns them into TAM, SAM, SOM and growth estimates and sums their scores. The confidence is fixed.
- **Competitor research.** Gets a Reddit token with retries, searches ten subreddits under a carried-over rate limit, and keeps the 50 best posts. It builds at most five search queries, grows a competitor list of at most ten entries from search results, and strips code fences from the language model's replies. A landscape analysis falls back to a fixed record on error.
- **CORS wrapper (`corsMiddleware`).** Answers preflight requests itself and merges default CORS headers into every handler response. A thrown error becomes a 500.

Every network, SDK and model call becomes an input value. This covers Census rows, Reddit listings and errors, token attempts, search-result pages, the hostname parser, the model's reply and the JSON parser. Each sleep is returned as the duration it asks for, in milliseconds.

Files and modules:

- `common.dfy` (`Common`): options, results and the JavaScript string operations used. These are `includes`, `replace` with a string pattern, ASCII `toLowerCase`/`toUpperCase`, `trim`, number formatting and the insertion-ordered `Set`.
- `lambda.dfy` (`Lambda`): the API Gateway event and response shapes, and the request-body parse shared by the agents.
- `problem_definition.dfy` (`ProblemDefinition`), `market_size.dfy` (`MarketSize`), `cors.dfy` (`Cors`).
- `competitor_retry.dfy` (`CompetitorRetry`): `delay`, `getRedditToken`, `makeRequest`.
- `competitor_reddit.dfy` (`CompetitorReddit`): the competitor agent's `searchReddit`.
- `competitor_discovery.dfy` (`CompetitorDiscovery`): `generateSearchQueries`, `searchCompetitors`.
- `competitor_replies.dfy` (`CompetitorReplies`): fence stripping, `analyzeCompetitor`, `analyzeCompetitiveLandscape`.

Imperative code becomes methods with loops:

- both `searchReddit` loops;
- the query builder's loops over a growing `Set`;
- the competitor list's nested loops;
- the recursive retries, written as loops over a counter;
- the problem-definition handler's `let analysis` and the `try`/`catch` that replaces it with the mock.

Each loop is proved equal to a recursive or fold definition that follows the source, and the properties are lemmas about that definition. The scoring formulas, the CORS merge and the fence scan are written as functions.

## Model

| member | source | states |
|---|---|---|
| `Common.NatToStringDigits` | backend/lambdas/problem-definition-agent/index.js:131 | A rendered count consists of decimal digits only |
| `Common.ReplaceFirst` | backend/lambdas/competitor-research-agent/index.js:365 | `replace` with a string pattern: a string without the pattern is unchanged, and one that starts with it has that prefix replaced |
| `Common.ReplaceFirstLeftmost` | backend/lambdas/competitor-research-agent/index.js:365-368 | When the leftmost occurrence of the pattern is at index i, the result is `s[..i] + rep + s[i + |pat|..]`: exactly that occurrence is replaced, wherever it lies |
| `Common.TrimStart` | backend/lambdas/competitor-research-agent/index.js:676 | The result is a suffix of the input; everything dropped is whitespace and the result does not start with whitespace |
| `Common.TrimEnd` | backend/lambdas/competitor-research-agent/index.js:676 | The result is a prefix of the input; everything dropped is whitespace and the result does not end with whitespace |
| `Common.Trim` | backend/lambdas/competitor-research-agent/index.js:676 | The result is the input with whitespace runs cut at both ends, and it neither starts nor ends with whitespace |
| `Common.Lower` | backend/lambdas/problem-definition-agent/index.js:109 | `toLowerCase` keeps the length and lower-cases each character in place |
| `Common.Upper` | backend/lambdas/competitor-research-agent/index.js:435 | `toUpperCase` keeps the length and upper-cases each character in place |
| `Common.SetAdd` | backend/lambdas/competitor-research-agent/index.js:351 | `Set.add` in insertion order: the element is present afterwards, the old contents are a prefix, at most one element is added, none when it was already there, and no duplicates arise |
| `Lambda.ParsedBody` | backend/lambdas/problem-definition-agent/index.js:166 | An absent body reads as the empty object; any other body is kept as it is |
| `ProblemDefinition.WordsFound` | backend/lambdas/problem-definition-agent/index.js:110 | A text contributes at most one per word, so at most the number of words |
| `ProblemDefinition.WordsFoundExtremes` | backend/lambdas/problem-definition-agent/index.js:108-111 | The count equals the number of words exactly when every word occurs, and is 0 exactly when none occurs |
| `ProblemDefinition.PostUrgency` | backend/lambdas/problem-definition-agent/index.js:108-111 | One post adds at most 7 urgency indicators |
| `ProblemDefinition.UrgencyCount` | backend/lambdas/problem-definition-agent/index.js:108-111 | The urgency count is at most 7 times the number of posts |
| `ProblemDefinition.ConfidenceFor` | backend/lambdas/problem-definition-agent/index.js:120 | Confidence lies in [0.3, 0.9] and equals 0.9 exactly from 60 posts on |
| `ProblemDefinition.ConfidenceMonotone` | backend/lambdas/problem-definition-agent/index.js:120 | Confidence never decreases as the post count grows |
| `ProblemDefinition.Scores` | backend/lambdas/problem-definition-agent/index.js:114-117 | Clarity ≤ 3, evidence ≤ 3, urgency ≤ 2, frequency ≤ 2 |
| `ProblemDefinition.AnalyzeRedditData` | backend/lambdas/problem-definition-agent/index.js:75-133 | Clarity and evidence are at most 3, urgency and frequency at most 2. The score is their sum, so at most 10. The confidence depends only on the post count |
| `ProblemDefinition.NoPostsNoDiscussions` | backend/lambdas/problem-definition-agent/index.js:76-87 | No posts gives the fixed record: score 0, four zero sub-scores, confidence 0.3 |
| `ProblemDefinition.Scored` | backend/lambdas/problem-definition-agent/index.js:90-133 | For a non-empty list: clarity and evidence at most 3, urgency and frequency at most 2, the score is their sum and at most 10, and the confidence is that of the post count |
| `ProblemDefinition.Reasoning` | backend/lambdas/problem-definition-agent/index.js:131 | The reasoning line: post count, subreddit count, comment total and urgency count in the source's wording |
| `ProblemDefinition.SubredditCountRendered` | backend/lambdas/problem-definition-agent/index.js:131 | The reasoning line's subreddit count, `RELEVANT_SUBREDDITS.length`, renders as "6" |
| `ProblemDefinition.EvidenceCap` | backend/lambdas/problem-definition-agent/index.js:115 | Evidence reaches its cap of 3 exactly when there are at least 50 posts |
| `ProblemDefinition.TotalScoreNonNegative` | backend/lambdas/problem-definition-agent/index.js:96 | Non-negative post scores sum to a non-negative total |
| `ProblemDefinition.TotalCommentsNonNegative` | backend/lambdas/problem-definition-agent/index.js:92-95 | Non-negative comment counts sum to a non-negative total |
| `ProblemDefinition.BreakdownNonNegative` | backend/lambdas/problem-definition-agent/index.js:92-119 | With non-negative scores and comment counts, all four sub-scores of a non-empty list are ≥ 0 |
| `ProblemDefinition.ScoresNonNegative` | backend/lambdas/problem-definition-agent/index.js:92-119 | With non-negative scores and comment counts, every sub-score and the score are ≥ 0 |
| `ProblemDefinition.NegativeClarity` | backend/lambdas/problem-definition-agent/index.js:114 | A negative summed post score gives a negative clarity: there is no lower clamp |
| `ProblemDefinition.MockAnalysis` | backend/lambdas/problem-definition-agent/index.js:136-146 | The mock breakdown sums to its score of 7.5; its confidence is 0.8 |
| `ProblemDefinition.SearchReddit` | backend/lambdas/problem-definition-agent/index.js:45-72 | The result is the children of each subreddit, concatenated in list order |
| `ProblemDefinition.Collected` | backend/lambdas/problem-definition-agent/index.js:48-69 | The fold the loop computes: each subreddit's listing children in list order, nothing for a failed search |
| `ProblemDefinition.NothingListedNothingCollected` | backend/lambdas/problem-definition-agent/index.js:48-69 | When every subreddit's search fails nothing is collected |
| `ProblemDefinition.ListingCollected` | backend/lambdas/problem-definition-agent/index.js:65 | Every child of a successful listing is among the collected children |
| `ProblemDefinition.CollectedAppend` | backend/lambdas/problem-definition-agent/index.js:48-69 | Collecting over two runs of subreddits is collecting each, in order |
| `ProblemDefinition.FailureSkipped` | backend/lambdas/problem-definition-agent/index.js:66-68 | A failing subreddit contributes nothing and does not stop the loop |
| `ProblemDefinition.CollectedFromListings` | backend/lambdas/problem-definition-agent/index.js:65 | Every collected child is a child of a subreddit whose search succeeded |
| `ProblemDefinition.AnalyzeChildren` | backend/lambdas/problem-definition-agent/index.js:92-96 | Scoring throws exactly when some child has no `data`. Otherwise the analysis has score ≤ 10 and the confidence of the child count; no children gives the no-discussions record |
| `ProblemDefinition.ChosenAnalysis` | backend/lambdas/problem-definition-agent/index.js:178-187 | A token failure gives the mock; so does a collected child without `data`; the score is at most 10 in all cases |
| `ProblemDefinition.Investigate` | backend/lambdas/problem-definition-agent/index.js:178-187 | A token failure gives the mock analysis. With a token, a collected child without `data` makes scoring throw (lines 92-96) and gives the mock too. Otherwise the analysis scores the collected posts |
| `ProblemDefinition.TokenFailureGivesMock` | backend/lambdas/problem-definition-agent/index.js:184-187 | With a failing token call the chosen analysis has score 7.5 and confidence 0.8 |
| `ProblemDefinition.MalformedChildGivesMock` | backend/lambdas/problem-definition-agent/index.js:92-96 | A listing child without `data` in any relevant subreddit makes the chosen analysis the mock, with score 7.5 |
| `ProblemDefinition.HandleAsWritten` | backend/lambdas/problem-definition-agent/index.js:155-219 | As written, OPTIONS is 200 and everything else is 400 or 500. A valid idea always gets a 500, because the store step uses names the file never imports |
| `ProblemDefinition.Handle` | backend/lambdas/problem-definition-agent/index.js:155-219 | OPTIONS gives 200 with an empty body. A bad JSON body gives 500. A missing or empty idea gives 400 (no trim). A failed store gives 500. Otherwise 200 with the chosen analysis |
| `MarketSize.Quotient` | backend/lambdas/market-size-agent/index.js:100 | Integer division is a finite number exactly when the divisor is non-zero, and then multiplies back to the dividend |
| `MarketSize.CalculateTam` | backend/lambdas/market-size-agent/index.js:62-70 | TAM × 10⁶ = population × income. The score is ≤ 3, equals 3 exactly when TAM ≥ 1000, and is 3·TAM/1000 below that |
| `MarketSize.TamFigures` | backend/lambdas/market-size-agent/index.js:52-57 | `Promise.all` over the two TAM requests: fetched exactly when both are, then the pair of figures; a population failure is the reported failure |
| `MarketSize.CalculateSam` | backend/lambdas/market-size-agent/index.js:98-107 | The penetration is the households quotient. The score is never +∞ and is ≤ 3 when finite. With a non-zero household total, SAM is TAM × p and the score is min(3, 3p), for p the internet share |
| `MarketSize.SamWithinTam` | backend/lambdas/market-size-agent/index.js:100-107 | With TAM ≥ 0 and 0 ≤ internet households ≤ total households, 0 ≤ SAM ≤ TAM and 0 ≤ score ≤ 3 |
| `MarketSize.SamScoreCapped` | backend/lambdas/market-size-agent/index.js:107 | A penetration above 100% scores exactly 3 |
| `MarketSize.ZeroHouseholds` | backend/lambdas/market-size-agent/index.js:100-107 | With no households: 0/0 makes score and SAM NaN, a positive count scores 3, a negative one −∞ |
| `MarketSize.CalculateSom` | backend/lambdas/market-size-agent/index.js:138-153 | SOM is always SAM × 0.01 with score 0.2; the fetched figures appear only as details |
| `MarketSize.CalculateMarketGrowth` | backend/lambdas/market-size-agent/index.js:178-192 | Growth is always 0.05 with score 1.0, whatever the fetched figures |
| `MarketSize.TotalScore` | backend/lambdas/market-size-agent/index.js:241 | The total is never +∞ and is ≤ 7.2 when finite. With a finite SAM score it is the exact sum of the four scores; otherwise it is the SAM score itself (NaN or −∞) |
| `MarketSize.StageMessage` | backend/lambdas/market-size-agent/index.js:77-86 | `ECONNABORTED` is reported as "Census API request timed out"; any other error keeps its message |
| `MarketSize.CensusFailures` | backend/lambdas/market-size-agent/index.js:230-285 | The failed Census stages in request order: none exactly when all five requests succeed, at most five |
| `MarketSize.FirstFailure` | backend/lambdas/market-size-agent/index.js:230-295 | The message the handler reports: none exactly when every request and the store succeed; otherwise the first failed stage's message, or the store error |
| `MarketSize.Analysis` | backend/lambdas/market-size-agent/index.js:232-267 | Confidence is 0.8, the score is bounded as above, and SOM and growth scores are 0.2 and 1.0 |
| `MarketSize.Handle` | backend/lambdas/market-size-agent/index.js:206-296 | OPTIONS gives 200 with an empty body and no requests. Every status is 200, 400 or 500. A 200 for POST carries a report with confidence 0.8 |
| `MarketSize.ValidationBeforeCensus` | backend/lambdas/market-size-agent/index.js:218-228 | A missing or empty idea, or no body, gives 400 before any Census request |
| `MarketSize.NoFallback` | backend/lambdas/market-size-agent/index.js:230-295 | With a valid idea, 200 happens exactly when every fetch and the store succeed; otherwise it is a 500 whose body carries the first failure's message |
| `MarketSize.TimeoutReported` | backend/lambdas/market-size-agent/index.js:79-81 | A timed-out population request ends the run with a 500 carrying the fixed timeout message |
| `MarketSize.IdeaDoesNotMatter` | backend/lambdas/market-size-agent/index.js:48-66 | Given the Census figures, status, score, breakdown, confidence and details do not depend on the idea |
| `MarketSize.FiniteReport` | backend/lambdas/market-size-agent/index.js:143 | With a non-zero household total the score is finite and ≤ 7.2, and SOM is one hundredth of SAM |
| `Cors.MergeHeaders` | backend/lambdas/shared/cors.js:25-32 | Keys are the defaults plus the handler's; the handler wins on a collision; missing keys come from the defaults; no headers gives exactly the four defaults |
| `Cors.Wrap` | backend/lambdas/shared/cors.js:1-49 | OPTIONS gives 200 with the preflight headers. A thrown error gives 500 with the error body and the defaults. Otherwise status, body and other fields pass through with merged headers |
| `Cors.PreflightIgnoresHandler` | backend/lambdas/shared/cors.js:4-17 | Preflight never consults the handler; it allows credentials and a max age of 86400 |
| `Cors.NoMaxAgeUnlessSupplied` | backend/lambdas/shared/cors.js:25-32 | Outside preflight a max age is present exactly when the handler supplied one |
| `Cors.ErrorsLookAlike` | backend/lambdas/shared/cors.js:34-46 | Whatever the handler throws, the answer is the same |
| `CompetitorRetry.BackoffMs` | backend/lambdas/competitor-research-agent/index.js:304-307 | The backoff lies between 1 s and 10 s |
| `CompetitorRetry.BackoffSchedule` | backend/lambdas/competitor-research-agent/index.js:305 | The backoff is 1000·2ⁿ ms for n < 4 and 10000 ms from n = 4 on |
| `CompetitorRetry.DelayMsWaitsCap` | backend/lambdas/competitor-research-agent/index.js:406 | `delay(DELAY_MS)` with `DELAY_MS` = 2000 always waits 10000 ms |
| `CompetitorRetry.TokenPolicy` | backend/lambdas/competitor-research-agent/index.js:57-123 | The recursive retry policy: a retryable attempt below the retry cap waits and recurses with the next count; any other attempt ends the run with its result |
| `CompetitorRetry.GetRedditToken` | backend/lambdas/competitor-research-agent/index.js:57-123 | The retry loop computes the source's recursive policy: the same waits and the same result |
| `CompetitorRetry.TokenRunWaits` | backend/lambdas/competitor-research-agent/index.js:92-121 | Every attempt before the last was retryable and was followed by its wait: retry-after (60 s default) after a 429, the backoff otherwise |
| `CompetitorRetry.TokenRunResult` | backend/lambdas/competitor-research-agent/index.js:82-121 | The last attempt decides the result. A retryable last attempt means the retries ran out, so at most 6 attempts |
| `CompetitorRetry.UnauthorizedStops` | backend/lambdas/competitor-research-agent/index.js:94-100 | A 401 throws the invalid-credentials error at once, with no wait |
| `CompetitorRetry.GrantedAfterRetries` | backend/lambdas/competitor-research-agent/index.js:82-91 | A granted attempt after only retryable failures yields its token |
| `CompetitorRetry.TokenObtained` | backend/lambdas/competitor-research-agent/index.js:57-123 | A token is obtained exactly when one of the first six attempts is granted and no earlier attempt stopped the run |
| `CompetitorRetry.RequestPolicy` | backend/lambdas/competitor-research-agent/index.js:316-341 | The recursive request policy: a 429 or 503 below the retry cap waits and recurses; any other outcome ends the run |
| `CompetitorRetry.MakeRequest` | backend/lambdas/competitor-research-agent/index.js:316-341 | The retry loop computes the source's recursive policy |
| `CompetitorRetry.RequestRunWaits` | backend/lambdas/competitor-research-agent/index.js:328-337 | Every attempt before the last was a 429 or 503 and was followed by its wait: retry-after, else 2ᵏ seconds |
| `CompetitorRetry.RequestRunResult` | backend/lambdas/competitor-research-agent/index.js:316-340 | The last attempt's response or error is the result. A throttled last attempt means the 5 retries were used up |
| `CompetitorRetry.OtherErrorsRethrown` | backend/lambdas/competitor-research-agent/index.js:329-340 | Any other error is rethrown at once, with no wait |
| `CompetitorReddit.ToPost` | backend/lambdas/competitor-research-agent/index.js:172-181 | A kept post links to `https://reddit.com` + permalink and keeps title and score |
| `CompetitorReddit.ToPosts` | backend/lambdas/competitor-research-agent/index.js:171-182 | Children are mapped one for one, in order |
| `CompetitorReddit.WaitBefore` | backend/lambdas/competitor-research-agent/index.js:141-152 | The wait is never negative, is 0 before the first request, and is positive exactly when the previous response set a reset |
| `CompetitorReddit.SearchEach` | backend/lambdas/competitor-research-agent/index.js:143-201 | For any subreddit list, each is requested once in order, the wait before request k is the one response k−1 leaves, and the posts are the listings' posts in order |
| `CompetitorReddit.SearchReddit` | backend/lambdas/competitor-research-agent/index.js:126-204 | Each subreddit is requested once, in order. The wait before request k comes from response k−1 only. The result is the top posts of what was collected |
| `CompetitorReddit.RateLimitWaitsOnce` | backend/lambdas/competitor-research-agent/index.js:145-152 | A 429 delays only the next request, by retry-after (60 s default) when positive, and contributes no posts |
| `CompetitorReddit.LastRateLimitUnused` | backend/lambdas/competitor-research-agent/index.js:143-152 | The last subreddit's response affects no wait |
| `CompetitorReddit.HarvestFromListings` | backend/lambdas/competitor-research-agent/index.js:170-183 | Every collected post comes from a listing that had children |
| `CompetitorReddit.SortByScore` | backend/lambdas/competitor-research-agent/index.js:204 | Insertion sort on score, descending; its properties are the `Sort…` lemmas below |
| `CompetitorReddit.SortOrders` | backend/lambdas/competitor-research-agent/index.js:204 | The sort gives non-increasing scores |
| `CompetitorReddit.SortPermutes` | backend/lambdas/competitor-research-agent/index.js:204 | The sort gives a permutation of its input |
| `CompetitorReddit.SortSorted` | backend/lambdas/competitor-research-agent/index.js:204 | The sort gives non-increasing scores and a permutation of its input |
| `CompetitorReddit.SortStable` | backend/lambdas/competitor-research-agent/index.js:204 | Posts of equal score keep their order |
| `CompetitorReddit.TakeSorted` | backend/lambdas/competitor-research-agent/index.js:204 | A prefix of a sorted list is sorted and drawn from the list |
| `CompetitorReddit.TopPosts` | backend/lambdas/competitor-research-agent/index.js:204 | The selection keeps at most 50 posts |
| `CompetitorReddit.TopPostsSelected` | backend/lambdas/competitor-research-agent/index.js:204 | The top posts are sorted, at most 50, drawn from the collected posts, and all of them when there are at most 50 |
| `CompetitorReddit.TopPostsBest` | backend/lambdas/competitor-research-agent/index.js:204 | A collected post left out scores no more than any post kept |
| `CompetitorReddit.SearchResultProperties` | backend/lambdas/competitor-research-agent/index.js:143-204 | The search result is sorted, at most 50 long, and holds only posts of subreddits whose request succeeded |
| `CompetitorDiscovery.BuildQueries` | backend/lambdas/competitor-research-agent/index.js:344-374 | For any competitor list and search terms, the loops over the growing set compute the query fold |
| `CompetitorDiscovery.GenerateSearchQueries` | backend/lambdas/competitor-research-agent/index.js:344-374 | The loops over the growing set compute the query fold |
| `CompetitorDiscovery.TemplateStep` | backend/lambdas/competitor-research-agent/index.js:358-369 | A template step leaves a full set alone, keeps a set duplicate-free with its old contents first, and adds the template when below 5 |
| `CompetitorDiscovery.TemplatesKeepSet` | backend/lambdas/competitor-research-agent/index.js:356-371 | Template steps keep the set duplicate-free and within 5, and never change what came first |
| `CompetitorDiscovery.CategoriesKeepSet` | backend/lambdas/competitor-research-agent/index.js:356-371 | The same holds over both search-term categories |
| `CompetitorDiscovery.SitesDistinct` | backend/lambdas/competitor-research-agent/index.js:349-353 | The three site queries are distinct and are the first contents of the set |
| `CompetitorDiscovery.QueriesShape` | backend/lambdas/competitor-research-agent/index.js:344-374 | The queries are distinct, at most 5, and start with the Nike, Adidas and Under Armour site queries |
| `CompetitorDiscovery.FullStays` | backend/lambdas/competitor-research-agent/index.js:358 | Once 5 queries are held nothing more is added |
| `CompetitorDiscovery.FullTemplatesStay` | backend/lambdas/competitor-research-agent/index.js:358 | The same, for one category |
| `CompetitorDiscovery.FootballSocksFirstTemplate` | backend/lambdas/competitor-research-agent/index.js:359-364 | For "football socks" the first template and its "soccer" variant are added |
| `CompetitorDiscovery.FootballSocksQueries` | backend/lambdas/competitor-research-agent/index.js:344-374 | "football socks" gives the three site queries, "football socks brands" and "soccer socks brands" |
| `CompetitorDiscovery.UpperCaseIdeaQueries` | backend/lambdas/competitor-research-agent/index.js:360-367 | The `includes` calls are case-sensitive: "FOOTBALL SOCKS" gets no variants, and the fixed templates "football socks brands" and "soccer socks companies" fill the set |
| `CompetitorDiscovery.FirstLabel` | backend/lambdas/competitor-research-agent/index.js:430 | The first label is the prefix of the hostname up to its first dot |
| `CompetitorDiscovery.SearchCompetitors` | backend/lambdas/competitor-research-agent/index.js:377-452 | The loops compute the discovery fold over the generated queries, with the set seeded by the known hostnames |
| `CompetitorDiscovery.ScanAll` | backend/lambdas/competitor-research-agent/index.js:398-445 | For any seed list and seen set, the nested loops over queries and results compute the discovery fold |
| `CompetitorDiscovery.HitStep` | backend/lambdas/competitor-research-agent/index.js:417-437 | One result adds at most one entry and changes nothing else; it adds one exactly when the scan is live, the link is eligible, and its hostname parses and is unseen |
| `CompetitorDiscovery.QueryStep` | backend/lambdas/competitor-research-agent/index.js:400-445 | One query: a stopped scan is unchanged; otherwise the query is sent after a 10 s sleep, a failed page aborts, and a page's results are scanned in order |
| `CompetitorDiscovery.DiscoveryFrom` | backend/lambdas/competitor-research-agent/index.js:377-452 | The discovery fold: scan the queries from the known list; an aborted scan returns the known list |
| `CompetitorDiscovery.HitKeeps` | backend/lambdas/competitor-research-agent/index.js:417-437 | One search result keeps the list invariant |
| `CompetitorDiscovery.FreshFromInvariant` | backend/lambdas/competitor-research-agent/index.js:417-437 | Under the list invariant, the known competitors come first, every later entry is fresh and eligible, and hostnames do not repeat |
| `CompetitorDiscovery.DiscoveredHostsFresh` | backend/lambdas/competitor-research-agent/index.js:377-452 | The list starts with the three known competitors and holds at most 10. Each added entry comes from an eligible link, is named after its hostname's first label, and has a hostname that is neither known nor repeated. Each query follows a 10 s sleep |
| `CompetitorDiscovery.DiscoveredWithinCap` | backend/lambdas/competitor-research-agent/index.js:377-452 | For any seed of three distinct strings: the list starts with the three known competitors and holds at most 10; each added entry comes from an eligible link whose hostname parses, is not in the seed and is not another entry's; each query follows a 10 s sleep |
| `CompetitorDiscovery.AsWrittenWithinCap` | backend/lambdas/competitor-research-agent/index.js:377-452 | For the code as written, seeded with the known URLs (lines 388-391): the list still starts with the three known competitors and holds at most 10 |
| `CompetitorDiscovery.HitsSourced` | backend/lambdas/competitor-research-agent/index.js:417-443 | Scanning the results of a requested page keeps every added entry traced to an eligible result of a requested page |
| `CompetitorDiscovery.QueriesSourced` | backend/lambdas/competitor-research-agent/index.js:400-445 | The same holds over any run of queries |
| `CompetitorDiscovery.DiscoveredFromPages` | backend/lambdas/competitor-research-agent/index.js:377-452 | Every added entry has the URL of an eligible result on a requested page, with the first 100 characters of its snippet as positioning |
| `CompetitorDiscovery.HitsKeepRequests` | backend/lambdas/competitor-research-agent/index.js:417-443 | Scanning results issues no request and never clears an abort |
| `CompetitorDiscovery.HitsStopAtUnparsable` | backend/lambdas/competitor-research-agent/index.js:430-431 | An eligible result whose link does not parse stops the scan |
| `CompetitorDiscovery.QueriesStopOnErrors` | backend/lambdas/competitor-research-agent/index.js:400-451 | Over any run of queries, a requested failed page means an abort, and a requested page with an unparsable eligible link means a stop |
| `CompetitorDiscovery.FirstPageFailure` | backend/lambdas/competitor-research-agent/index.js:448-451 | A failing first page returns exactly the known competitors |
| `CompetitorDiscovery.FailedPageReturnsKnown` | backend/lambdas/competitor-research-agent/index.js:446-451 | Any failed page among the requests returns exactly the known competitors |
| `CompetitorDiscovery.UnparsableLinkReturnsKnown` | backend/lambdas/competitor-research-agent/index.js:430-451 | An unparsable eligible link on a requested page ends with the known competitors, unless the list had already reached ten |
| `CompetitorDiscovery.AsWrittenAdmitsKnownHost` | backend/lambdas/competitor-research-agent/index.js:388-391 | With the URLs as seed, a result on www.nike.com is added again, as "WWW" |
| `CompetitorDiscovery.CorrectedSkipsKnownHost` | backend/lambdas/competitor-research-agent/index.js:425-427 | With the hostnames as seed, the same result is skipped |
| `CompetitorReplies.FirstMatch` | backend/lambdas/competitor-research-agent/index.js:520 | A match is a listed non-empty pattern that starts the text; no match means no pattern starts it |
| `CompetitorReplies.BacktickFreeUnchanged` | backend/lambdas/competitor-research-agent/index.js:520 | Text without backticks passes the scan unchanged |
| `CompetitorReplies.RemoveAll` | backend/lambdas/competitor-research-agent/index.js:520 | Removing fence patterns never lengthens the text |
| `CompetitorReplies.StripFences` | backend/lambdas/competitor-research-agent/index.js:520 | The cleaned reply is no longer than the reply |
| `CompetitorReplies.ClosingFenceRemoved` | backend/lambdas/competitor-research-agent/index.js:520 | A closing newline-and-fence after backtick-free text is removed and the text kept |
| `CompetitorReplies.OpeningFenceRemoved` | backend/lambdas/competitor-research-agent/index.js:520 | An opening fence that matches first is removed |
| `CompetitorReplies.FencedRoundTrip` | backend/lambdas/competitor-research-agent/index.js:520 | For backtick-free inner text, "```json\n" + inner + "\n```" becomes trim(inner) |
| `CompetitorReplies.UnfencedReplyTrimmed` | backend/lambdas/competitor-research-agent/index.js:520 | A reply without backticks is only trimmed |
| `CompetitorReplies.LandscapeRoundTrip` | backend/lambdas/competitor-research-agent/index.js:611-617 | The landscape's two passes turn a fenced backtick-free body into exactly the body |
| `CompetitorReplies.CleanLandscape` | backend/lambdas/competitor-research-agent/index.js:611-617 | The landscape's two passes never lengthen the text |
| `CompetitorReplies.FetchRedditData` | backend/lambdas/competitor-research-agent/index.js:458-475 | The posts are the search result when a token is obtained and none when the token request fails |
| `CompetitorReplies.ParsedReply` | backend/lambdas/competitor-research-agent/index.js:510-525 | A failed call gives its error. A missing text or an unparsable cleaned text gives the parse failure. Otherwise the parse of the cleaned text |
| `CompetitorReplies.AnalyzeCompetitor` | backend/lambdas/competitor-research-agent/index.js:455-536 | The error of `ParsedReply` is thrown. Otherwise the report keeps the competitor, the parsed analysis and the top five posts |
| `CompetitorReplies.ReportPostsBounded` | backend/lambdas/competitor-research-agent/index.js:483 | The posts kept are at most five, sorted, and drawn from the collected posts |
| `CompetitorReplies.AnalyzeLandscape` | backend/lambdas/competitor-research-agent/index.js:539-657 | Any error gives the fallback; otherwise whatever the parser makes of the cleaned reply, of any shape |
| `CompetitorReplies.LandscapeOutcomes` | backend/lambdas/competitor-research-agent/index.js:625-656 | A non-fallback result means a parsed reply. The fallback has score 5 and confidence 0.5. A fenced backtick-free body is parsed from the body |

## Left out

- Network and SDK calls are parameters of the model, and their sleeps are returned durations. These are axios and Census requests, Secrets Manager, DynamoDB writes, Anthropic calls, and the Google and Reddit endpoints.
- HTML scraping with cheerio (`extractText`, `div.g` parsing) is not modelled. A results page is given as its `(title, link, snippet)` entries; an absent link is the empty string.
- `new URL(link).hostname` is a function parameter; `None` means the URL does not parse.
- `JSON.parse` of request bodies and model replies is the same: a body is given already parsed, and the reply parser is a parameter.
- Prompt construction and the model's replies are inputs, not modelled.
- Rounding is not modelled. Scores are exact reals before `toFixed(1)`/`parseFloat`. Census figures are integers after `parseInt`, and `retry-after` headers are integers after parsing.
- Floating point is modelled only through `MarketSize.Num`, for a household total of 0. Other IEEE-754 effects (overflow, rounding) are not modelled.
- The competitor handler's fire-and-forget background block is not modelled: it depends on host runtime and concurrency. Its store writes and its `Date.now`/`Math.random` id generation go with it. So are its 202 response and its input validation.
- The axios interceptor pairs in the market-size agent and the frontend client are not modelled. Their retry budget depends on library behaviour that is not shown.
- The other files (CloudFormation custom resource, health check, test script, frontend client, React views) are I/O or UI and not part of this model.
- `MarketSize.TamFigures`: the two TAM fetches run under `Promise.all`, which rejects with whichever failure comes first in time. When both fail, the model reports the population error.
- `CompetitorReddit.ToPost`: `created` is kept as the raw `created_utc`; ISO date formatting is not modelled. A child whose mapping throws counts as a failed subreddit.
- `CompetitorDiscovery.SearchCompetitors`: the early exit after seeding the list is not modelled, since three known competitors never reach the cap of ten.
- `CompetitorDiscovery.FirstLabel`: the name is `Upper(FirstLabel(hostname))` with ASCII upper-casing only; JavaScript's full Unicode `toUpperCase` is not modelled.
- `Common.Trim`, `Common.Lower`, `Common.Upper`: strings are sequences of characters, not UTF-16 code units. `Lower` and `Upper` map ASCII letters only; the few non-ASCII characters that JavaScript lower-cases into ASCII (such as the Kelvin sign) are not modelled, and the ASCII urgency words cannot observe the difference. `trim` uses the ECMAScript whitespace set, and `substring`/`slice` lengths count characters.
- `MarketSize.Handle`: a zero household total gives NaN or ±Infinity figures. The store write's `marshall` (library code not part of this model) throws on these, so the source answers 500 where the model answers 200 with the non-finite figures.
- `ProblemDefinition.AnalyzeChildren`: a child is modelled only by whether it has `data`; a missing `num_comments` or `score`, which makes the JavaScript totals NaN, is not modelled.
- `Lambda.RawBody`: `Json(businessIdea)` holds the idea only as an optional string. A truthy non-string idea such as `42`, which `!businessIdea` accepts, cannot be represented, so the model does not cover the path on which such an idea is accepted.
- `ProblemDefinition.Handle`: the generated `analysisId` and timestamp of `fullAnalysis` are not modelled.

## Findings

| source | as written | input that shows it | evidently intended | confidence | as-written member | corrected member |
|---|---|---|---|---|---|---|
| backend/lambdas/problem-definition-agent/index.js:199-204 | The store step builds `new PutItemCommand(...)` and calls `marshall`, but the file imports neither (lines 1-4). A `ReferenceError` lands in the outer `catch` | Any POST with a non-empty `businessIdea` gets a 500 "Internal server error" | Import both, as the market-size agent does, and answer 200 with the analysis when the write succeeds | not executed | `ProblemDefinition.HandleAsWritten` | `ProblemDefinition.Handle` |
| backend/lambdas/competitor-research-agent/index.js:388-391 | The dedupe set is seeded with the known competitors' full URLs (`https://www.nike.com`) but later compared with hostnames (`www.nike.com`). A known competitor's own site is never recognised | A result titled "Nike Football Socks" linking to `https://www.nike.com/socks` becomes a fourth entry named "WWW" | Seed the set with the known hostnames, so results on known sites are skipped | not executed | `CompetitorDiscovery.AsWrittenAdmitsKnownHost` | `CompetitorDiscovery.SearchCompetitors` |
