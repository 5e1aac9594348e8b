/** Competitor discovery in the competitor-research agent: the search
    queries built from the business idea, and the competitor list grown
    from the search results. Each results page, already reduced to its
    `(title, link, snippet)` entries, and the hostname parser are inputs. */
module CompetitorDiscovery {
  import opened Common
  import CompetitorRetry

  const MaxSearchQueries: nat := 5
  const MaxCompetitors: nat := 10

  /** A competitor entry: one of the known competitors with its literal
      fields, or one built from a search result. */
  datatype Competitor =
    | Known(name: string, url: string, products: seq<string>, priceRange: string, positioning: string,
            marketShare: string, strengths: seq<string>, weaknesses: seq<string>)
    | Scraped(name: string, url: string, category: string, products: seq<string>, priceRange: string,
              positioning: string)

  const Nike := Known("Nike", "https://www.nike.com", ["Nike Elite Football Socks", "Nike Grip Power Football Socks"],
                      "$12-$25", "Premium performance", "35%",
                      ["Brand recognition", "Professional athlete endorsements", "R&D capabilities"],
                      ["Higher price point", "Less focus on niche markets"])
  const Adidas := Known("Adidas", "https://www.adidas.com", ["Adidas Tiro Socks", "Adidas Traxion Socks"],
                        "$10-$20", "Performance and style", "25%",
                        ["Global distribution", "Strong retail presence", "Innovative materials"],
                        ["Less specialized in football", "Competing priorities"])
  const UnderArmour := Known("Under Armour", "https://www.underarmour.com",
                             ["UA HeatGear Socks", "UA Charged Cotton Socks"], "$15-$30", "Technical performance", "15%",
                             ["Technical innovation", "Athlete-focused design", "Strong brand"],
                             ["Higher price point", "Broader product focus"])

  /** `[...KNOWN_COMPETITORS.direct, ...KNOWN_COMPETITORS.indirect]`. */
  const KnownCompetitors: seq<Competitor> := [Nike, Adidas, UnderArmour]

  /** `SEARCH_TERMS.direct` and `SEARCH_TERMS.indirect`, in that order. */
  const SearchTerms: seq<seq<string>> := [
    ["football socks brands", "soccer socks companies", "athletic socks manufacturers", "sports socks brands",
     "performance socks companies"],
    ["athletic wear brands", "sports apparel companies", "athletic sock manufacturers", "performance clothing brands",
     "sports equipment companies"]
  ]

  // ---------------------------------------------------------------------
  // generateSearchQueries
  // ---------------------------------------------------------------------

  function SiteQuery(c: Competitor, businessIdea: string): string {
    "site:" + c.url + " " + businessIdea
  }

  /** The set after adding the site queries of `cs` in order. */
  function AddSites(qs: seq<string>, cs: seq<Competitor>, businessIdea: string): seq<string>
    decreases |cs|
  {
    if cs == [] then qs else AddSites(SetAdd(qs, SiteQuery(cs[0], businessIdea)), cs[1..], businessIdea)
  }

  /** One template's turn: once the set holds five queries nothing is added;
      otherwise the template, then (while below five) its "football" to
      "soccer" variant when the idea mentions "football", then (while below
      five) its "socks" to "sock" variant when the idea mentions "socks". */
  function TemplateStep(qs: seq<string>, template: string, businessIdea: string): (r: seq<string>)
    ensures |qs| >= MaxSearchQueries ==> r == qs
    ensures QuerySet(qs) ==> QuerySet(r) && qs <= r
    ensures |qs| < MaxSearchQueries ==> template in r
  {
    if |qs| >= MaxSearchQueries then qs
    else
      var q1 := SetAdd(qs, template);
      var q2 := if Contains(businessIdea, "football") && |q1| < MaxSearchQueries
                then SetAdd(q1, ReplaceFirst(template, "football", "soccer")) else q1;
      if Contains(businessIdea, "socks") && |q2| < MaxSearchQueries
      then SetAdd(q2, ReplaceFirst(template, "socks", "sock")) else q2
  }

  function AddTemplates(qs: seq<string>, ts: seq<string>, businessIdea: string): seq<string>
    decreases |ts|
  {
    if ts == [] then qs else AddTemplates(TemplateStep(qs, ts[0], businessIdea), ts[1..], businessIdea)
  }

  function AddCategories(qs: seq<string>, cats: seq<seq<string>>, businessIdea: string): seq<string>
    decreases |cats|
  {
    if cats == [] then qs else AddCategories(AddTemplates(qs, cats[0], businessIdea), cats[1..], businessIdea)
  }

  /** `generateSearchQueries(businessIdea)`, as the set's insertion order. */
  function SearchQueries(businessIdea: string): seq<string> {
    AddCategories(AddSites([], KnownCompetitors, businessIdea), SearchTerms, businessIdea)
  }

  /** `generateSearchQueries`: the site queries, then the template loops. */
  method GenerateSearchQueries(businessIdea: string) returns (queries: seq<string>)
    ensures queries == SearchQueries(businessIdea)
  {
    queries := BuildQueries(businessIdea, KnownCompetitors, SearchTerms);
  }

  /** The loops of `generateSearchQueries` over a growing set, for given
      competitor and search-term lists. */
  method BuildQueries(businessIdea: string, competitors: seq<Competitor>, searchTerms: seq<seq<string>>)
    returns (queries: seq<string>)
    ensures queries == AddCategories(AddSites([], competitors, businessIdea), searchTerms, businessIdea)
  {
    queries := [];
    for i := 0 to |competitors|
      invariant AddSites([], competitors, businessIdea) == AddSites(queries, competitors[i..], businessIdea)
    {
      assert competitors[i..][1..] == competitors[i + 1..];
      queries := SetAdd(queries, SiteQuery(competitors[i], businessIdea));
    }
    ghost var sites := queries;
    for c := 0 to |searchTerms|
      invariant AddCategories(sites, searchTerms, businessIdea) == AddCategories(queries, searchTerms[c..], businessIdea)
    {
      assert searchTerms[c..][1..] == searchTerms[c + 1..];
      var category := searchTerms[c];
      ghost var start := queries;
      for t := 0 to |category|
        invariant AddTemplates(start, category, businessIdea) == AddTemplates(queries, category[t..], businessIdea)
      {
        assert category[t..][1..] == category[t + 1..];
        var template := category[t];
        if |queries| < MaxSearchQueries {
          queries := SetAdd(queries, template);
          if Contains(businessIdea, "football") && |queries| < MaxSearchQueries {
            queries := SetAdd(queries, ReplaceFirst(template, "football", "soccer"));
          }
          if Contains(businessIdea, "socks") && |queries| < MaxSearchQueries {
            queries := SetAdd(queries, ReplaceFirst(template, "socks", "sock"));
          }
        }
      }
    }
  }

  /** A query set with no repeats and at most five entries stays so, and
      keeps what it had at the front. */
  predicate QuerySet(qs: seq<string>) {
    NoDuplicates(qs) && |qs| <= MaxSearchQueries
  }

  lemma {:induction false} TemplatesKeepSet(qs: seq<string>, ts: seq<string>, businessIdea: string)
    requires QuerySet(qs)
    ensures QuerySet(AddTemplates(qs, ts, businessIdea)) && qs <= AddTemplates(qs, ts, businessIdea)
    decreases |ts|
  {
    if ts != [] {
      var next := TemplateStep(qs, ts[0], businessIdea);
      assert QuerySet(next) && qs <= next;
      TemplatesKeepSet(next, ts[1..], businessIdea);
    }
  }

  lemma {:induction false} CategoriesKeepSet(qs: seq<string>, cats: seq<seq<string>>, businessIdea: string)
    requires QuerySet(qs)
    ensures QuerySet(AddCategories(qs, cats, businessIdea)) && qs <= AddCategories(qs, cats, businessIdea)
    decreases |cats|
  {
    if cats != [] {
      TemplatesKeepSet(qs, cats[0], businessIdea);
      CategoriesKeepSet(AddTemplates(qs, cats[0], businessIdea), cats[1..], businessIdea);
    }
  }

  /** The three site queries, one per known competitor. */
  function SiteQueries(businessIdea: string): seq<string> {
    [SiteQuery(Nike, businessIdea), SiteQuery(Adidas, businessIdea), SiteQuery(UnderArmour, businessIdea)]
  }

  /** The site queries are distinct: the known URLs differ at a position
      shared by all three queries. */
  lemma SitesDistinct(businessIdea: string)
    ensures AddSites([], KnownCompetitors, businessIdea) == SiteQueries(businessIdea)
    ensures NoDuplicates(SiteQueries(businessIdea))
  {
    var qs := SiteQueries(businessIdea);
    assert qs[0][17] == 'n' && qs[1][17] == 'a' && qs[2][17] == 'u';
    var ks := KnownCompetitors;
    assert ks[1..][1..] == [UnderArmour] && [UnderArmour][1..] == [];
    assert ks[0] == Nike && ks[1..][0] == Adidas;
    calc {
      AddSites([], ks, businessIdea);
      { assert SiteQuery(ks[0], businessIdea) == qs[0] && SetAdd([], qs[0]) == [qs[0]]; }
      AddSites([qs[0]], ks[1..], businessIdea);
      { assert SiteQuery(ks[1..][0], businessIdea) == qs[1] && SetAdd([qs[0]], qs[1]) == [qs[0], qs[1]]; }
      AddSites([qs[0], qs[1]], [UnderArmour], businessIdea);
      { assert SetAdd([qs[0], qs[1]], qs[2]) == qs; }
      AddSites(qs, [], businessIdea);
    }
  }

  /** The queries are distinct, at most five, and begin with the three site
      queries for Nike, Adidas and Under Armour. */
  lemma QueriesShape(businessIdea: string)
    ensures NoDuplicates(SearchQueries(businessIdea)) && |SearchQueries(businessIdea)| <= MaxSearchQueries
    ensures SiteQueries(businessIdea) <= SearchQueries(businessIdea)
  {
    SitesDistinct(businessIdea);
    CategoriesKeepSet(SiteQueries(businessIdea), SearchTerms, businessIdea);
  }

  /** Once five queries are held, nothing more is added. */
  lemma {:induction false} FullStays(qs: seq<string>, cats: seq<seq<string>>, businessIdea: string)
    requires |qs| >= MaxSearchQueries
    ensures AddCategories(qs, cats, businessIdea) == qs
    decreases |cats|
  {
    if cats != [] {
      FullTemplatesStay(qs, cats[0], businessIdea);
      FullStays(qs, cats[1..], businessIdea);
    }
  }

  lemma {:induction false} FullTemplatesStay(qs: seq<string>, ts: seq<string>, businessIdea: string)
    requires |qs| >= MaxSearchQueries
    ensures AddTemplates(qs, ts, businessIdea) == qs
    decreases |ts|
  {
    if ts != [] {
      FullTemplatesStay(qs, ts[1..], businessIdea);
    }
  }

  lemma FootballMentioned()
    ensures Contains("football socks", "football")
  {
    assert OccursAt("football socks", "football", 0);
  }

  lemma SoccerVariant()
    ensures ReplaceFirst("football socks brands", "football", "soccer") == "soccer socks brands"
  {
    var t := "football socks brands";
    assert StartsWith(t, "football");
    assert t[|"football"|..] == " socks brands";
  }

  lemma FirstTemplateNew()
    ensures SetAdd(SiteQueries("football socks"), "football socks brands")
      == SiteQueries("football socks") + ["football socks brands"]
  {
    var sites := SiteQueries("football socks");
    assert forall k :: 0 <= k < 3 ==> sites[k][0] == 's';
  }

  lemma SoccerVariantNew()
    ensures var q1 := SiteQueries("football socks") + ["football socks brands"];
      SetAdd(q1, "soccer socks brands") == q1 + ["soccer socks brands"]
  {
    var sites := SiteQueries("football socks");
    assert forall k :: 0 <= k < 3 ==> sites[k][1] == 'i';
  }

  /** The first template's turn for "football socks": the template and its
      "soccer" variant are new, and the set is then full. */
  lemma FootballSocksFirstTemplate()
    ensures TemplateStep(SiteQueries("football socks"), "football socks brands", "football socks")
      == SiteQueries("football socks") + ["football socks brands", "soccer socks brands"]
  {
    FootballMentioned();
    SoccerVariant();
    FirstTemplateNew();
    SoccerVariantNew();
    var q1 := SiteQueries("football socks") + ["football socks brands"];
    assert q1 + ["soccer socks brands"] == SiteQueries("football socks") + ["football socks brands", "soccer socks brands"];
  }

  /** For "football socks" the first template and its "soccer" variant fill
      the set. */
  lemma FootballSocksQueries()
    ensures SearchQueries("football socks")
      == SiteQueries("football socks") + ["football socks brands", "soccer socks brands"]
  {
    var idea := "football socks";
    SitesDistinct(idea);
    FootballSocksFirstTemplate();
    var ts := SearchTerms[0];
    var first := SiteQueries(idea) + ["football socks brands", "soccer socks brands"];
    FullTemplatesStay(first, ts[1..], idea);
    FullStays(first, SearchTerms[1..], idea);
    assert AddTemplates(SiteQueries(idea), ts, idea) == first;
  }

  /** The `includes` calls are case-sensitive on the idea as given: an upper-case idea
      gets no variants, only the first two templates. */
  lemma UpperCaseIdeaQueries()
    ensures SearchQueries("FOOTBALL SOCKS")
      == SiteQueries("FOOTBALL SOCKS") + ["football socks brands", "soccer socks companies"]
  {
    var idea := "FOOTBALL SOCKS";
    SitesDistinct(idea);
    NotContainsWithoutFirstLetter(idea, "football");
    NotContainsWithoutFirstLetter(idea, "socks");
    var ts := SearchTerms[0];
    var first := TemplateStep(SiteQueries(idea), ts[0], idea);
    assert first == SiteQueries(idea) + ["football socks brands"];
    var second := TemplateStep(first, ts[1], idea);
    assert second == SiteQueries(idea) + ["football socks brands", "soccer socks companies"];
    assert ts[1..][1..] == ts[2..];
    FullTemplatesStay(second, ts[2..], idea);
    FullStays(second, SearchTerms[1..], idea);
  }

  // ---------------------------------------------------------------------
  // searchCompetitors
  // ---------------------------------------------------------------------

  /** One `div.g` entry of a results page: its `h3` text, its link (empty
      when absent) and its snippet text. */
  datatype Hit = Hit(title: string, link: string, snippet: string)

  /** A results page, or a failed request or parse. */
  datatype PageOutcome = Page(hits: seq<Hit>) | PageFailed

  /** The state of the search: the entries so far, the contents of the
      `competitors` set in insertion order, the queries sent, the sleeps
      taken, and whether an exception was thrown. */
  datatype Scan = Scan(details: seq<Competitor>, seen: seq<string>, requested: seq<string>, waits: seq<int>,
                       aborted: bool)

  /** The result: the competitor list, the queries sent and the sleeps. */
  datatype DiscoveryRun = DiscoveryRun(competitors: seq<Competitor>, requested: seq<string>, waits: seq<int>)

  /** `domain.split(".")[0]`. */
  function FirstLabel(domain: string): (first: string)
    ensures first <= domain && '.' !in first
    ensures |first| < |domain| ==> domain[|first|] == '.'
  {
    if domain == [] || domain[0] == '.' then [] else [domain[0]] + FirstLabel(domain[1..])
  }

  /** The entry built for a new hostname. */
  function ScrapedEntry(h: Hit, domain: string): Competitor {
    Scraped(Upper(FirstLabel(domain)), h.link, "unknown", [], "Unknown", Take(h.snippet, 100))
  }

  /** The guard a result must pass before its link is parsed. */
  predicate Eligible(h: Hit) {
    h.title != "" && h.link != "" && !Contains(h.link, "google.com")
  }

  predicate Stopped(st: Scan) {
    st.aborted || |st.details| >= MaxCompetitors
  }

  /** One result: skipped once ten entries are held; an eligible link whose
      hostname cannot be parsed throws; a new hostname adds an entry. */
  function HitStep(st: Scan, h: Hit, hostname: string -> Option<string>): (r: Scan)
    ensures r.requested == st.requested && r.waits == st.waits && (st.aborted ==> r.aborted)
    ensures st.details <= r.details && |r.details| <= |st.details| + 1
    ensures |r.details| == |st.details| + 1 <==>
      !Stopped(st) && Eligible(h) && hostname(h.link).Some? && hostname(h.link).value !in st.seen
  {
    if Stopped(st) || !Eligible(h) then st
    else match hostname(h.link)
      case None => st.(aborted := true)
      case Some(domain) =>
        if domain in st.seen then st
        else st.(seen := st.seen + [domain], details := st.details + [ScrapedEntry(h, domain)])
  }

  function ScanHits(st: Scan, hits: seq<Hit>, hostname: string -> Option<string>): Scan
    decreases |hits|
  {
    if hits == [] then st else ScanHits(HitStep(st, hits[0], hostname), hits[1..], hostname)
  }

  /** One query: nothing once stopped; otherwise a 10 s sleep, the request,
      and the scan of its page (a failed page throws). */
  function QueryStep(st: Scan, q: string, respond: string -> PageOutcome, hostname: string -> Option<string>): Scan {
    if Stopped(st) then st
    else
      var sent := st.(requested := st.requested + [q], waits := st.waits + [CompetitorRetry.BackoffMs(CompetitorRetry.DelayMs)]);
      match respond(q)
      case PageFailed => sent.(aborted := true)
      case Page(hits) => ScanHits(sent, hits, hostname)
  }

  function ScanQueries(st: Scan, qs: seq<string>, respond: string -> PageOutcome,
                       hostname: string -> Option<string>): Scan
    decreases |qs|
  {
    if qs == [] then st else ScanQueries(QueryStep(st, qs[0], respond, hostname), qs[1..], respond, hostname)
  }

  /** `searchCompetitors` over the given queries, with `seed` the first
      contents of the `competitors` set: an exception anywhere returns the
      three known competitors. */
  function Discovery(queries: seq<string>, respond: string -> PageOutcome, hostname: string -> Option<string>,
                     seed: seq<string>): DiscoveryRun {
    DiscoveryFrom(KnownCompetitors, seed, queries, respond, hostname)
  }

  /** The same scan from any first entries `known` and set contents `seed`. */
  function DiscoveryFrom(known: seq<Competitor>, seed: seq<string>, queries: seq<string>,
                         respond: string -> PageOutcome, hostname: string -> Option<string>): DiscoveryRun {
    var st := ScanQueries(Scan(known, seed, [], [], false), queries, respond, hostname);
    DiscoveryRun(if st.aborted then known else st.details, st.requested, st.waits)
  }

  /** The set's first contents as the source writes them: the known
      competitors' URLs, which are never equal to a hostname. */
  const KnownUrls: seq<string> := ["https://www.nike.com", "https://www.adidas.com", "https://www.underarmour.com"]

  /** The hostnames of the known competitors' URLs: what the comparison
      with `new URL(link).hostname` evidently needs. */
  const KnownHosts: seq<string> := ["www.nike.com", "www.adidas.com", "www.underarmour.com"]

  lemma {:induction false} ScanHitsStopped(st: Scan, hits: seq<Hit>, hostname: string -> Option<string>)
    requires Stopped(st)
    ensures ScanHits(st, hits, hostname) == st
    decreases |hits|
  {
    if hits != [] {
      ScanHitsStopped(st, hits[1..], hostname);
    }
  }

  lemma {:induction false} ScanQueriesStopped(st: Scan, qs: seq<string>, respond: string -> PageOutcome,
                                              hostname: string -> Option<string>)
    requires Stopped(st)
    ensures ScanQueries(st, qs, respond, hostname) == st
    decreases |qs|
  {
    if qs != [] {
      ScanQueriesStopped(st, qs[1..], respond, hostname);
    }
  }

  /** `searchCompetitors(businessIdea)`: the known competitors first, then
      for each query until ten entries are held, a sleep, the request and a
      scan of the results; any exception returns the known competitors.
      The set starts from the known hostnames. */
  method SearchCompetitors(businessIdea: string, respond: string -> PageOutcome, hostname: string -> Option<string>)
    returns (run: DiscoveryRun)
    ensures run == Discovery(SearchQueries(businessIdea), respond, hostname, KnownHosts)
  {
    var queries := GenerateSearchQueries(businessIdea);
    run := ScanAll(KnownCompetitors, KnownHosts, queries, respond, hostname);
  }

  /** The loops of `searchCompetitors` from the first entries `known` and
      set contents `seed`: a query per turn after a 10 s sleep, the results
      of its page in order, and the first entries alone when anything throws. */
  method ScanAll(known: seq<Competitor>, seed: seq<string>, queries: seq<string>,
                 respond: string -> PageOutcome, hostname: string -> Option<string>)
    returns (run: DiscoveryRun)
    ensures run == DiscoveryFrom(known, seed, queries, respond, hostname)
  {
    var details := known;
    var seen := seed;
    var requested: seq<string> := [];
    var waits: seq<int> := [];
    ghost var final := ScanQueries(Scan(known, seed, [], [], false), queries, respond, hostname);
    for qi := 0 to |queries|
      invariant final == ScanQueries(Scan(details, seen, requested, waits, false), queries[qi..], respond, hostname)
    {
      assert queries[qi..][1..] == queries[qi + 1..];
      if |details| >= MaxCompetitors {
        ScanQueriesStopped(Scan(details, seen, requested, waits, false), queries[qi..], respond, hostname);
        break;
      }
      var query := queries[qi];
      waits := waits + [CompetitorRetry.BackoffMs(CompetitorRetry.DelayMs)];
      requested := requested + [query];
      match respond(query)
      case PageFailed =>
        ScanQueriesStopped(Scan(details, seen, requested, waits, true), queries[qi + 1..], respond, hostname);
        return DiscoveryRun(known, requested, waits);
      case Page(hits) =>
        for hi := 0 to |hits|
          invariant final == ScanQueries(ScanHits(Scan(details, seen, requested, waits, false), hits[hi..], hostname),
                                         queries[qi + 1..], respond, hostname)
        {
          assert hits[hi..][1..] == hits[hi + 1..];
          if |details| >= MaxCompetitors {
            ScanHitsStopped(Scan(details, seen, requested, waits, false), hits[hi..], hostname);
            break;
          }
          var h := hits[hi];
          if h.title != "" && h.link != "" && !Contains(h.link, "google.com") {
            match hostname(h.link)
            case None =>
              ScanHitsStopped(Scan(details, seen, requested, waits, true), hits[hi + 1..], hostname);
              ScanQueriesStopped(Scan(details, seen, requested, waits, true), queries[qi + 1..], respond, hostname);
              return DiscoveryRun(known, requested, waits);
            case Some(domain) =>
              if domain !in seen {
                seen := seen + [domain];
                details := details + [ScrapedEntry(h, domain)];
              }
          }
        }
    }
    run := DiscoveryRun(details, requested, waits);
  }

  /** What the scan keeps true: the known competitors come first, each
      later entry pairs with the hostname added with it, comes from an
      eligible link with that hostname, and at most ten entries are held;
      every sleep is the full 10 s. */
  predicate ScanInvariant(st: Scan, seed: seq<string>, hostname: string -> Option<string>) {
    && |st.details| == |st.seen| && |seed| == |KnownCompetitors| <= |st.details|
    && st.details[..3] == KnownCompetitors && st.seen[..3] == seed
    && NoDuplicates(st.seen) && |st.details| <= MaxCompetitors
    && (forall i :: 3 <= i < |st.details| ==> Admitted(st.details[i], st.seen[i], hostname))
    && (forall i :: 0 <= i < |st.waits| ==> st.waits[i] == CompetitorRetry.BackoffCapMs)
    && |st.waits| == |st.requested|
  }

  /** A discovered entry for hostname `domain`. */
  predicate Admitted(c: Competitor, domain: string, hostname: string -> Option<string>) {
    && c.Scraped? && c.url != "" && !Contains(c.url, "google.com") && hostname(c.url) == Some(domain)
    && c.name == Upper(FirstLabel(domain)) && c.category == "unknown" && c.products == []
    && c.priceRange == "Unknown" && |c.positioning| <= 100
  }

  lemma HitKeeps(st: Scan, h: Hit, seed: seq<string>, hostname: string -> Option<string>)
    requires ScanInvariant(st, seed, hostname)
    ensures ScanInvariant(HitStep(st, h, hostname), seed, hostname)
  {
    var next := HitStep(st, h, hostname);
    if !Stopped(st) && Eligible(h) && hostname(h.link).Some? && hostname(h.link).value !in st.seen {
      var domain := hostname(h.link).value;
      assert next.details[..3] == st.details[..3] && next.seen[..3] == st.seen[..3];
      assert NoDuplicates(next.seen) by {
        assert next.seen == st.seen + [domain];
      }
      forall i | 3 <= i < |next.details| ensures Admitted(next.details[i], next.seen[i], hostname) {
        if i < |st.details| {
          assert next.details[i] == st.details[i] && next.seen[i] == st.seen[i];
        }
      }
    }
  }

  lemma {:induction false} HitsKeep(st: Scan, hits: seq<Hit>, seed: seq<string>, hostname: string -> Option<string>)
    requires ScanInvariant(st, seed, hostname)
    ensures ScanInvariant(ScanHits(st, hits, hostname), seed, hostname)
    decreases |hits|
  {
    if hits != [] {
      HitKeeps(st, hits[0], seed, hostname);
      HitsKeep(HitStep(st, hits[0], hostname), hits[1..], seed, hostname);
    }
  }

  lemma {:induction false} QueriesKeep(st: Scan, qs: seq<string>, respond: string -> PageOutcome,
                                       hostname: string -> Option<string>, seed: seq<string>)
    requires ScanInvariant(st, seed, hostname)
    ensures ScanInvariant(ScanQueries(st, qs, respond, hostname), seed, hostname)
    decreases |qs|
  {
    if qs != [] {
      var next := QueryStep(st, qs[0], respond, hostname);
      if !Stopped(st) {
        CompetitorRetry.DelayMsWaitsCap();
        var sent := st.(requested := st.requested + [qs[0]],
                        waits := st.waits + [CompetitorRetry.BackoffMs(CompetitorRetry.DelayMs)]);
        assert ScanInvariant(sent, seed, hostname);
        if respond(qs[0]).Page? {
          HitsKeep(sent, respond(qs[0]).hits, seed, hostname);
        }
      }
      QueriesKeep(next, qs[1..], respond, hostname, seed);
    }
  }

  /** With the known hostnames as seed: the list starts with the three known
      competitors and holds at most ten; every later entry comes from an
      eligible link, is named after its hostname's first label, and has a
      hostname that is neither a known competitor's nor another entry's;
      each query sent was preceded by a 10 s sleep. */
  lemma DiscoveredHostsFresh(queries: seq<string>, respond: string -> PageOutcome, hostname: string -> Option<string>)
    ensures var r := Discovery(queries, respond, hostname, KnownHosts);
      && KnownCompetitors <= r.competitors && |r.competitors| <= MaxCompetitors
      && (forall i :: 3 <= i < |r.competitors| ==> FreshEntry(r.competitors[i], hostname))
      && (forall i, j :: 3 <= i < j < |r.competitors| ==>
            hostname(r.competitors[i].url) != hostname(r.competitors[j].url))
      && |r.waits| == |r.requested| && (forall w :: w in r.waits ==> w == CompetitorRetry.BackoffCapMs)
  {
    var init := Scan(KnownCompetitors, KnownHosts, [], [], false);
    assert ScanInvariant(init, KnownHosts, hostname) by {
      CompetitorRetry.DelayMsWaitsCap();
    }
    QueriesKeep(init, queries, respond, hostname, KnownHosts);
    FreshFromInvariant(ScanQueries(init, queries, respond, hostname), hostname);
  }

  /** A discovered entry whose hostname is not a known competitor's. */
  predicate FreshEntry(c: Competitor, hostname: string -> Option<string>) {
    hostname(c.url).Some? && Admitted(c, hostname(c.url).value, hostname) && hostname(c.url).value !in KnownHosts
  }

  /** What the invariant says about the entries after the known three. */
  lemma FreshFromInvariant(st: Scan, hostname: string -> Option<string>)
    requires ScanInvariant(st, KnownHosts, hostname)
    ensures KnownCompetitors <= st.details
    ensures forall i :: 3 <= i < |st.details| ==> FreshEntry(st.details[i], hostname)
    ensures forall i, j :: 3 <= i < j < |st.details| ==>
      hostname(st.details[i].url) != hostname(st.details[j].url)
  {
    forall i | 3 <= i < |st.details| ensures FreshEntry(st.details[i], hostname) {
      assert st.seen[i] !in st.seen[..3] by {
        forall k | 0 <= k < 3 ensures st.seen[k] != st.seen[i] { }
      }
      assert Admitted(st.details[i], st.seen[i], hostname) && st.seen[i] !in KnownHosts;
    }
    forall i, j | 3 <= i < j < |st.details|
      ensures hostname(st.details[i].url) != hostname(st.details[j].url)
    {
      assert Admitted(st.details[i], st.seen[i], hostname) && Admitted(st.details[j], st.seen[j], hostname);
    }
  }

  /** For any seed of three distinct strings, as written with the URLs or
      corrected with the hostnames: the list starts with the three known
      competitors and holds at most ten; every later entry comes from an
      eligible link whose hostname parses, is not in the seed and is not
      another entry's; each query sent was preceded by a 10 s sleep. */
  lemma DiscoveredWithinCap(queries: seq<string>, respond: string -> PageOutcome,
                            hostname: string -> Option<string>, seed: seq<string>)
    requires |seed| == |KnownCompetitors| && NoDuplicates(seed)
    ensures var r := Discovery(queries, respond, hostname, seed);
      && KnownCompetitors <= r.competitors && |r.competitors| <= MaxCompetitors
      && (forall i :: 3 <= i < |r.competitors| ==>
            hostname(r.competitors[i].url).Some? && hostname(r.competitors[i].url).value !in seed
            && Admitted(r.competitors[i], hostname(r.competitors[i].url).value, hostname))
      && (forall i, j :: 3 <= i < j < |r.competitors| ==>
            hostname(r.competitors[i].url) != hostname(r.competitors[j].url))
      && |r.waits| == |r.requested| && (forall w :: w in r.waits ==> w == CompetitorRetry.BackoffCapMs)
  {
    var init := Scan(KnownCompetitors, seed, [], [], false);
    assert ScanInvariant(init, seed, hostname);
    QueriesKeep(init, queries, respond, hostname, seed);
    var st := ScanQueries(init, queries, respond, hostname);
    forall i | 3 <= i < |st.details|
      ensures hostname(st.details[i].url) == Some(st.seen[i]) && st.seen[i] !in seed
    {
      assert Admitted(st.details[i], st.seen[i], hostname);
      forall k | 0 <= k < 3 ensures st.seen[k] != st.seen[i] { }
    }
  }

  /** The same for the code as written, whose seed is the known URLs. */
  lemma AsWrittenWithinCap(queries: seq<string>, respond: string -> PageOutcome, hostname: string -> Option<string>)
    ensures var r := Discovery(queries, respond, hostname, KnownUrls);
      KnownCompetitors <= r.competitors && |r.competitors| <= MaxCompetitors
  {
    assert NoDuplicates(KnownUrls) by {
      assert KnownUrls[0][12] == 'n' && KnownUrls[1][12] == 'a' && KnownUrls[2][12] == 'u';
    }
    DiscoveredWithinCap(queries, respond, hostname, KnownUrls);
  }

  /** Entry `c` was built from result `h`: an eligible result (non-empty
      title, a link without "google.com") whose link it keeps, with the
      snippet cut to 100 characters as its positioning. */
  predicate FromHit(c: Competitor, h: Hit) {
    Eligible(h) && c.url == h.link && c.positioning == Take(h.snippet, 100)
  }

  /** Entry `c` was built from a result on the page of a query sent. */
  predicate FromPage(c: Competitor, requested: seq<string>, respond: string -> PageOutcome) {
    exists q, h :: q in requested && respond(q).Page? && h in respond(q).hits && FromHit(c, h)
  }

  /** Every entry after the known three comes from a page of a query sent. */
  predicate Sourced(st: Scan, respond: string -> PageOutcome) {
    forall i :: 3 <= i < |st.details| ==> FromPage(st.details[i], st.requested, respond)
  }

  lemma HitSourced(st: Scan, h: Hit, q: string, respond: string -> PageOutcome, hostname: string -> Option<string>)
    requires Sourced(st, respond) && |st.details| >= 3
    requires q in st.requested && respond(q).Page? && h in respond(q).hits
    ensures Sourced(HitStep(st, h, hostname), respond) && HitStep(st, h, hostname).requested == st.requested
    ensures |HitStep(st, h, hostname).details| >= 3
  {
    var next := HitStep(st, h, hostname);
    forall i | 3 <= i < |next.details| ensures FromPage(next.details[i], next.requested, respond) {
      if i == |st.details| {
        assert FromHit(next.details[i], h);
      } else {
        assert next.details[i] == st.details[i];
      }
    }
  }

  lemma {:induction false} HitsSourced(st: Scan, hits: seq<Hit>, q: string, respond: string -> PageOutcome,
                                       hostname: string -> Option<string>)
    requires Sourced(st, respond) && |st.details| >= 3
    requires q in st.requested && respond(q).Page? && forall h :: h in hits ==> h in respond(q).hits
    ensures Sourced(ScanHits(st, hits, hostname), respond) && ScanHits(st, hits, hostname).requested == st.requested
    ensures |ScanHits(st, hits, hostname).details| >= 3
    decreases |hits|
  {
    if hits != [] {
      HitSourced(st, hits[0], q, respond, hostname);
      HitsSourced(HitStep(st, hits[0], hostname), hits[1..], q, respond, hostname);
    }
  }

  lemma {:induction false} QueriesSourced(st: Scan, qs: seq<string>, respond: string -> PageOutcome,
                                          hostname: string -> Option<string>)
    requires Sourced(st, respond) && |st.details| >= 3
    ensures Sourced(ScanQueries(st, qs, respond, hostname), respond)
    ensures |ScanQueries(st, qs, respond, hostname).details| >= 3
    decreases |qs|
  {
    if qs != [] {
      var q := qs[0];
      if !Stopped(st) {
        var sent := st.(requested := st.requested + [q],
                        waits := st.waits + [CompetitorRetry.BackoffMs(CompetitorRetry.DelayMs)]);
        forall i | 3 <= i < |sent.details| ensures FromPage(sent.details[i], sent.requested, respond) {
          assert FromPage(st.details[i], st.requested, respond);
          var q', h :| q' in st.requested && respond(q').Page? && h in respond(q').hits && FromHit(st.details[i], h);
          assert q' in sent.requested;
        }
        if respond(q).Page? {
          HitsSourced(sent, respond(q).hits, q, respond, hostname);
        }
      }
      QueriesSourced(QueryStep(st, q, respond, hostname), qs[1..], respond, hostname);
    }
  }

  /** Every discovered entry after the known three was built from an
      eligible result on the page of a query that was sent. */
  lemma DiscoveredFromPages(queries: seq<string>, respond: string -> PageOutcome, hostname: string -> Option<string>,
                            seed: seq<string>)
    ensures var r := Discovery(queries, respond, hostname, seed);
      forall i :: 3 <= i < |r.competitors| ==> FromPage(r.competitors[i], r.requested, respond)
  {
    QueriesSourced(Scan(KnownCompetitors, seed, [], [], false), queries, respond, hostname);
  }

  /** A sent query whose page failed has aborted the scan. */
  predicate FailuresAbort(st: Scan, respond: string -> PageOutcome) {
    forall q :: q in st.requested && respond(q) == PageFailed ==> st.aborted
  }

  /** A sent query whose page holds an eligible result with an unparsable
      link has stopped the scan. */
  predicate UnparsableStops(st: Scan, respond: string -> PageOutcome, hostname: string -> Option<string>) {
    forall q, h ::
      (q in st.requested && respond(q).Page? && h in respond(q).hits && Eligible(h) && hostname(h.link).None?)
      ==> Stopped(st)
  }

  lemma {:induction false} HitsKeepRequests(st: Scan, hits: seq<Hit>, hostname: string -> Option<string>)
    ensures ScanHits(st, hits, hostname).requested == st.requested
    ensures st.aborted ==> ScanHits(st, hits, hostname).aborted
    decreases |hits|
  {
    if hits != [] {
      HitsKeepRequests(HitStep(st, hits[0], hostname), hits[1..], hostname);
    }
  }

  /** Scanning a page past an eligible result with an unparsable link stops
      the scan: it was already stopped, or the `new URL` call threw. */
  lemma {:induction false} HitsStopAtUnparsable(st: Scan, hits: seq<Hit>, hostname: string -> Option<string>, h: Hit)
    requires h in hits && Eligible(h) && hostname(h.link).None?
    ensures Stopped(ScanHits(st, hits, hostname))
    decreases |hits|
  {
    var next := HitStep(st, hits[0], hostname);
    if hits[0] == h {
      assert Stopped(next);
      ScanHitsStopped(next, hits[1..], hostname);
    } else {
      HitsStopAtUnparsable(next, hits[1..], hostname, h);
    }
  }

  lemma {:induction false} QueriesStopOnErrors(st: Scan, qs: seq<string>, respond: string -> PageOutcome,
                                               hostname: string -> Option<string>)
    requires FailuresAbort(st, respond) && UnparsableStops(st, respond, hostname)
    ensures FailuresAbort(ScanQueries(st, qs, respond, hostname), respond)
    ensures UnparsableStops(ScanQueries(st, qs, respond, hostname), respond, hostname)
    decreases |qs|
  {
    if qs != [] {
      var q := qs[0];
      var next := QueryStep(st, q, respond, hostname);
      if !Stopped(st) && respond(q).Page? {
        var sent := st.(requested := st.requested + [q],
                        waits := st.waits + [CompetitorRetry.BackoffMs(CompetitorRetry.DelayMs)]);
        HitsKeepRequests(sent, respond(q).hits, hostname);
        forall q', h | q' in next.requested && respond(q').Page? && h in respond(q').hits && Eligible(h)
          && hostname(h.link).None?
          ensures Stopped(next)
        {
          if q' == q {
            HitsStopAtUnparsable(sent, respond(q).hits, hostname, h);
          }
        }
      }
      QueriesStopOnErrors(next, qs[1..], respond, hostname);
    }
  }

  /** Any sent query whose page failed, for any seed, returns the known
      competitors alone. */
  lemma FailedPageReturnsKnown(queries: seq<string>, respond: string -> PageOutcome, hostname: string -> Option<string>,
                               seed: seq<string>, q: string)
    requires q in Discovery(queries, respond, hostname, seed).requested && respond(q) == PageFailed
    ensures Discovery(queries, respond, hostname, seed).competitors == KnownCompetitors
  {
    QueriesStopOnErrors(Scan(KnownCompetitors, seed, [], [], false), queries, respond, hostname);
  }

  /** An eligible result with an unparsable link on the page of a sent query
      returns the known competitors alone, unless ten entries were held
      before that result was reached. */
  lemma UnparsableLinkReturnsKnown(queries: seq<string>, respond: string -> PageOutcome,
                                   hostname: string -> Option<string>, seed: seq<string>, q: string, h: Hit)
    requires q in Discovery(queries, respond, hostname, seed).requested && respond(q).Page?
    requires h in respond(q).hits && Eligible(h) && hostname(h.link).None?
    ensures var r := Discovery(queries, respond, hostname, seed);
      r.competitors == KnownCompetitors || |r.competitors| >= MaxCompetitors
  {
    QueriesStopOnErrors(Scan(KnownCompetitors, seed, [], [], false), queries, respond, hostname);
  }

  /** A first page that fails returns the known competitors after one query. */
  lemma FirstPageFailure(queries: seq<string>, respond: string -> PageOutcome, hostname: string -> Option<string>,
                         seed: seq<string>)
    requires queries != [] && respond(queries[0]) == PageFailed
    ensures Discovery(queries, respond, hostname, seed)
      == DiscoveryRun(KnownCompetitors, [queries[0]], [CompetitorRetry.BackoffMs(CompetitorRetry.DelayMs)])
  {
    var init := Scan(KnownCompetitors, seed, [], [], false);
    var next := QueryStep(init, queries[0], respond, hostname);
    ScanQueriesStopped(next, queries[1..], respond, hostname);
  }

  /** A search result on a known competitor's own site, as a hostname parser
      reads it. */
  const NikeHit := Hit("Nike Football Socks", "https://www.nike.com/socks", "Grip socks for football")

  function NikeHost(link: string): Option<string> {
    if link == NikeHit.link then Some("www.nike.com") else None
  }

  function NikePage(q: string): PageOutcome {
    Page([NikeHit])
  }

  lemma NikeHitEligible()
    ensures Eligible(NikeHit)
  {
    NotContainsWithoutFirstLetter(NikeHit.link, "google.com");
  }

  lemma NikeEntryName()
    ensures Upper(FirstLabel("www.nike.com")) == "WWW"
  {
    assert FirstLabel("www.nike.com") == "www" by {
      assert "www.nike.com"[1..] == "ww.nike.com" && "ww.nike.com"[1..] == "w.nike.com";
      assert "w.nike.com"[1..] == ".nike.com";
    }
    var u := Upper("www");
    assert u[0] == 'W' && u[1] == 'W' && u[2] == 'W';
  }

  /** The one query on the Nike page, from a given seed whose entries are
      not Nike's hostname: the scan adds one entry. */
  lemma NikeScan(seed: seq<string>)
    requires |seed| == 3
    ensures var q := "site:https://www.nike.com socks";
      var sent := Scan(KnownCompetitors, seed, [q], [CompetitorRetry.BackoffMs(CompetitorRetry.DelayMs)], false);
      ScanQueries(Scan(KnownCompetitors, seed, [], [], false), [q], NikePage, NikeHost)
        == ScanHits(sent, [NikeHit], NikeHost)
  {
    var q := "site:https://www.nike.com socks";
    var w := CompetitorRetry.BackoffMs(CompetitorRetry.DelayMs);
    var init := Scan(KnownCompetitors, seed, [], [], false);
    assert [q][1..] == [] && [] + [q] == [q] && [] + [w] == [w];
    assert !Stopped(init);
    assert NikePage(q) == Page([NikeHit]);
    assert ScanQueries(init, [q], NikePage, NikeHost) == QueryStep(init, q, NikePage, NikeHost);
  }

  /** After the request, the Nike result is scanned against `seed`: added
      when its hostname is not there, skipped when it is. */
  lemma NikeHitScanned(seed: seq<string>)
    ensures var sent := Scan(KnownCompetitors, seed, ["site:https://www.nike.com socks"],
                             [CompetitorRetry.BackoffMs(CompetitorRetry.DelayMs)], false);
      ScanHits(sent, [NikeHit], NikeHost)
        == if "www.nike.com" in seed then sent
           else sent.(seen := seed + ["www.nike.com"],
                      details := KnownCompetitors + [ScrapedEntry(NikeHit, "www.nike.com")])
  {
    NikeHitEligible();
    assert [NikeHit][1..] == [];
  }

  /** With the URLs as seed, the known competitor's own hostname is not
      recognised: Nike's site is added again as a fourth entry named "WWW". */
  lemma AsWrittenAdmitsKnownHost()
    ensures var r := Discovery(["site:https://www.nike.com socks"], NikePage, NikeHost, KnownUrls);
      |r.competitors| == 4 && r.competitors[3].name == "WWW" && r.competitors[3].url == NikeHit.link
  {
    NikeScan(KnownUrls);
    NikeHostNotAUrl();
    NikeHitScanned(KnownUrls);
    NikeEntryName();
  }

  lemma NikeHostNotAUrl()
    ensures "www.nike.com" !in KnownUrls
  {
    assert forall k :: 0 <= k < 3 ==> KnownUrls[k][0] == 'h';
  }

  /** With the hostnames as seed, the same page adds nothing. */
  lemma CorrectedSkipsKnownHost()
    ensures Discovery(["site:https://www.nike.com socks"], NikePage, NikeHost, KnownHosts).competitors
      == KnownCompetitors
  {
    NikeScan(KnownHosts);
    NikeHitScanned(KnownHosts);
    assert "www.nike.com" in KnownHosts by {
      assert KnownHosts[0] == "www.nike.com";
    }
  }
}
