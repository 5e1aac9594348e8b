/** The market-size agent: four Census-driven estimates (TAM, SAM, SOM and
    growth) computed one after the other, summed into a score with a fixed
    confidence. Every fetch is an input value; an error in any stage ends
    the request with a 500. */
module MarketSize {
  import opened Common
  import opened Lambda

  /** A JavaScript number where the formulas can leave the reals: the only
      place is the internet-penetration quotient, whose divisor (the total
      number of households) may be 0. Rounding is not modelled. */
  datatype Num = Finite(v: real) | PosInf | NegInf | NaN

  /** `a / b` on two integers. */
  function Quotient(a: int, b: int): (q: Num)
    ensures b != 0 <==> q.Finite?
    ensures b != 0 ==> q.v * b as real == a as real
  {
    if b != 0 then Finite(a as real / b as real)
    else if a > 0 then PosInf
    else if a < 0 then NegInf
    else NaN
  }

  /** `k * x` for a finite `k`. */
  function Times(k: real, x: Num): (r: Num)
    ensures x.Finite? <==> r.Finite?
    ensures x.Finite? ==> r.v == k * x.v
    ensures x == NaN ==> r == NaN
  {
    match x
    case Finite(v) => Finite(k * v)
    case PosInf => if k > 0.0 then PosInf else if k < 0.0 then NegInf else NaN
    case NegInf => if k > 0.0 then NegInf else if k < 0.0 then PosInf else NaN
    case NaN => NaN
  }

  /** `Math.min(cap, x)`: NaN stays NaN, +Infinity is capped. */
  function MinCap(cap: real, x: Num): (r: Num)
    ensures r != PosInf
    ensures r.Finite? ==> r.v <= cap
    ensures x == NaN <==> r == NaN
    ensures x.Finite? ==> r == Finite(Min(cap, x.v))
  {
    match x
    case Finite(v) => Finite(Min(cap, v))
    case PosInf => Finite(cap)
    case NegInf => NegInf
    case NaN => NaN
  }

  /** `x + k` for a finite `k`. */
  function Plus(x: Num, k: real): (r: Num)
    ensures x.Finite? <==> r.Finite?
    ensures x.Finite? ==> r.v == x.v + k
    ensures !x.Finite? ==> r == x
  {
    if x.Finite? then Finite(x.v + k) else x
  }

  // ---------------------------------------------------------------------
  // The four estimates
  // ---------------------------------------------------------------------

  datatype TamEstimate = TamEstimate(value: real, score: real, totalPopulation: int, medianIncome: int)

  datatype SamEstimate = SamEstimate(value: Num, score: Num, internetPenetration: Num,
                                     totalHouseholds: int, householdsWithInternet: int)

  datatype SomEstimate = SomEstimate(value: Num, score: real, totalEstablishments: int,
                                     totalEmployment: int, assumedMarketShare: real)

  datatype GrowthEstimate = GrowthEstimate(value: real, score: real, currentYearEmployment: int,
                                           currentYearEstablishments: int, assumedGrowthRate: real)

  const MarketShare: real := 0.01
  const GrowthRate: real := 0.05

  /** `calculateTAM` after its two fetches: population times median income in
      millions; the score grows linearly up to a TAM of 1000 and is 3 from
      there on. The business idea is not used. */
  function CalculateTam(businessIdea: string, totalPopulation: int, medianIncome: int): (t: TamEstimate)
    ensures t.value * 1000000.0 == totalPopulation as real * medianIncome as real
    ensures t.score <= 3.0
    ensures t.score == 3.0 <==> t.value >= 1000.0
    ensures t.value <= 1000.0 ==> t.score * 1000.0 == 3.0 * t.value
    ensures t.totalPopulation == totalPopulation && t.medianIncome == medianIncome
  {
    var tam := totalPopulation as real * (medianIncome as real / 1000000.0);
    TamEstimate(tam, Min(3.0, (tam / 1000.0) * 3.0), totalPopulation, medianIncome)
  }

  /** `calculateSAM` after its fetch: TAM scaled by the share of households
      with internet; the score is three times the penetration, capped at 3. */
  function CalculateSam(tam: real, totalHouseholds: int, householdsWithInternet: int): (s: SamEstimate)
    ensures s.internetPenetration == Quotient(householdsWithInternet, totalHouseholds)
    ensures s.score != PosInf && (s.score.Finite? ==> s.score.v <= 3.0)
    ensures totalHouseholds != 0 ==>
      var p := householdsWithInternet as real / totalHouseholds as real;
      s.value == Finite(tam * p) && s.score == Finite(Min(3.0, 3.0 * p))
    ensures s.totalHouseholds == totalHouseholds && s.householdsWithInternet == householdsWithInternet
  {
    var penetration := Quotient(householdsWithInternet, totalHouseholds);
    SamEstimate(Times(tam, penetration), MinCap(3.0, Times(3.0, penetration)), penetration,
                totalHouseholds, householdsWithInternet)
  }

  /** `calculateSOM` after its fetch: always 1% of SAM with the score 0.2; the
      fetched establishment and employment counts appear only as details. */
  function CalculateSom(sam: Num, totalEstablishments: int, totalEmployment: int): (s: SomEstimate)
    ensures s.value == Times(0.01, sam)
    ensures s.score == 0.2
    ensures s.totalEstablishments == totalEstablishments && s.totalEmployment == totalEmployment
  {
    SomEstimate(Times(MarketShare, sam), Min(2.0, MarketShare * 10.0 * 2.0), totalEstablishments,
                totalEmployment, MarketShare)
  }

  /** `calculateMarketGrowth` after its fetch: always a 5% rate with the score
      1.0, whatever the fetched figures. */
  function CalculateMarketGrowth(currentYearEstablishments: int, currentYearEmployment: int): (g: GrowthEstimate)
    ensures g.value == 0.05 && g.score == 1.0
    ensures g.currentYearEstablishments == currentYearEstablishments
    ensures g.currentYearEmployment == currentYearEmployment
  {
    GrowthEstimate(GrowthRate, Min(2.0, GrowthRate * 10.0 * 2.0), currentYearEmployment,
                   currentYearEstablishments, GrowthRate)
  }

  /** With a non-negative TAM and 0 <= householdsWithInternet <= totalHouseholds,
      SAM lies between 0 and TAM and its score between 0 and 3. */
  lemma SamWithinTam(tam: real, totalHouseholds: int, householdsWithInternet: int)
    requires tam >= 0.0 && 0 <= householdsWithInternet <= totalHouseholds && totalHouseholds > 0
    ensures var s := CalculateSam(tam, totalHouseholds, householdsWithInternet);
      s.value.Finite? && 0.0 <= s.value.v <= tam && s.score.Finite? && 0.0 <= s.score.v <= 3.0
  {
    var p := householdsWithInternet as real / totalHouseholds as real;
    assert p * totalHouseholds as real == householdsWithInternet as real;
    assert 0.0 <= p <= 1.0;
    assert 0.0 <= tam * p <= tam;
  }

  /** A penetration above 100% still scores exactly 3. */
  lemma SamScoreCapped(tam: real, totalHouseholds: int, householdsWithInternet: int)
    requires 0 < totalHouseholds < householdsWithInternet
    ensures CalculateSam(tam, totalHouseholds, householdsWithInternet).score == Finite(3.0)
  {
    var p := householdsWithInternet as real / totalHouseholds as real;
    assert p * totalHouseholds as real == householdsWithInternet as real;
    assert p > 1.0;
  }

  /** With no households the penetration is not a number: 0/0 gives NaN,
      which `Math.min` keeps, while a positive count over 0 is +Infinity and
      scores 3. */
  lemma ZeroHouseholds(tam: real, householdsWithInternet: int)
    ensures var s := CalculateSam(tam, 0, householdsWithInternet);
      (householdsWithInternet == 0 ==> s.score == NaN && s.value == NaN)
      && (householdsWithInternet > 0 ==> s.score == Finite(3.0))
      && (householdsWithInternet < 0 ==> s.score == NegInf)
  {
  }

  // ---------------------------------------------------------------------
  // The total and the handler
  // ---------------------------------------------------------------------

  datatype MarketBreakdown = MarketBreakdown(tam: real, sam: Num, som: real, growth: real)

  datatype MarketDetails = MarketDetails(tam: TamEstimate, sam: SamEstimate, som: SomEstimate, growth: GrowthEstimate)

  /** The analysis record before rounding, without the generated id, the
      timestamp and the reasoning text. */
  datatype MarketAnalysis = MarketAnalysis(businessIdea: string, score: Num, breakdown: MarketBreakdown,
                                           confidence: real, details: MarketDetails)

  /** `tam.score + sam.score + som.score + growth.score`: never +Infinity, and
      when it is a number it is at most 3 + 3 + 0.2 + 1.0 = 7.2. */
  function TotalScore(tam: TamEstimate, sam: SamEstimate, som: SomEstimate, growth: GrowthEstimate): (r: Num)
    requires tam.score <= 3.0 && sam.score != PosInf && (sam.score.Finite? ==> sam.score.v <= 3.0)
    requires som.score == 0.2 && growth.score == 1.0
    ensures r != PosInf && (r.Finite? ==> r.v <= 7.2)
    ensures r.Finite? <==> sam.score.Finite?
    ensures sam.score.Finite? ==> r == Finite(tam.score + sam.score.v + som.score + growth.score)
    ensures !sam.score.Finite? ==> r == sam.score
  {
    // addition commutes, so tam.score + sam.score is written Plus(sam.score, tam.score)
    Plus(Plus(Plus(sam.score, tam.score), som.score), growth.score)
  }

  /** A Census error as the stage's `catch` sees it. */
  datatype CensusFailure = CensusFailure(code: string, message: string)

  datatype Fetch<T> = Fetched(value: T) | FetchFailed(failure: CensusFailure)

  /** The figures each Census request yields (row 1 of the response). */
  datatype CensusInputs = CensusInputs(
    population: Fetch<int>,
    medianIncome: Fetch<int>,
    internetAccess: Fetch<(int, int)>,  // (totalHouseholds, householdsWithInternet)
    businessSurvey: Fetch<(int, int)>,  // (establishments, employment) for SOM
    growthSurvey: Fetch<(int, int)>)    // (establishments, employment) for growth

  datatype StoreOutcome = Stored | StoreFailed(message: string)

  /** The requests a run issues, in order. */
  datatype Request = PopulationRequest | IncomeRequest | InternetRequest | BusinessRequest | GrowthRequest | StoreRequest

  datatype MarketBody = EmptyBody | BadRequest(error: string) | ServerError(error: string, message: string)
                      | Report(analysis: MarketAnalysis)

  datatype MarketRun = MarketRun(response: Response<MarketBody>, requests: seq<Request>)

  const TimeoutMessage := "Census API request timed out"

  /** What a stage rethrows: a timeout (`ECONNABORTED`) becomes a new error
      with a fixed message; any other error is rethrown as it is. */
  function StageMessage(f: CensusFailure): (m: string)
    ensures f.code == "ECONNABORTED" ==> m == TimeoutMessage
    ensures f.code != "ECONNABORTED" ==> m == f.message
  {
    if f.code == "ECONNABORTED" then TimeoutMessage else f.message
  }

  function Fail(requests: seq<Request>, message: string): MarketRun {
    MarketRun(Response(500, HandlerCorsHeaders, ServerError(InternalError, message)), requests)
  }

  /** The two parallel TAM fetches (`Promise.all`): both are issued; when both
      fail the population error is the one reported. */
  function TamFigures(census: CensusInputs): (f: Fetch<(int, int)>)
    ensures f.Fetched? <==> census.population.Fetched? && census.medianIncome.Fetched?
    ensures f.Fetched? ==> f.value == (census.population.value, census.medianIncome.value)
    ensures census.population.FetchFailed? ==> f == FetchFailed(census.population.failure)
  {
    if census.population.FetchFailed? then FetchFailed(census.population.failure)
    else if census.medianIncome.FetchFailed? then FetchFailed(census.medianIncome.failure)
    else Fetched((census.population.value, census.medianIncome.value))
  }

  /** The analysis computed from four successful stages. */
  function Analysis(idea: string, tamIn: (int, int), samIn: (int, int), somIn: (int, int), growthIn: (int, int)): (a: MarketAnalysis)
    ensures a.confidence == 0.8
    ensures a.score != PosInf && (a.score.Finite? ==> a.score.v <= 7.2)
    ensures a.breakdown.som == 0.2 && a.breakdown.growth == 1.0
    ensures a.businessIdea == idea
  {
    var tam := CalculateTam(idea, tamIn.0, tamIn.1);
    var sam := CalculateSam(tam.value, samIn.0, samIn.1);
    var som := CalculateSom(sam.value, somIn.0, somIn.1);
    var growth := CalculateMarketGrowth(growthIn.0, growthIn.1);
    MarketAnalysis(idea, TotalScore(tam, sam, som, growth), MarketBreakdown(tam.score, sam.score, som.score, growth.score),
                   0.8, MarketDetails(tam, sam, som, growth))
  }

  /** The handler: preflight, validation, then TAM, SAM, SOM and growth in
      sequence, then the store write. There is no fallback: the first
      failing stage ends the run with a 500 carrying its message. */
  function Handle(event: Event, census: CensusInputs, store: StoreOutcome): (run: MarketRun)
    ensures event.httpMethod == "OPTIONS" ==> run == MarketRun(Response(200, HandlerCorsHeaders, EmptyBody), [])
    ensures run.response.headers == HandlerCorsHeaders
    ensures run.response.statusCode in {200, 400, 500}
    ensures run.response.statusCode == 200 ==> event.httpMethod == "OPTIONS" || run.response.body.Report?
    ensures run.response.body.Report? ==> run.response.body.analysis.confidence == 0.8
  {
    if event.httpMethod == "OPTIONS" then MarketRun(Response(200, HandlerCorsHeaders, EmptyBody), [])
    else match ParsedBody(event.body)
      case Malformed(message) => Fail([], message)
      case Json(idea) =>
        if !IdeaGiven(idea) then MarketRun(Response(400, HandlerCorsHeaders, BadRequest(MissingIdeaError)), [])
        else
          var tamRequests := [PopulationRequest, IncomeRequest];
          match TamFigures(census)
          case FetchFailed(f) => Fail(tamRequests, StageMessage(f))
          case Fetched(tamIn) =>
            match census.internetAccess
            case FetchFailed(f) => Fail(tamRequests + [InternetRequest], StageMessage(f))
            case Fetched(samIn) =>
              match census.businessSurvey
              case FetchFailed(f) => Fail(tamRequests + [InternetRequest, BusinessRequest], StageMessage(f))
              case Fetched(somIn) =>
                var censusRequests := tamRequests + [InternetRequest, BusinessRequest, GrowthRequest];
                match census.growthSurvey
                case FetchFailed(f) => Fail(censusRequests, StageMessage(f))
                case Fetched(growthIn) =>
                  var requests := censusRequests + [StoreRequest];
                  match store
                  case StoreFailed(message) => Fail(requests, message)
                  case Stored =>
                    MarketRun(Response(200, HandlerCorsHeaders,
                                       Report(Analysis(idea.value, tamIn, samIn, somIn, growthIn))), requests)
  }

  // ---------------------------------------------------------------------
  // Properties of the handler
  // ---------------------------------------------------------------------

  /** A missing or empty idea (including an absent body) is a 400 issued
      before any Census request. */
  lemma ValidationBeforeCensus(event: Event, census: CensusInputs, store: StoreOutcome)
    requires event.httpMethod != "OPTIONS"
    requires event.body == NoBody || (event.body.Json? && !IdeaGiven(event.body.businessIdea))
    ensures Handle(event, census, store) == MarketRun(Response(400, HandlerCorsHeaders, BadRequest(MissingIdeaError)), [])
  {
  }

  predicate AllFetched(census: CensusInputs) {
    census.population.Fetched? && census.medianIncome.Fetched? && census.internetAccess.Fetched?
    && census.businessSurvey.Fetched? && census.growthSurvey.Fetched?
  }

  /** The failed Census fetches in the order the stages issue them
      (population, median income, internet access, business survey,
      growth survey). */
  function CensusFailures(census: CensusInputs): (fs: seq<CensusFailure>)
    ensures fs == [] <==> AllFetched(census)
    ensures |fs| <= 5
  {
    (if census.population.FetchFailed? then [census.population.failure] else [])
    + (if census.medianIncome.FetchFailed? then [census.medianIncome.failure] else [])
    + (if census.internetAccess.FetchFailed? then [census.internetAccess.failure] else [])
    + (if census.businessSurvey.FetchFailed? then [census.businessSurvey.failure] else [])
    + (if census.growthSurvey.FetchFailed? then [census.growthSurvey.failure] else [])
  }

  /** The error a run ends with: the earliest failed fetch as its stage
      rethrows it, else the store write's error, else none. */
  function FirstFailure(census: CensusInputs, store: StoreOutcome): (m: Option<string>)
    ensures m.None? <==> AllFetched(census) && store == Stored
  {
    var fs := CensusFailures(census);
    if fs != [] then Some(StageMessage(fs[0]))
    else if store.StoreFailed? then Some(store.message)
    else None
  }

  /** There is no fallback: a request with a valid idea answers 200 exactly
      when every Census fetch and the store write succeed; otherwise it is a
      500 whose message is the earliest failure's, as its stage rethrows it. */
  lemma NoFallback(event: Event, census: CensusInputs, store: StoreOutcome)
    requires event.httpMethod != "OPTIONS" && event.body.Json? && IdeaGiven(event.body.businessIdea)
    ensures Handle(event, census, store).response.statusCode == 200 <==> AllFetched(census) && store == Stored
    ensures FirstFailure(census, store).Some? ==>
      && Handle(event, census, store).response.statusCode == 500
      && Handle(event, census, store).response.body == ServerError(InternalError, FirstFailure(census, store).value)
  {
  }

  /** A timed-out request in the first stage is reported with the fixed
      timeout message. */
  lemma TimeoutReported(event: Event, census: CensusInputs, store: StoreOutcome, message: string)
    requires event.httpMethod != "OPTIONS" && event.body.Json? && IdeaGiven(event.body.businessIdea)
    requires census.population == FetchFailed(CensusFailure("ECONNABORTED", message))
    ensures Handle(event, census, store)
            == MarketRun(Response(500, HandlerCorsHeaders, ServerError(InternalError, TimeoutMessage)),
                         [PopulationRequest, IncomeRequest])
  {
  }

  /** Given the Census figures, score, breakdown and confidence do not depend
      on the business idea. */
  lemma IdeaDoesNotMatter(e1: Event, e2: Event, census: CensusInputs, store: StoreOutcome)
    requires e1.httpMethod != "OPTIONS" && e1.body.Json? && IdeaGiven(e1.body.businessIdea)
    requires e2.httpMethod != "OPTIONS" && e2.body.Json? && IdeaGiven(e2.body.businessIdea)
    ensures Handle(e1, census, store).response.statusCode == Handle(e2, census, store).response.statusCode
    ensures Handle(e1, census, store).response.body.Report? ==>
      var a1 := Handle(e1, census, store).response.body.analysis;
      var a2 := Handle(e2, census, store).response.body.analysis;
      a1.score == a2.score && a1.breakdown == a2.breakdown && a1.confidence == a2.confidence
      && a1.details == a2.details
  {
  }

  /** On ordinary Census figures (total households not 0) the score is a
      number, at most 7.2, and SOM is one hundredth of SAM. */
  lemma FiniteReport(idea: string, tamIn: (int, int), samIn: (int, int), somIn: (int, int), growthIn: (int, int))
    requires samIn.0 != 0
    ensures var a := Analysis(idea, tamIn, samIn, somIn, growthIn);
      a.score.Finite? && a.score.v <= 7.2
      && a.details.som.value.Finite? && a.details.sam.value.Finite?
      && a.details.som.value.v == 0.01 * a.details.sam.value.v
  {
  }
}
