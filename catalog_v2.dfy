/*
 * The second catalog revision (main2.py): list_catalogs tests eleven
 * filters for truthiness and binds the raw values, wrapping the LIKE ones
 * in "%"; the partial update binds its values and the path poi unchanged.
 * The create tuple it shares with main3.py lives in module PoiCatalog.
 */
module CatalogV2 {
  import opened PyText
  import opened Sql
  import opened FilterTable
  import PoiCatalog

  /** The optional query inputs of GET /catalogs. In this revision the
    * budget is a string. */
  datatype Filters = Filters(
    city: Option<string>,
    country: Option<string>,
    rating_avg: Option<real>,
    vibes: Option<string>,
    budget: Option<string>,
    poi: Option<string>,
    activities: Option<string>,
    food: Option<string>,
    best_season: Option<string>,
    transport: Option<string>,
    accessibility: Option<string>)

  // ----- The filter table, in the order the source tests the filters ---------

  const CitySpec := Named("city", " AND city = ", "city")
  const CountrySpec := Named("country", " AND country = ", "country")
  const BestSeasonSpec := Named("best_season", " AND best_season = ", "best_season")
  const TransportSpec := Named("transport", " AND transport = ", "transport")
  const RatingSpec := Named("rating", " AND rating >= ", "rating_avg")
  const ActivitiesSpec := Named("activities", " AND activities LIKE ", "activities")
  const AccessibilitySpec := Named("accessibility", " AND accessibility LIKE ", "accessibility")
  const FoodSpec := Named("food", " AND food LIKE ", "food")
  const VibesSpec := Named("vibes", " AND vibes LIKE ", "vibes")
  const BudgetSpec := Named("budget", " AND budget <= ", "budget")
  const PoiSpec := Named("poi", " AND poi LIKE ", "poi")

  const Specs: seq<Spec> := [CitySpec, CountrySpec, BestSeasonSpec, TransportSpec, RatingSpec, ActivitiesSpec,
                             AccessibilitySpec, FoodSpec, VibesSpec, BudgetSpec, PoiSpec]

  const Order: seq<string> := ["city", "country", "best_season", "transport", "rating", "activities",
                               "accessibility", "food", "vibes", "budget", "poi"]

  /** A text filter tested for truthiness and bound as given. */
  function RawInput(v: Option<string>): Input {
    if Truthy(v) then One(Str(v.value)) else Absent
  }

  /** A text filter tested for truthiness and bound wrapped in "%", the
    * whole value as one pattern. */
  function WrapInput(v: Option<string>): Input {
    if Truthy(v) then One(Str("%" + v.value + "%")) else Absent
  }

  /** The rating, tested for truthiness, so 0.0 counts as absent. */
  function RatingInput(x: Option<real>): Input {
    if TruthyNum(x) then One(Num(x.value)) else Absent
  }

  function Inputs(f: Filters): (r: seq<Input>)
    ensures |r| == |Specs|
  {
    [ RawInput(f.city), RawInput(f.country), RawInput(f.best_season), RawInput(f.transport),
      RatingInput(f.rating_avg), WrapInput(f.activities), WrapInput(f.accessibility),
      WrapInput(f.food), WrapInput(f.vibes), RawInput(f.budget), WrapInput(f.poi) ]
  }

  function Candidates(f: Filters): (r: seq<Option<Clause>>)
    ensures |r| == 11
  {
    Cands(Specs, Inputs(f))
  }

  /** The clauses list_catalogs adds for the given inputs, in order. */
  function Plan(f: Filters): seq<Clause> {
    TablePlan(Specs, Inputs(f))
  }

  /** Which filters add a clause. */
  function Presence(f: Filters): seq<bool> {
    Flags(Specs, Inputs(f))
  }

  lemma SpecsAt()
    ensures Specs[0] == CitySpec && Specs[1] == CountrySpec && Specs[2] == BestSeasonSpec
    ensures Specs[3] == TransportSpec && Specs[4] == RatingSpec && Specs[5] == ActivitiesSpec
    ensures Specs[6] == AccessibilitySpec && Specs[7] == FoodSpec && Specs[8] == VibesSpec
    ensures Specs[9] == BudgetSpec && Specs[10] == PoiSpec
  {
  }

  lemma InputsAt(f: Filters)
    ensures Inputs(f)[0] == RawInput(f.city) && Inputs(f)[1] == RawInput(f.country)
    ensures Inputs(f)[2] == RawInput(f.best_season) && Inputs(f)[3] == RawInput(f.transport)
    ensures Inputs(f)[4] == RatingInput(f.rating_avg) && Inputs(f)[5] == WrapInput(f.activities)
    ensures Inputs(f)[6] == WrapInput(f.accessibility) && Inputs(f)[7] == WrapInput(f.food)
    ensures Inputs(f)[8] == WrapInput(f.vibes) && Inputs(f)[9] == RawInput(f.budget)
    ensures Inputs(f)[10] == WrapInput(f.poi)
  {
  }

  /** Candidate k of a request is spec k applied to input k. */
  lemma CandidatesAt(f: Filters)
    ensures Candidates(f)[0] == Cand(CitySpec, RawInput(f.city))
    ensures Candidates(f)[1] == Cand(CountrySpec, RawInput(f.country))
    ensures Candidates(f)[2] == Cand(BestSeasonSpec, RawInput(f.best_season))
    ensures Candidates(f)[3] == Cand(TransportSpec, RawInput(f.transport))
    ensures Candidates(f)[4] == Cand(RatingSpec, RatingInput(f.rating_avg))
    ensures Candidates(f)[5] == Cand(ActivitiesSpec, WrapInput(f.activities))
    ensures Candidates(f)[6] == Cand(AccessibilitySpec, WrapInput(f.accessibility))
    ensures Candidates(f)[7] == Cand(FoodSpec, WrapInput(f.food))
    ensures Candidates(f)[8] == Cand(VibesSpec, WrapInput(f.vibes))
    ensures Candidates(f)[9] == Cand(BudgetSpec, RawInput(f.budget))
    ensures Candidates(f)[10] == Cand(PoiSpec, WrapInput(f.poi))
  {
    SpecsAt();
    InputsAt(f);
    CandsAt(Specs, Inputs(f));
  }

  // ----- What the query and the dictionary look like ---------------------------

  /** Every filter counts only when truthy: "" and a rating of 0.0 add
    * nothing. */
  lemma PresenceRules(f: Filters)
    ensures Presence(f)[0] == Truthy(f.city) && Presence(f)[1] == Truthy(f.country)
    ensures Presence(f)[2] == Truthy(f.best_season) && Presence(f)[3] == Truthy(f.transport)
    ensures Presence(f)[4] == TruthyNum(f.rating_avg)
    ensures Presence(f)[5] == Truthy(f.activities) && Presence(f)[6] == Truthy(f.accessibility)
    ensures Presence(f)[7] == Truthy(f.food) && Presence(f)[8] == Truthy(f.vibes)
    ensures Presence(f)[9] == Truthy(f.budget) && Presence(f)[10] == Truthy(f.poi)
  {
    SpecsAt();
    InputsAt(f);
  }

  lemma OrderOfSpecs()
    ensures FilterNames(Specs) == Order && NoDup(Order)
  {
  }

  /** Each filter adds at most one clause, and the clauses appear in the
    * fixed order city, country, best_season, transport, rating, activities,
    * accessibility, food, vibes, budget, poi. */
  lemma ClauseOrder(f: Filters)
    ensures FiltersOf(Plan(f)) == Select(Order, Presence(f))
    ensures NoDup(FiltersOf(Plan(f)))
  {
    OrderOfSpecs();
    TableOrder(Specs, Inputs(f));
  }

  /** Filter k has a clause in the query exactly when it is present. */
  lemma FilterClause(f: Filters, k: nat)
    requires k < 11
    ensures Order[k] in FiltersOf(Plan(f)) <==> Presence(f)[k]
  {
    OrderOfSpecs();
    TableClause(Specs, Inputs(f), k);
  }

  /** With every filter absent the query is the bare base query and the
    * dictionary is empty, and only then is there no clause. */
  lemma AllAbsent(f: Filters)
    ensures Plan(f) == [] <==> forall k :: 0 <= k < 11 ==> !Presence(f)[k]
    ensures (forall k :: 0 <= k < 11 ==> !Presence(f)[k]) ==>
      QueryText(Plan(f)) == "SELECT * FROM catalog WHERE 1=1" && Params(Plan(f)) == map[]
  {
    TableEmpty(Specs, Inputs(f));
    assert |Specs| == 11 && Presence(f) == Flags(Specs, Inputs(f));
    EmptyPlan();
  }

  /** Every spec is a test whose key starts with a letter, and no two
    * share one. */
  lemma SpecKeys(k: nat, j: nat)
    requires k < 11 && j < 11
    ensures Specs[k].TestSpec? && Specs[k].key != [] && !IsDigit(Specs[k].key[0])
    ensures j != k ==> Specs[j].key != Specs[k].key
  {
  }

  /** A filter's key is in the dictionary exactly when the filter is
    * present, and then holds the filter's input as given, wrapped in "%" for
    * the LIKE filters. */
  lemma TestParam(f: Filters, k: nat)
    requires k < 11
    ensures Specs[k].TestSpec?
    ensures Specs[k].key in Params(Plan(f)) <==> Inputs(f)[k].One?
    ensures Inputs(f)[k].One? ==> Params(Plan(f))[Specs[k].key] == Inputs(f)[k].value
  {
    var xs := Inputs(f);
    SpecKeys(k, k);
    forall j | 0 <= j < 11 && j != k ensures Specs[k].key !in CandKeys(Cands(Specs, xs)[j]) {
      SpecKeys(k, j);
      CandKeysSpec(Specs[j], xs[j], Specs[k].key);
    }
    TestParamAt(Specs, xs, k);
  }

  /** A rating of 0.0 is falsy, so it adds no clause and binds nothing. */
  lemma ZeroRatingSkipped(f: Filters)
    requires f.rating_avg == Some(0.0)
    ensures "rating" !in FiltersOf(Plan(f)) && "rating_avg" !in Params(Plan(f))
  {
    FilterClause(f, 4);
    PresenceRules(f);
    TestParam(f, 4);
    RatingFacts();
  }

  /** A comma list is not split: the vibes value is one LIKE pattern, the
    * whole text between two "%". */
  lemma VibesWhole(f: Filters)
    requires Truthy(f.vibes)
    ensures "vibes" in FiltersOf(Plan(f))
    ensures "vibes" in Params(Plan(f)) && Params(Plan(f))["vibes"] == Str("%" + f.vibes.value + "%")
  {
    FilterClause(f, 8);
    PresenceRules(f);
    TestParam(f, 8);
    InputsAt(f);
    VibesFacts();
  }


  lemma CityFacts()
    ensures CitySpec.TestSpec? && TestText(CitySpec) == " AND city = %(city)s" && CitySpec.key == "city"
  {
  }

  lemma CitySound()
    ensures Sound(CitySpec)
  {
  }

  lemma CountryFacts()
    ensures CountrySpec.TestSpec? && TestText(CountrySpec) == " AND country = %(country)s" && CountrySpec.key == "country"
  {
  }

  lemma CountrySound()
    ensures Sound(CountrySpec)
  {
  }

  lemma BestSeasonFacts()
    ensures BestSeasonSpec.TestSpec? && TestText(BestSeasonSpec) == " AND best_season = %(best_season)s" && BestSeasonSpec.key == "best_season"
  {
  }

  lemma BestSeasonSound()
    ensures Sound(BestSeasonSpec)
  {
  }

  lemma TransportFacts()
    ensures TransportSpec.TestSpec? && TestText(TransportSpec) == " AND transport = %(transport)s" && TransportSpec.key == "transport"
  {
  }

  lemma TransportSound()
    ensures Sound(TransportSpec)
  {
  }

  lemma RatingFacts()
    ensures RatingSpec.TestSpec? && TestText(RatingSpec) == " AND rating >= %(rating_avg)s" && RatingSpec.key == "rating_avg"
  {
  }

  lemma RatingSound()
    ensures Sound(RatingSpec)
  {
  }

  lemma ActivitiesFacts()
    ensures ActivitiesSpec.TestSpec? && TestText(ActivitiesSpec) == " AND activities LIKE %(activities)s" && ActivitiesSpec.key == "activities"
  {
  }

  lemma ActivitiesSound()
    ensures Sound(ActivitiesSpec)
  {
  }

  lemma AccessibilityFacts()
    ensures AccessibilitySpec.TestSpec? && TestText(AccessibilitySpec) == " AND accessibility LIKE %(accessibility)s" && AccessibilitySpec.key == "accessibility"
  {
  }

  lemma AccessibilitySound()
    ensures Sound(AccessibilitySpec)
  {
  }

  lemma FoodFacts()
    ensures FoodSpec.TestSpec? && TestText(FoodSpec) == " AND food LIKE %(food)s" && FoodSpec.key == "food"
  {
  }

  lemma FoodSound()
    ensures Sound(FoodSpec)
  {
  }

  lemma VibesFacts()
    ensures VibesSpec.TestSpec? && TestText(VibesSpec) == " AND vibes LIKE %(vibes)s" && VibesSpec.key == "vibes"
  {
  }

  lemma VibesSound()
    ensures Sound(VibesSpec)
  {
  }

  lemma BudgetFacts()
    ensures BudgetSpec.TestSpec? && TestText(BudgetSpec) == " AND budget <= %(budget)s" && BudgetSpec.key == "budget"
  {
  }

  lemma BudgetSound()
    ensures Sound(BudgetSpec)
  {
  }

  lemma PoiFacts()
    ensures PoiSpec.TestSpec? && TestText(PoiSpec) == " AND poi LIKE %(poi)s" && PoiSpec.key == "poi"
  {
  }

  lemma PoiSound()
    ensures Sound(PoiSpec)
  {
  }

  /** No fixed text holds a "%" and every test's placeholder is its key. */
  lemma SpecsSound()
    ensures forall k :: 0 <= k < |Specs| ==> Sound(Specs[k])
  {
    CitySound();
    CountrySound();
    BestSeasonSound();
    TransportSound();
    RatingSound();
    ActivitiesSound();
    AccessibilitySound();
    FoodSound();
    VibesSound();
    BudgetSound();
    PoiSound();
  }

  /** Every placeholder in the query text is a key of the dictionary. */
  lemma PlaceholdersBound(f: Filters)
    ensures forall n :: n in Placeholders(QueryText(Plan(f))) ==> n in Params(Plan(f))
  {
    SpecsSound();
    TableBound(Specs, Inputs(f));
  }

  /** No user text reaches the query: requests that present the same
    * filters get the same query text, whatever the values. */
  lemma QueryIgnoresValues(f: Filters, g: Filters)
    requires Presence(f) == Presence(g)
    ensures QueryText(Plan(f)) == QueryText(Plan(g))
  {
    var xs, ys := Inputs(f), Inputs(g);
    NoTokenLists(f);
    NoTokenLists(g);
    forall k | 0 <= k < 11 ensures Present(Specs[k], xs[k]) == Present(Specs[k], ys[k]) && Count(xs[k]) == Count(ys[k]) {
      assert Presence(f)[k] == Presence(g)[k];
    }
    TableShape(Specs, xs, ys);
  }

  /** No filter of this revision splits its value into tokens. */
  lemma NoTokenLists(f: Filters)
    ensures forall k :: 0 <= k < 11 ==> !Inputs(f)[k].Many?
  {
    InputsAt(f);
  }

  // ----- The rating filter as the source writes it ----------------------------

  /** The source's rating test: its text names the placeholder rating_avg
    * but the value is stored under the key rating. */
  const RatingAsWritten := TestSpec("rating", " AND rating >= ", "rating_avg", "rating")

  const SpecsAsWritten: seq<Spec> := Specs[4 := RatingAsWritten]

  function PlanAsWritten(f: Filters): seq<Clause> {
    TablePlan(SpecsAsWritten, Inputs(f))
  }

  lemma AsWrittenKeys()
    ensures |SpecsAsWritten| == 11
    ensures forall j :: 0 <= j < 11 ==> SpecsAsWritten[j].TestSpec? && SpecsAsWritten[j].key != "rating_avg"
    ensures forall j :: 0 <= j < 11 ==> Parsable(SpecsAsWritten[j])
  {
    forall j | 0 <= j < 11
      ensures SpecsAsWritten[j].TestSpec? && SpecsAsWritten[j].key != "rating_avg" && Parsable(SpecsAsWritten[j])
    {
      if j != 4 {
        SpecKeys(j, 4);
        SpecsSound();
      }
    }
  }

  /** With a truthy rating the as-written query text asks the driver for
    * rating_avg, which the dictionary does not hold: the value sits under
    * rating instead. */
  lemma RatingPlaceholderUnbound(f: Filters)
    requires TruthyNum(f.rating_avg)
    ensures "rating_avg" in Placeholders(QueryText(PlanAsWritten(f)))
    ensures "rating_avg" !in Params(PlanAsWritten(f))
  {
    AsWrittenKeys();
    InputsAt(f);
    TablePlaceholderAt(SpecsAsWritten, Inputs(f), 4);
    TableKeyAbsent(SpecsAsWritten, Inputs(f), "rating_avg");
  }

  // ----- The builder -----------------------------------------------------------
  //
  // Each `if` block of list_catalogs is one method below; ListCatalogsQuery
  // runs them in the source's order. WhereRating binds the key its
  // placeholder names (see RatingPlaceholderUnbound for the source's key).

  /** The city filter: appends its clause and binds city. */
  method WhereCity(f: Filters, ghost cands: seq<Option<Clause>>, query: string, params: map<string, Value>) returns (query': string, params': map<string, Value>)
    requires |cands| == 11 && cands[0] == Candidates(f)[0] && Built(cands, 0, query, params)
    ensures Built(cands, 1, query', params')
  {
    query', params' := query, params;
    if f.city.Some? && f.city.value != "" {
      query' := query + " AND city = %(city)s";
      params' := params["city" := Str(f.city.value)];
    }
    CandidatesAt(f);
    CityFacts();
    TestStep(cands, 0, CitySpec, RawInput(f.city), " AND city = %(city)s", "city", query, params);
  }

  /** The country filter: appends its clause and binds country. */
  method WhereCountry(f: Filters, ghost cands: seq<Option<Clause>>, query: string, params: map<string, Value>) returns (query': string, params': map<string, Value>)
    requires |cands| == 11 && cands[1] == Candidates(f)[1] && Built(cands, 1, query, params)
    ensures Built(cands, 2, query', params')
  {
    query', params' := query, params;
    if f.country.Some? && f.country.value != "" {
      query' := query + " AND country = %(country)s";
      params' := params["country" := Str(f.country.value)];
    }
    CandidatesAt(f);
    CountryFacts();
    TestStep(cands, 1, CountrySpec, RawInput(f.country), " AND country = %(country)s", "country", query, params);
  }

  /** The best_season filter: appends its clause and binds best_season. */
  method WhereBestSeason(f: Filters, ghost cands: seq<Option<Clause>>, query: string, params: map<string, Value>) returns (query': string, params': map<string, Value>)
    requires |cands| == 11 && cands[2] == Candidates(f)[2] && Built(cands, 2, query, params)
    ensures Built(cands, 3, query', params')
  {
    query', params' := query, params;
    if f.best_season.Some? && f.best_season.value != "" {
      query' := query + " AND best_season = %(best_season)s";
      params' := params["best_season" := Str(f.best_season.value)];
    }
    CandidatesAt(f);
    BestSeasonFacts();
    TestStep(cands, 2, BestSeasonSpec, RawInput(f.best_season), " AND best_season = %(best_season)s", "best_season", query, params);
  }

  /** The transport filter: appends its clause and binds transport. */
  method WhereTransport(f: Filters, ghost cands: seq<Option<Clause>>, query: string, params: map<string, Value>) returns (query': string, params': map<string, Value>)
    requires |cands| == 11 && cands[3] == Candidates(f)[3] && Built(cands, 3, query, params)
    ensures Built(cands, 4, query', params')
  {
    query', params' := query, params;
    if f.transport.Some? && f.transport.value != "" {
      query' := query + " AND transport = %(transport)s";
      params' := params["transport" := Str(f.transport.value)];
    }
    CandidatesAt(f);
    TransportFacts();
    TestStep(cands, 3, TransportSpec, RawInput(f.transport), " AND transport = %(transport)s", "transport", query, params);
  }

  /** The rating_avg filter: appends its clause and binds rating_avg. */
  method WhereRating(f: Filters, ghost cands: seq<Option<Clause>>, query: string, params: map<string, Value>) returns (query': string, params': map<string, Value>)
    requires |cands| == 11 && cands[4] == Candidates(f)[4] && Built(cands, 4, query, params)
    ensures Built(cands, 5, query', params')
  {
    query', params' := query, params;
    if f.rating_avg.Some? && f.rating_avg.value != 0.0 {
      query' := query + " AND rating >= %(rating_avg)s";
      params' := params["rating_avg" := Num(f.rating_avg.value)];
    }
    CandidatesAt(f);
    RatingFacts();
    TestStep(cands, 4, RatingSpec, RatingInput(f.rating_avg), " AND rating >= %(rating_avg)s", "rating_avg", query, params);
  }

  /** The activities filter: appends its clause and binds activities. */
  method WhereActivities(f: Filters, ghost cands: seq<Option<Clause>>, query: string, params: map<string, Value>) returns (query': string, params': map<string, Value>)
    requires |cands| == 11 && cands[5] == Candidates(f)[5] && Built(cands, 5, query, params)
    ensures Built(cands, 6, query', params')
  {
    query', params' := query, params;
    if f.activities.Some? && f.activities.value != "" {
      query' := query + " AND activities LIKE %(activities)s";
      params' := params["activities" := Str("%" + f.activities.value + "%")];
    }
    CandidatesAt(f);
    ActivitiesFacts();
    TestStep(cands, 5, ActivitiesSpec, WrapInput(f.activities), " AND activities LIKE %(activities)s", "activities", query, params);
  }

  /** The accessibility filter: appends its clause and binds accessibility. */
  method WhereAccessibility(f: Filters, ghost cands: seq<Option<Clause>>, query: string, params: map<string, Value>) returns (query': string, params': map<string, Value>)
    requires |cands| == 11 && cands[6] == Candidates(f)[6] && Built(cands, 6, query, params)
    ensures Built(cands, 7, query', params')
  {
    query', params' := query, params;
    if f.accessibility.Some? && f.accessibility.value != "" {
      query' := query + " AND accessibility LIKE %(accessibility)s";
      params' := params["accessibility" := Str("%" + f.accessibility.value + "%")];
    }
    CandidatesAt(f);
    AccessibilityFacts();
    TestStep(cands, 6, AccessibilitySpec, WrapInput(f.accessibility), " AND accessibility LIKE %(accessibility)s", "accessibility", query, params);
  }

  /** The food filter: appends its clause and binds food. */
  method WhereFood(f: Filters, ghost cands: seq<Option<Clause>>, query: string, params: map<string, Value>) returns (query': string, params': map<string, Value>)
    requires |cands| == 11 && cands[7] == Candidates(f)[7] && Built(cands, 7, query, params)
    ensures Built(cands, 8, query', params')
  {
    query', params' := query, params;
    if f.food.Some? && f.food.value != "" {
      query' := query + " AND food LIKE %(food)s";
      params' := params["food" := Str("%" + f.food.value + "%")];
    }
    CandidatesAt(f);
    FoodFacts();
    TestStep(cands, 7, FoodSpec, WrapInput(f.food), " AND food LIKE %(food)s", "food", query, params);
  }

  /** The vibes filter: appends its clause and binds vibes. */
  method WhereVibes(f: Filters, ghost cands: seq<Option<Clause>>, query: string, params: map<string, Value>) returns (query': string, params': map<string, Value>)
    requires |cands| == 11 && cands[8] == Candidates(f)[8] && Built(cands, 8, query, params)
    ensures Built(cands, 9, query', params')
  {
    query', params' := query, params;
    if f.vibes.Some? && f.vibes.value != "" {
      query' := query + " AND vibes LIKE %(vibes)s";
      params' := params["vibes" := Str("%" + f.vibes.value + "%")];
    }
    CandidatesAt(f);
    VibesFacts();
    TestStep(cands, 8, VibesSpec, WrapInput(f.vibes), " AND vibes LIKE %(vibes)s", "vibes", query, params);
  }

  /** The budget filter: appends its clause and binds budget. */
  method WhereBudget(f: Filters, ghost cands: seq<Option<Clause>>, query: string, params: map<string, Value>) returns (query': string, params': map<string, Value>)
    requires |cands| == 11 && cands[9] == Candidates(f)[9] && Built(cands, 9, query, params)
    ensures Built(cands, 10, query', params')
  {
    query', params' := query, params;
    if f.budget.Some? && f.budget.value != "" {
      query' := query + " AND budget <= %(budget)s";
      params' := params["budget" := Str(f.budget.value)];
    }
    CandidatesAt(f);
    BudgetFacts();
    TestStep(cands, 9, BudgetSpec, RawInput(f.budget), " AND budget <= %(budget)s", "budget", query, params);
  }

  /** The poi filter: appends its clause and binds poi. */
  method WherePoi(f: Filters, ghost cands: seq<Option<Clause>>, query: string, params: map<string, Value>) returns (query': string, params': map<string, Value>)
    requires |cands| == 11 && cands[10] == Candidates(f)[10] && Built(cands, 10, query, params)
    ensures Built(cands, 11, query', params')
  {
    query', params' := query, params;
    if f.poi.Some? && f.poi.value != "" {
      query' := query + " AND poi LIKE %(poi)s";
      params' := params["poi" := Str("%" + f.poi.value + "%")];
    }
    CandidatesAt(f);
    PoiFacts();
    TestStep(cands, 10, PoiSpec, WrapInput(f.poi), " AND poi LIKE %(poi)s", "poi", query, params);
  }

  /** The query text and parameter dictionary list_catalogs hands to the
    * driver. */
  method ListCatalogsQuery(f: Filters) returns (query: string, params: map<string, Value>)
    ensures query == QueryText(Plan(f)) && params == Params(Plan(f))
  {
    ghost var cands := Candidates(f);
    query := "SELECT * FROM catalog WHERE 1=1";
    params := map[];
    assert cands[..0] == [];
    query, params := WhereCity(f, cands, query, params);
    query, params := WhereCountry(f, cands, query, params);
    query, params := WhereBestSeason(f, cands, query, params);
    query, params := WhereTransport(f, cands, query, params);
    query, params := WhereRating(f, cands, query, params);
    query, params := WhereActivities(f, cands, query, params);
    query, params := WhereAccessibility(f, cands, query, params);
    query, params := WhereFood(f, cands, query, params);
    query, params := WhereVibes(f, cands, query, params);
    query, params := WhereBudget(f, cands, query, params);
    query, params := WherePoi(f, cands, query, params);
    assert cands[..11] == cands;
  }

  // ----- The builder as the source writes it ----------------------------------
  //
  // The same blocks, with the rating block storing its value under rating.

  function CandidatesAsWritten(f: Filters): (r: seq<Option<Clause>>)
    ensures |r| == 11
  {
    Cands(SpecsAsWritten, Inputs(f))
  }

  lemma RatingAsWrittenFacts()
    ensures RatingAsWritten.TestSpec? && TestText(RatingAsWritten) == " AND rating >= %(rating_avg)s"
    ensures RatingAsWritten.key == "rating"
  {
  }

  /** The as-written candidates differ from the corrected ones only in the
    * rating clause. */
  lemma CandidatesAsWrittenAt(f: Filters)
    ensures forall j :: 0 <= j < 11 && j != 4 ==> CandidatesAsWritten(f)[j] == Candidates(f)[j]
    ensures CandidatesAsWritten(f)[4] == Cand(RatingAsWritten, RatingInput(f.rating_avg))
  {
    AsWrittenKeys();
    InputsAt(f);
    CandsAt(SpecsAsWritten, Inputs(f));
    CandsAt(Specs, Inputs(f));
  }

  /** The rating block as written: appends the clause naming rating_avg but
    * stores the value under rating. */
  method WhereRatingAsWritten(f: Filters, ghost cands: seq<Option<Clause>>, query: string, params: map<string, Value>) returns (query': string, params': map<string, Value>)
    requires |cands| == 11 && cands[4] == CandidatesAsWritten(f)[4] && Built(cands, 4, query, params)
    ensures Built(cands, 5, query', params')
  {
    query', params' := query, params;
    if f.rating_avg.Some? && f.rating_avg.value != 0.0 {
      query' := query + " AND rating >= %(rating_avg)s";
      params' := params["rating" := Num(f.rating_avg.value)];
    }
    CandidatesAsWrittenAt(f);
    RatingAsWrittenFacts();
    TestStep(cands, 4, RatingAsWritten, RatingInput(f.rating_avg), " AND rating >= %(rating_avg)s", "rating", query, params);
  }

  /** list_catalogs as the source writes it: the text and dictionary of the
    * as-written plan, which leave rating_avg unbound whenever the rating is
    * truthy (RatingPlaceholderUnbound). */
  method ListCatalogsQueryAsWritten(f: Filters) returns (query: string, params: map<string, Value>)
    ensures query == QueryText(PlanAsWritten(f)) && params == Params(PlanAsWritten(f))
  {
    ghost var cands := CandidatesAsWritten(f);
    CandidatesAsWrittenAt(f);
    query := "SELECT * FROM catalog WHERE 1=1";
    params := map[];
    assert cands[..0] == [];
    query, params := WhereCity(f, cands, query, params);
    query, params := WhereCountry(f, cands, query, params);
    query, params := WhereBestSeason(f, cands, query, params);
    query, params := WhereTransport(f, cands, query, params);
    query, params := WhereRatingAsWritten(f, cands, query, params);
    query, params := WhereActivities(f, cands, query, params);
    query, params := WhereAccessibility(f, cands, query, params);
    query, params := WhereFood(f, cands, query, params);
    query, params := WhereVibes(f, cands, query, params);
    query, params := WhereBudget(f, cands, query, params);
    query, params := WherePoi(f, cands, query, params);
    assert cands[..11] == cands;
  }

  // ----- PATCH /catalogs/{poi} ---------------------------------------------------

  /** The UPDATE statement of this revision: 400 for an empty update,
    * otherwise the values as given, then the path poi as given. */
  method UpdateCatalogQuery(poi: string, updates: seq<Binding>) returns (r: Outcome<Statement>)
    ensures r == UpdateStatement(updates, "poi", Str(poi))
  {
    if updates == [] {
      return Fail(400, "No fields provided for update");
    }
    var setClause := SetClause(KeysOf(updates));
    var values := ValuesOf(updates) + [Str(poi)];
    r := Ok(Statement("UPDATE catalog SET " + setClause + " WHERE poi = %s", values));
    var head := "UPDATE catalog SET " + setClause;
    assert " WHERE poi = %s" == " WHERE " + "poi" + " = %s";
    assert head + " WHERE poi = %s" == head + " WHERE " + "poi" + " = %s";
  }

  /** Rejected with 400 exactly when empty; otherwise one "key = %s" per key
    * in the update's order, as many markers as values, the values unchanged
    * and the path poi, not lower-cased, last. */
  lemma UpdateShape(poi: string, updates: seq<Binding>)
    requires forall i :: 0 <= i < |updates| ==> PlainName(updates[i].0)
    ensures UpdateStatement(updates, "poi", Str(poi)).Fail? <==> updates == []
    ensures updates != [] ==>
      var st := UpdateStatement(updates, "poi", Str(poi)).value;
      && CountMarks(st.query) == |st.values| == |updates| + 1
      && st.values[|updates|] == Str(poi)
      && (forall i :: 0 <= i < |updates| ==> st.values[i] == updates[i].1)
      && Split(SetClause(KeysOf(updates)), ", ") == Assignments(KeysOf(updates))
  {
    if updates != [] {
      forall i | 0 <= i < |KeysOf(updates)| ensures ',' !in KeysOf(updates)[i] { }
      UpdateMarksMatchValues(updates, "poi", Str(poi));
      SetClauseSplits(KeysOf(updates));
    }
  }

  /** The path poi is bound as given, while a create stores it lower-cased
    * and stripped: a path poi with an upper-case letter is never the text
    * any create stored. */
  lemma UpdateKeyAsGiven(p: PoiCatalog.PoiCreate, poi: string, updates: seq<Binding>, i: nat)
    requires updates != [] && i < |poi| && IsUpper(poi[i])
    ensures UpdateStatement(updates, "poi", Str(poi)).value.values[|updates|] != PoiCatalog.CreateValues(p)[0]
  {
    PoiCatalog.StoredKey(p);
    CleanIdempotent(p.poi);
    assert !IsLower(poi);
  }
}
