/*
 * The first catalog revision (main.py): a catalog keyed by a numeric id,
 * list_catalogs over ten truthiness-tested filters bound as given, an
 * eleven-column INSERT with the values as given, and the partial update by
 * id.
 */
module CatalogV1 {
  import opened PyText
  import opened Sql
  import opened FilterTable

  /** The optional query inputs of GET /catalogs. */
  datatype Filters = Filters(
    name: Option<string>,
    country: Option<string>,
    currency: Option<string>,
    lat: Option<real>,
    lon: Option<real>,
    rating_avg: Option<real>,
    description: Option<string>,
    vibe: Option<string>,
    budget: Option<string>,
    poi: Option<string>)

  // ----- The filter table, in the order the source tests the filters ---------

  const NameSpec := Named("name", " AND name = ", "name")
  const CountrySpec := Named("country", " AND country = ", "country")
  const CurrencySpec := Named("currency", " AND currency = ", "currency")
  const LatSpec := Named("lat", " AND lat = ", "lat")
  const LonSpec := Named("lon", " AND lon = ", "lon")
  const RatingAvgSpec := Named("rating_avg", " AND rating_avg = ", "rating_avg")
  const DescriptionSpec := Named("description", " AND description LIKE ", "description")
  const VibeSpec := Named("vibe", " AND vibe = ", "vibe")
  const BudgetSpec := Named("budget", " AND budget = ", "budget")
  const PoiSpec := Named("poi", " AND poi = ", "poi")

  const Specs: seq<Spec> := [NameSpec, CountrySpec, CurrencySpec, LatSpec, LonSpec, RatingAvgSpec,
                             DescriptionSpec, VibeSpec, BudgetSpec, PoiSpec]

  const Order: seq<string> := ["name", "country", "currency", "lat", "lon", "rating_avg",
                               "description", "vibe", "budget", "poi"]

  /** A text filter tested for truthiness and bound as given. */
  function RawInput(v: Option<string>): Input {
    if Truthy(v) then One(Str(v.value)) else Absent
  }

  /** The description, tested for truthiness and bound wrapped in "%". */
  function WrapInput(v: Option<string>): Input {
    if Truthy(v) then One(Str("%" + v.value + "%")) else Absent
  }

  /** A number tested for truthiness, so 0.0 counts as absent, and bound as
    * given. */
  function NumInput(x: Option<real>): Input {
    if TruthyNum(x) then One(Num(x.value)) else Absent
  }

  function Inputs(f: Filters): (r: seq<Input>)
    ensures |r| == |Specs|
  {
    [ RawInput(f.name), RawInput(f.country), RawInput(f.currency), NumInput(f.lat), NumInput(f.lon),
      NumInput(f.rating_avg), WrapInput(f.description), RawInput(f.vibe), RawInput(f.budget), RawInput(f.poi) ]
  }

  function Candidates(f: Filters): (r: seq<Option<Clause>>)
    ensures |r| == 10
  {
    Cands(Specs, Inputs(f))
  }

  /** The clauses list_catalogs adds for the given inputs, in order. */
  function Plan(f: Filters): seq<Clause> {
    TablePlan(Specs, Inputs(f))
  }

  /** Which filters add a clause. */
  function Presence(f: Filters): seq<bool> {
    Flags(Specs, Inputs(f))
  }

  lemma SpecsAt()
    ensures Specs[0] == NameSpec && Specs[1] == CountrySpec && Specs[2] == CurrencySpec
    ensures Specs[3] == LatSpec && Specs[4] == LonSpec && Specs[5] == RatingAvgSpec
    ensures Specs[6] == DescriptionSpec && Specs[7] == VibeSpec && Specs[8] == BudgetSpec
    ensures Specs[9] == PoiSpec
  {
  }

  lemma InputsAt(f: Filters)
    ensures Inputs(f)[0] == RawInput(f.name) && Inputs(f)[1] == RawInput(f.country)
    ensures Inputs(f)[2] == RawInput(f.currency) && Inputs(f)[3] == NumInput(f.lat)
    ensures Inputs(f)[4] == NumInput(f.lon) && Inputs(f)[5] == NumInput(f.rating_avg)
    ensures Inputs(f)[6] == WrapInput(f.description) && Inputs(f)[7] == RawInput(f.vibe)
    ensures Inputs(f)[8] == RawInput(f.budget) && Inputs(f)[9] == RawInput(f.poi)
  {
  }

  /** Candidate k of a request is spec k applied to input k. */
  lemma CandidatesAt(f: Filters)
    ensures Candidates(f)[0] == Cand(NameSpec, RawInput(f.name))
    ensures Candidates(f)[1] == Cand(CountrySpec, RawInput(f.country))
    ensures Candidates(f)[2] == Cand(CurrencySpec, RawInput(f.currency))
    ensures Candidates(f)[3] == Cand(LatSpec, NumInput(f.lat))
    ensures Candidates(f)[4] == Cand(LonSpec, NumInput(f.lon))
    ensures Candidates(f)[5] == Cand(RatingAvgSpec, NumInput(f.rating_avg))
    ensures Candidates(f)[6] == Cand(DescriptionSpec, WrapInput(f.description))
    ensures Candidates(f)[7] == Cand(VibeSpec, RawInput(f.vibe))
    ensures Candidates(f)[8] == Cand(BudgetSpec, RawInput(f.budget))
    ensures Candidates(f)[9] == Cand(PoiSpec, RawInput(f.poi))
  {
    SpecsAt();
    InputsAt(f);
    CandsAt(Specs, Inputs(f));
  }

  // ----- What the query and the dictionary look like ---------------------------

  /** Every filter counts only when truthy: "" adds nothing, and neither
    * does a latitude, longitude or rating of 0.0. */
  lemma PresenceRules(f: Filters)
    ensures Presence(f)[0] == Truthy(f.name) && Presence(f)[1] == Truthy(f.country)
    ensures Presence(f)[2] == Truthy(f.currency) && Presence(f)[3] == TruthyNum(f.lat)
    ensures Presence(f)[4] == TruthyNum(f.lon) && Presence(f)[5] == TruthyNum(f.rating_avg)
    ensures Presence(f)[6] == Truthy(f.description) && Presence(f)[7] == Truthy(f.vibe)
    ensures Presence(f)[8] == Truthy(f.budget) && Presence(f)[9] == Truthy(f.poi)
  {
    SpecsAt();
    InputsAt(f);
  }

  lemma OrderOfSpecs()
    ensures FilterNames(Specs) == Order && NoDup(Order)
  {
  }

  /** Each filter adds at most one clause, and the clauses appear in the
    * fixed order name, country, currency, lat, lon, rating_avg, description,
    * vibe, budget, poi. */
  lemma ClauseOrder(f: Filters)
    ensures FiltersOf(Plan(f)) == Select(Order, Presence(f))
    ensures NoDup(FiltersOf(Plan(f)))
  {
    OrderOfSpecs();
    TableOrder(Specs, Inputs(f));
  }

  /** Filter k has a clause in the query exactly when it is present. */
  lemma FilterClause(f: Filters, k: nat)
    requires k < 10
    ensures Order[k] in FiltersOf(Plan(f)) <==> Presence(f)[k]
  {
    OrderOfSpecs();
    TableClause(Specs, Inputs(f), k);
  }

  /** With every filter absent the query is the bare base query and the
    * dictionary is empty, and only then is there no clause. */
  lemma AllAbsent(f: Filters)
    ensures Plan(f) == [] <==> forall k :: 0 <= k < 10 ==> !Presence(f)[k]
    ensures (forall k :: 0 <= k < 10 ==> !Presence(f)[k]) ==>
      QueryText(Plan(f)) == "SELECT * FROM catalog WHERE 1=1" && Params(Plan(f)) == map[]
  {
    TableEmpty(Specs, Inputs(f));
    assert |Specs| == 10 && Presence(f) == Flags(Specs, Inputs(f));
    EmptyPlan();
  }

  /** Every spec is a test, and no two share a key. */
  lemma SpecKeys(k: nat, j: nat)
    requires k < 10 && j < 10
    ensures Specs[k].TestSpec?
    ensures j != k ==> Specs[j].key != Specs[k].key
  {
  }

  /** A filter's key is in the dictionary exactly when the filter is
    * present, and then holds the input as given, wrapped in "%" for the
    * description. */
  lemma TestParam(f: Filters, k: nat)
    requires k < 10
    ensures Specs[k].TestSpec?
    ensures Specs[k].key in Params(Plan(f)) <==> Inputs(f)[k].One?
    ensures Inputs(f)[k].One? ==> Params(Plan(f))[Specs[k].key] == Inputs(f)[k].value
  {
    var xs := Inputs(f);
    SpecKeys(k, k);
    forall j | 0 <= j < 10 && j != k ensures Specs[k].key !in CandKeys(Cands(Specs, xs)[j]) {
      SpecKeys(k, j);
      CandKeysSpec(Specs[j], xs[j], Specs[k].key);
    }
    TestParamAt(Specs, xs, k);
  }

  /** A place on the equator or the prime meridian is not filtered by its
    * coordinate: 0.0 is falsy. */
  lemma ZeroCoordinatesSkipped(f: Filters)
    requires f.lat == Some(0.0) && f.lon == Some(0.0)
    ensures "lat" !in FiltersOf(Plan(f)) && "lat" !in Params(Plan(f))
    ensures "lon" !in FiltersOf(Plan(f)) && "lon" !in Params(Plan(f))
  {
    PresenceRules(f);
    FilterClause(f, 3);
    FilterClause(f, 4);
    TestParam(f, 3);
    TestParam(f, 4);
    LatFacts();
    LonFacts();
  }

  /** The description is matched anywhere in the column: its value goes in
    * between two "%". */
  lemma DescriptionPattern(f: Filters)
    requires Truthy(f.description)
    ensures "description" in FiltersOf(Plan(f))
    ensures "description" in Params(Plan(f)) && Params(Plan(f))["description"] == Str("%" + f.description.value + "%")
  {
    PresenceRules(f);
    FilterClause(f, 6);
    TestParam(f, 6);
    InputsAt(f);
    DescriptionFacts();
  }


  lemma NameFacts()
    ensures NameSpec.TestSpec? && TestText(NameSpec) == " AND name = %(name)s" && NameSpec.key == "name"
  {
  }

  lemma NameSound()
    ensures Sound(NameSpec)
  {
  }

  lemma CountryFacts()
    ensures CountrySpec.TestSpec? && TestText(CountrySpec) == " AND country = %(country)s" && CountrySpec.key == "country"
  {
  }

  lemma CountrySound()
    ensures Sound(CountrySpec)
  {
  }

  lemma CurrencyFacts()
    ensures CurrencySpec.TestSpec? && TestText(CurrencySpec) == " AND currency = %(currency)s" && CurrencySpec.key == "currency"
  {
  }

  lemma CurrencySound()
    ensures Sound(CurrencySpec)
  {
  }

  lemma LatFacts()
    ensures LatSpec.TestSpec? && TestText(LatSpec) == " AND lat = %(lat)s" && LatSpec.key == "lat"
  {
  }

  lemma LatSound()
    ensures Sound(LatSpec)
  {
  }

  lemma LonFacts()
    ensures LonSpec.TestSpec? && TestText(LonSpec) == " AND lon = %(lon)s" && LonSpec.key == "lon"
  {
  }

  lemma LonSound()
    ensures Sound(LonSpec)
  {
  }

  lemma RatingAvgFacts()
    ensures RatingAvgSpec.TestSpec? && TestText(RatingAvgSpec) == " AND rating_avg = %(rating_avg)s" && RatingAvgSpec.key == "rating_avg"
  {
  }

  lemma RatingAvgSound()
    ensures Sound(RatingAvgSpec)
  {
  }

  lemma DescriptionFacts()
    ensures DescriptionSpec.TestSpec? && TestText(DescriptionSpec) == " AND description LIKE %(description)s" && DescriptionSpec.key == "description"
  {
  }

  lemma DescriptionSound()
    ensures Sound(DescriptionSpec)
  {
  }

  lemma VibeFacts()
    ensures VibeSpec.TestSpec? && TestText(VibeSpec) == " AND vibe = %(vibe)s" && VibeSpec.key == "vibe"
  {
  }

  lemma VibeSound()
    ensures Sound(VibeSpec)
  {
  }

  lemma BudgetFacts()
    ensures BudgetSpec.TestSpec? && TestText(BudgetSpec) == " AND budget = %(budget)s" && BudgetSpec.key == "budget"
  {
  }

  lemma BudgetSound()
    ensures Sound(BudgetSpec)
  {
  }

  lemma PoiFacts()
    ensures PoiSpec.TestSpec? && TestText(PoiSpec) == " AND poi = %(poi)s" && PoiSpec.key == "poi"
  {
  }

  lemma PoiSound()
    ensures Sound(PoiSpec)
  {
  }

  /** No fixed text holds a "%" and every test's placeholder is its key. */
  lemma SpecsSound()
    ensures forall k :: 0 <= k < |Specs| ==> Sound(Specs[k])
  {
    NameSound();
    CountrySound();
    CurrencySound();
    LatSound();
    LonSound();
    RatingAvgSound();
    DescriptionSound();
    VibeSound();
    BudgetSound();
    PoiSound();
  }

  /** Every placeholder in the query text is a key of the dictionary. */
  lemma PlaceholdersBound(f: Filters)
    ensures forall n :: n in Placeholders(QueryText(Plan(f))) ==> n in Params(Plan(f))
  {
    SpecsSound();
    TableBound(Specs, Inputs(f));
  }

  /** No user text reaches the query: requests that present the same
    * filters get the same query text, whatever the values. */
  lemma QueryIgnoresValues(f: Filters, g: Filters)
    requires Presence(f) == Presence(g)
    ensures QueryText(Plan(f)) == QueryText(Plan(g))
  {
    var xs, ys := Inputs(f), Inputs(g);
    NoTokenLists(f);
    NoTokenLists(g);
    forall k | 0 <= k < 10 ensures Present(Specs[k], xs[k]) == Present(Specs[k], ys[k]) && Count(xs[k]) == Count(ys[k]) {
      assert Presence(f)[k] == Presence(g)[k];
    }
    TableShape(Specs, xs, ys);
  }

  /** No filter of this revision splits its value into tokens. */
  lemma NoTokenLists(f: Filters)
    ensures forall k :: 0 <= k < 10 ==> !Inputs(f)[k].Many?
  {
    InputsAt(f);
  }

  // ----- The builder -----------------------------------------------------------
  //
  // Each `if` block of list_catalogs is one method below; ListCatalogsQuery
  // runs them in the source's order.

  /** The name filter: appends its clause and binds name. */
  method WhereName(f: Filters, query: string, params: map<string, Value>) returns (query': string, params': map<string, Value>)
    requires Built(Candidates(f), 0, query, params)
    ensures Built(Candidates(f), 1, query', params')
  {
    query', params' := query, params;
    if f.name.Some? && f.name.value != "" {
      query' := query + " AND name = %(name)s";
      params' := params["name" := Str(f.name.value)];
    }
    CandidatesAt(f);
    NameFacts();
    TestStep(Candidates(f), 0, NameSpec, RawInput(f.name), " AND name = %(name)s", "name", query, params);
  }

  /** The country filter: appends its clause and binds country. */
  method WhereCountry(f: Filters, query: string, params: map<string, Value>) returns (query': string, params': map<string, Value>)
    requires Built(Candidates(f), 1, query, params)
    ensures Built(Candidates(f), 2, query', params')
  {
    query', params' := query, params;
    if f.country.Some? && f.country.value != "" {
      query' := query + " AND country = %(country)s";
      params' := params["country" := Str(f.country.value)];
    }
    CandidatesAt(f);
    CountryFacts();
    TestStep(Candidates(f), 1, CountrySpec, RawInput(f.country), " AND country = %(country)s", "country", query, params);
  }

  /** The currency filter: appends its clause and binds currency. */
  method WhereCurrency(f: Filters, query: string, params: map<string, Value>) returns (query': string, params': map<string, Value>)
    requires Built(Candidates(f), 2, query, params)
    ensures Built(Candidates(f), 3, query', params')
  {
    query', params' := query, params;
    if f.currency.Some? && f.currency.value != "" {
      query' := query + " AND currency = %(currency)s";
      params' := params["currency" := Str(f.currency.value)];
    }
    CandidatesAt(f);
    CurrencyFacts();
    TestStep(Candidates(f), 2, CurrencySpec, RawInput(f.currency), " AND currency = %(currency)s", "currency", query, params);
  }

  /** The lat filter: appends its clause and binds lat. */
  method WhereLat(f: Filters, query: string, params: map<string, Value>) returns (query': string, params': map<string, Value>)
    requires Built(Candidates(f), 3, query, params)
    ensures Built(Candidates(f), 4, query', params')
  {
    query', params' := query, params;
    if f.lat.Some? && f.lat.value != 0.0 {
      query' := query + " AND lat = %(lat)s";
      params' := params["lat" := Num(f.lat.value)];
    }
    CandidatesAt(f);
    LatFacts();
    TestStep(Candidates(f), 3, LatSpec, NumInput(f.lat), " AND lat = %(lat)s", "lat", query, params);
  }

  /** The lon filter: appends its clause and binds lon. */
  method WhereLon(f: Filters, query: string, params: map<string, Value>) returns (query': string, params': map<string, Value>)
    requires Built(Candidates(f), 4, query, params)
    ensures Built(Candidates(f), 5, query', params')
  {
    query', params' := query, params;
    if f.lon.Some? && f.lon.value != 0.0 {
      query' := query + " AND lon = %(lon)s";
      params' := params["lon" := Num(f.lon.value)];
    }
    CandidatesAt(f);
    LonFacts();
    TestStep(Candidates(f), 4, LonSpec, NumInput(f.lon), " AND lon = %(lon)s", "lon", query, params);
  }

  /** The rating_avg filter: appends its clause and binds rating_avg. */
  method WhereRatingAvg(f: Filters, query: string, params: map<string, Value>) returns (query': string, params': map<string, Value>)
    requires Built(Candidates(f), 5, query, params)
    ensures Built(Candidates(f), 6, query', params')
  {
    query', params' := query, params;
    if f.rating_avg.Some? && f.rating_avg.value != 0.0 {
      query' := query + " AND rating_avg = %(rating_avg)s";
      params' := params["rating_avg" := Num(f.rating_avg.value)];
    }
    CandidatesAt(f);
    RatingAvgFacts();
    TestStep(Candidates(f), 5, RatingAvgSpec, NumInput(f.rating_avg), " AND rating_avg = %(rating_avg)s", "rating_avg", query, params);
  }

  /** The description filter: appends its clause and binds description. */
  method WhereDescription(f: Filters, query: string, params: map<string, Value>) returns (query': string, params': map<string, Value>)
    requires Built(Candidates(f), 6, query, params)
    ensures Built(Candidates(f), 7, query', params')
  {
    query', params' := query, params;
    if f.description.Some? && f.description.value != "" {
      query' := query + " AND description LIKE %(description)s";
      params' := params["description" := Str("%" + f.description.value + "%")];
    }
    CandidatesAt(f);
    DescriptionFacts();
    TestStep(Candidates(f), 6, DescriptionSpec, WrapInput(f.description), " AND description LIKE %(description)s", "description", query, params);
  }

  /** The vibe filter: appends its clause and binds vibe. */
  method WhereVibe(f: Filters, query: string, params: map<string, Value>) returns (query': string, params': map<string, Value>)
    requires Built(Candidates(f), 7, query, params)
    ensures Built(Candidates(f), 8, query', params')
  {
    query', params' := query, params;
    if f.vibe.Some? && f.vibe.value != "" {
      query' := query + " AND vibe = %(vibe)s";
      params' := params["vibe" := Str(f.vibe.value)];
    }
    CandidatesAt(f);
    VibeFacts();
    TestStep(Candidates(f), 7, VibeSpec, RawInput(f.vibe), " AND vibe = %(vibe)s", "vibe", query, params);
  }

  /** The budget filter: appends its clause and binds budget. */
  method WhereBudget(f: Filters, query: string, params: map<string, Value>) returns (query': string, params': map<string, Value>)
    requires Built(Candidates(f), 8, query, params)
    ensures Built(Candidates(f), 9, query', params')
  {
    query', params' := query, params;
    if f.budget.Some? && f.budget.value != "" {
      query' := query + " AND budget = %(budget)s";
      params' := params["budget" := Str(f.budget.value)];
    }
    CandidatesAt(f);
    BudgetFacts();
    TestStep(Candidates(f), 8, BudgetSpec, RawInput(f.budget), " AND budget = %(budget)s", "budget", query, params);
  }

  /** The poi filter: appends its clause and binds poi. */
  method WherePoi(f: Filters, query: string, params: map<string, Value>) returns (query': string, params': map<string, Value>)
    requires Built(Candidates(f), 9, query, params)
    ensures Built(Candidates(f), 10, query', params')
  {
    query', params' := query, params;
    if f.poi.Some? && f.poi.value != "" {
      query' := query + " AND poi = %(poi)s";
      params' := params["poi" := Str(f.poi.value)];
    }
    CandidatesAt(f);
    PoiFacts();
    TestStep(Candidates(f), 9, PoiSpec, RawInput(f.poi), " AND poi = %(poi)s", "poi", query, params);
  }

  /** The query text and parameter dictionary list_catalogs hands to the
    * driver. */
  method ListCatalogsQuery(f: Filters) returns (query: string, params: map<string, Value>)
    ensures query == QueryText(Plan(f)) && params == Params(Plan(f))
  {
    ghost var cands := Candidates(f);
    query := "SELECT * FROM catalog WHERE 1=1";
    params := map[];
    assert cands[..0] == [];
    query, params := WhereName(f, query, params);
    query, params := WhereCountry(f, query, params);
    query, params := WhereCurrency(f, query, params);
    query, params := WhereLat(f, query, params);
    query, params := WhereLon(f, query, params);
    query, params := WhereRatingAvg(f, query, params);
    query, params := WhereDescription(f, query, params);
    query, params := WhereVibe(f, query, params);
    query, params := WhereBudget(f, query, params);
    query, params := WherePoi(f, query, params);
    assert cands[..10] == cands;
  }

  // ----- POST /catalogs ----------------------------------------------------------

  /** The create payload. Every field goes into the tuple as given, so each
    * is kept as an opaque value. */
  datatype CatalogCreate = CatalogCreate(
    id: Value, name: Value, country: Value, currency: Value, lat: Value, lon: Value,
    rating_avg: Value, description: Value, vibe: Value, budget: Value, poi: Value)

  datatype Column = Id | Name | Country | Currency | Lat | Lon | RatingAvg | Description | Vibe | Budget | Poi

  function ColumnName(c: Column): string {
    match c
    case Id => "id" case Name => "name" case Country => "country" case Currency => "currency"
    case Lat => "lat" case Lon => "lon" case RatingAvg => "rating_avg" case Description => "description"
    case Vibe => "vibe" case Budget => "budget" case Poi => "poi"
  }

  /** The column list of the INSERT, in order. */
  const Columns: seq<Column> := [Id, Name, Country, Currency, Lat, Lon, RatingAvg, Description, Vibe, Budget, Poi]

  function ColumnNames(cols: seq<Column>): (r: seq<string>)
    ensures |r| == |cols|
  {
    seq(|cols|, i requires 0 <= i < |cols| => ColumnName(cols[i]))
  }

  /** The payload field a column is filled from. */
  function Field(p: CatalogCreate, c: Column): Value {
    match c
    case Id => p.id case Name => p.name case Country => p.country case Currency => p.currency
    case Lat => p.lat case Lon => p.lon case RatingAvg => p.rating_avg case Description => p.description
    case Vibe => p.vibe case Budget => p.budget case Poi => p.poi
  }

  /** The value tuple: each column's field as given, in column order. */
  function CreateValues(p: CatalogCreate): (r: seq<Value>)
    ensures |r| == |Columns|
  {
    seq(|Columns|, i requires 0 <= i < |Columns| => Field(p, Columns[i]))
  }

  /** The INSERT text: the column list and one "%s" per column, separated by
    * ", ". */
  function CreateQuery(): string {
    InsertQuery(ColumnNames(Columns), ", ")
  }

  lemma ColumnNamePlain(c: Column)
    ensures '%' !in ColumnName(c)
  {
    match c
    case Id => case Name => case Country => case Currency => case Lat => case Lon =>
    case RatingAvg => case Description => case Vibe => case Budget => case Poi =>
  }

  /** Eleven columns, eleven markers, eleven values. */
  lemma CreateMarksMatchValues(p: CatalogCreate)
    ensures CountMarks(CreateQuery()) == |CreateValues(p)| == 11
  {
    var names := ColumnNames(Columns);
    forall i | 0 <= i < |names| ensures '%' !in names[i] {
      ColumnNamePlain(Columns[i]);
    }
    InsertMarks(names, ", ");
  }

  /** The INSERT's column list, as the source spells it. */
  lemma ColumnList()
    ensures ColumnNames(Columns) == ["id", "name", "country", "currency", "lat", "lon", "rating_avg",
                                     "description", "vibe", "budget", "poi"]
  {
  }

  /** The value tuple, as the source spells it: every field unchanged, in
    * the order of the column list. */
  lemma CreateValuesTuple(p: CatalogCreate)
    ensures CreateValues(p) == [p.id, p.name, p.country, p.currency, p.lat, p.lon, p.rating_avg,
                                p.description, p.vibe, p.budget, p.poi]
  {
  }

  /** The read-back after the INSERT: the row selected by the payload id. */
  function ReadBackQuery(p: CatalogCreate): Statement {
    SelectByKey("id", p.id)
  }

  /** The read-back has one marker and one value, and that value is what
    * the INSERT stored in its first column, id. */
  lemma ReadBackFindsInserted(p: CatalogCreate)
    ensures CountMarks(ReadBackQuery(p).query) == |ReadBackQuery(p).values| == 1
    ensures ReadBackQuery(p).values[0] == CreateValues(p)[0] && ColumnName(Columns[0]) == "id"
  {
    SelectByKeyMarks("id", p.id);
  }

  // ----- PATCH /catalogs/{catalog_id} ------------------------------------------

  /** The UPDATE statement of this revision: the 400 the handler raises for
    * an empty update, otherwise the values as given, then the numeric id.
    * What the caller then receives for the empty update is
    * UpdateAnswerAsWritten. */
  method UpdateCatalogQuery(catalogId: int, updates: seq<Binding>) returns (r: Outcome<Statement>)
    ensures r == UpdateStatement(updates, "id", Int(catalogId))
  {
    if updates == [] {
      return Fail(400, "No fields provided for update");
    }
    var setClause := SetClause(KeysOf(updates));
    var values := ValuesOf(updates) + [Int(catalogId)];
    r := Ok(Statement("UPDATE catalog SET " + setClause + " WHERE id = %s", values));
    var head := "UPDATE catalog SET " + setClause;
    assert " WHERE id = %s" == " WHERE " + "id" + " = %s";
    assert head + " WHERE id = %s" == head + " WHERE " + "id" + " = %s";
  }

  /** Rejected with 400 exactly when empty; otherwise one "key = %s" per key
    * in the update's order, as many markers as values, the values unchanged
    * and the id last. */
  lemma UpdateShape(catalogId: int, updates: seq<Binding>)
    requires forall i :: 0 <= i < |updates| ==> PlainName(updates[i].0)
    ensures UpdateStatement(updates, "id", Int(catalogId)).Fail? <==> updates == []
    ensures updates != [] ==>
      var st := UpdateStatement(updates, "id", Int(catalogId)).value;
      && CountMarks(st.query) == |st.values| == |updates| + 1
      && st.values[|updates|] == Int(catalogId)
      && (forall i :: 0 <= i < |updates| ==> st.values[i] == updates[i].1)
      && Split(SetClause(KeysOf(updates)), ", ") == Assignments(KeysOf(updates))
  {
    if updates != [] {
      forall i | 0 <= i < |KeysOf(updates)| ensures ',' !in KeysOf(updates)[i] { }
      UpdateMarksMatchValues(updates, "id", Int(catalogId));
      SetClauseSplits(KeysOf(updates));
    }
  }

  /** The handler's catch-all: any exception raised inside the try block,
    * its own HTTPException included, reaches the caller as a 500. */
  function CatchAll(r: Outcome<Statement>): Outcome<Statement> {
    if r.Fail? then Fail(500, "Internal server error") else r
  }

  /** What the caller of this revision's PATCH receives once the statement
    * is built: the statement itself, or a 500 for an empty update, because
    * the 400 is raised inside the try block whose except Exception clause
    * replaces it. */
  function UpdateAnswerAsWritten(catalogId: int, updates: seq<Binding>): (r: Outcome<Statement>)
    ensures r.Fail? <==> updates == []
    ensures r.Fail? ==> r.status == 500
    ensures r.Ok? ==> r == UpdateStatement(updates, "id", Int(catalogId))
  {
    CatchAll(UpdateStatement(updates, "id", Int(catalogId)))
  }

  /** An empty update: the handler raises 400, and the caller receives 500
    * instead. */
  lemma EmptyUpdateSwallowed(catalogId: int)
    ensures UpdateStatement([], "id", Int(catalogId)).Fail? && UpdateStatement([], "id", Int(catalogId)).status == 400
    ensures UpdateAnswerAsWritten(catalogId, []).Fail? && UpdateAnswerAsWritten(catalogId, []).status == 500
  {
  }
}
