/*
 * The newest catalog revision (main3.py): the list-filter query builder
 * with comma-list OR-groups, the row normaliser and the partial update.
 * The create tuple it shares with main2.py lives in module PoiCatalog.
 */
module CatalogV3 {
  import opened PyText
  import opened Sql
  import opened FilterTable
  import PoiCatalog

  /** The optional query inputs of GET /catalogs. */
  datatype Filters = Filters(
    city: Option<string>,
    country: Option<string>,
    rating_avg: Option<real>,
    vibes: Option<string>,
    budget: Option<real>,
    poi: Option<string>,
    activities: Option<string>,
    food: Option<string>,
    best_season: Option<string>,
    transport: Option<string>,
    accessibility: Option<string>)

  function NoFilters(): Filters {
    Filters(None, None, None, None, None, None, None, None, None, None, None)
  }

  // ----- Comma lists -----------------------------------------------------------

  /** Each piece stripped and lower-cased, blank pieces dropped, order and
    * repeats kept. */
  function KeepTokens(pieces: seq<string>): seq<string>
  {
    if pieces == [] then []
    else (if Strip(pieces[0]) != [] then [Lower(Strip(pieces[0]))] else []) + KeepTokens(pieces[1..])
  }

  /** The token list of a comma-separated filter value. */
  function Tokens(s: string): seq<string> {
    KeepTokens(Split(s, ","))
  }

  /** A token as the service compares it: non-empty, lower-case, stripped,
    * and free of commas. */
  predicate CleanToken(t: string) {
    t != [] && IsLower(t) && Strip(t) == t && ',' !in t
  }

  /** A non-blank piece without a comma yields a clean token. */
  lemma CleanPiece(p: string)
    requires ',' !in p && Strip(p) != []
    ensures CleanToken(Lower(Strip(p)))
  {
    var sp := Strip(p);
    assert ',' !in sp by {
      StripSpec(p);
      var i, j :| 0 <= i <= j <= |p| && sp == p[i..j];
      forall c | c in sp ensures c in p { }
    }
    var t := Lower(sp);
    forall k | 0 <= k < |t| ensures t[k] != ',' {
      assert t[k] == LowerChar(sp[k]);
    }
    LowerStripCommute(p);
    CleanIdempotent(p);
  }

  lemma {:induction false} KeepTokensClean(pieces: seq<string>)
    requires forall i :: 0 <= i < |pieces| ==> ',' !in pieces[i]
    ensures forall i :: 0 <= i < |KeepTokens(pieces)| ==> CleanToken(KeepTokens(pieces)[i])
  {
    if pieces != [] {
      KeepTokensClean(pieces[1..]);
      var p, rest := pieces[0], KeepTokens(pieces[1..]);
      if Strip(p) != [] {
        CleanPiece(p);
        assert KeepTokens(pieces) == [Lower(Strip(p))] + rest;
      } else {
        assert KeepTokens(pieces) == rest;
      }
    }
  }

  /** Every token is non-empty, lower-case, stripped and comma-free. */
  lemma TokensClean(s: string)
    ensures forall i :: 0 <= i < |Tokens(s)| ==> CleanToken(Tokens(s)[i])
  {
    SplitPiecesFree(s, ',');
    KeepTokensClean(Split(s, ","));
  }

  lemma {:induction false} KeepClean(ts: seq<string>)
    requires forall i :: 0 <= i < |ts| ==> CleanToken(ts[i])
    ensures KeepTokens(ts) == ts
  {
    if ts != [] {
      LowerOfLower(ts[0]);
      KeepClean(ts[1..]);
    }
  }

  /** Tokens come back in input order, duplicates included: a comma join of
    * clean tokens tokenises to exactly those tokens. */
  lemma TokensOfJoin(ts: seq<string>)
    requires |ts| >= 1
    requires forall i :: 0 <= i < |ts| ==> CleanToken(ts[i])
    ensures Tokens(Join(",", ts)) == ts
  {
    SplitJoin(ts, ",");
    KeepClean(ts);
  }

  /** Blank pieces are dropped: a value made only of commas and spaces has
    * no tokens. */
  lemma {:induction false} KeepBlank(pieces: seq<string>)
    requires forall i :: 0 <= i < |pieces| ==> AllSpace(pieces[i])
    ensures KeepTokens(pieces) == []
  {
    if pieces != [] {
      StripEmptyIffAllSpace(pieces[0]);
      KeepBlank(pieces[1..]);
    }
  }

  lemma ExampleJoin(pieces: seq<string>)
    requires pieces == ["B", " b ", ""]
    ensures Join(",", pieces) == "B, b ,"
  {
    assert pieces[1..][1..] == [""];
    assert Join(",", pieces[1..]) == " b " + "," + "";
    assert " b " + "," + "" == " b ,";
    assert "B" + "," + " b ," == "B, b ,";
  }

  lemma ExampleKept(pieces: seq<string>)
    requires pieces == ["B", " b ", ""]
    ensures KeepTokens(pieces) == ["b", "b"]
  {
    assert Strip("B") == "B";
    assert TrimLeft(" b ") == "b ";
    assert Strip(" b ") == "b";
    assert Lower("B") == "b";
    assert Lower("b") == "b";
    assert pieces[1..][1..][1..] == [];
    assert Strip("") == [];
    assert KeepTokens(pieces[1..][1..]) == [];
    assert KeepTokens(pieces[1..]) == ["b"];
  }

  /** Case and padding are removed, the repeated token is kept and the
    * trailing blank piece is dropped. */
  lemma TokensExample(s: string)
    requires s == "B, b ,"
    ensures Tokens(s) == ["b", "b"]
  {
    var pieces := ["B", " b ", ""];
    ExampleJoin(pieces);
    SplitJoin(pieces, ",");
    ExampleKept(pieces);
  }

  // ----- The filter table, in the order the source tests the filters ---------

  const CitySpec := Named("city", " AND city = ", "city")
  const CountrySpec := Named("country", " AND country = ", "country")
  const BestSeasonSpec := Named("best_season", " AND best_season = ", "best_season")
  const TransportSpec := Named("transport", " AND transport = ", "transport")
  const RatingSpec := Named("rating", " AND rating >= ", "rating_avg")
  const ActivitiesSpec := Named("activities", " AND activities LIKE ", "activities")
  const AccessibilitySpec := Named("accessibility", " AND accessibility LIKE ", "accessibility")
  const VibesSpec := GroupSpec("vibes", 0)
  const FoodSpec := GroupSpec("food", 100)
  const BudgetSpec := Named("budget", " AND budget <= ", "budget")
  const PoiSpec := Named("poi", " AND poi LIKE ", "poi")

  const Specs: seq<Spec> := [CitySpec, CountrySpec, BestSeasonSpec, TransportSpec, RatingSpec, ActivitiesSpec,
                             AccessibilitySpec, VibesSpec, FoodSpec, BudgetSpec, PoiSpec]

  const Order: seq<string> := ["city", "country", "best_season", "transport", "rating", "activities",
                               "accessibility", "vibes", "food", "budget", "poi"]

  /** A text filter tested for truthiness, bound lower-cased and stripped. */
  function CleanInput(v: Option<string>): Input {
    if Truthy(v) then One(Str(Clean(v.value))) else Absent
  }

  /** A text filter tested for truthiness, bound cleaned and wrapped in "%". */
  function LikeInput(v: Option<string>): Input {
    if Truthy(v) then One(Str("%" + Clean(v.value) + "%")) else Absent
  }

  /** A number tested with `is not None` and bound unchanged. */
  function NumberInput(x: Option<real>): Input {
    if x.Some? then One(Num(x.value)) else Absent
  }

  /** A comma list tested for truthiness, then split into tokens. */
  function ListInput(v: Option<string>): Input {
    if Truthy(v) then Many(Tokens(v.value)) else Absent
  }

  function Inputs(f: Filters): (r: seq<Input>)
    ensures |r| == |Specs|
  {
    [ CleanInput(f.city), CleanInput(f.country), CleanInput(f.best_season), CleanInput(f.transport),
      NumberInput(f.rating_avg), LikeInput(f.activities), LikeInput(f.accessibility),
      ListInput(f.vibes), ListInput(f.food), NumberInput(f.budget), LikeInput(f.poi) ]
  }

  function Candidates(f: Filters): (r: seq<Option<Clause>>)
    ensures |r| == 11
  {
    Cands(Specs, Inputs(f))
  }

  /** The clauses list_catalogs adds for the given inputs, in order. */
  function Plan(f: Filters): seq<Clause> {
    TablePlan(Specs, Inputs(f))
  }

  /** Which filters add a clause. */
  function Presence(f: Filters): seq<bool> {
    Flags(Specs, Inputs(f))
  }

  // ----- What the query and the dictionary look like ---------------------------

  /** Text filters count when truthy, so "" adds nothing; the two numbers
    * count whenever given, 0 included; a comma list counts when it has a
    * token. */
  lemma PresenceRules(f: Filters)
    ensures Presence(f)[0] == Truthy(f.city) && Presence(f)[1] == Truthy(f.country)
    ensures Presence(f)[2] == Truthy(f.best_season) && Presence(f)[3] == Truthy(f.transport)
    ensures Presence(f)[4] == f.rating_avg.Some?
    ensures Presence(f)[5] == Truthy(f.activities) && Presence(f)[6] == Truthy(f.accessibility)
    ensures Presence(f)[7] == (Truthy(f.vibes) && Tokens(f.vibes.value) != [])
    ensures Presence(f)[8] == (Truthy(f.food) && Tokens(f.food.value) != [])
    ensures Presence(f)[9] == f.budget.Some? && Presence(f)[10] == Truthy(f.poi)
  {
    SpecsAt();
    InputsAt(f);
  }

  lemma OrderOfSpecs()
    ensures FilterNames(Specs) == Order && NoDup(Order)
  {
  }

  /** Each filter adds at most one clause, and the clauses appear in the
    * fixed order city, country, best_season, transport, rating, activities,
    * accessibility, vibes, food, budget, poi. */
  lemma ClauseOrder(f: Filters)
    ensures FiltersOf(Plan(f)) == Select(Order, Presence(f))
    ensures NoDup(FiltersOf(Plan(f)))
  {
    OrderOfSpecs();
    TableOrder(Specs, Inputs(f));
  }

  /** Filter k has a clause in the query exactly when it is present. */
  lemma FilterClause(f: Filters, k: nat)
    requires k < 11
    ensures Order[k] in FiltersOf(Plan(f)) <==> Presence(f)[k]
  {
    OrderOfSpecs();
    TableClause(Specs, Inputs(f), k);
  }

  /** With every filter absent the query is the bare base query and the
    * dictionary is empty, and only then is there no clause. */
  lemma AllAbsent(f: Filters)
    ensures Plan(f) == [] <==> forall k :: 0 <= k < 11 ==> !Presence(f)[k]
    ensures (forall k :: 0 <= k < 11 ==> !Presence(f)[k]) ==>
      QueryText(Plan(f)) == "SELECT * FROM catalog WHERE 1=1" && Params(Plan(f)) == map[]
  {
    TableEmpty(Specs, Inputs(f));
    assert |Specs| == 11 && Presence(f) == Flags(Specs, Inputs(f));
    EmptyPlan();
  }

  /** Every test key starts with a letter and no two tests share one. */
  lemma SpecKeys(k: nat, j: nat)
    requires k < 11 && j < 11 && Specs[k].TestSpec?
    ensures Specs[k].key != [] && !IsDigit(Specs[k].key[0])
    ensures j != k && Specs[j].TestSpec? ==> Specs[j].key != Specs[k].key
  {
  }

  /** Test k's key is bound by no other filter. */
  lemma OnlyTestBinds(f: Filters, k: nat)
    requires k < 11 && Specs[k].TestSpec?
    ensures forall j :: 0 <= j < 11 && j != k ==> Specs[k].key !in CandKeys(Cands(Specs, Inputs(f))[j])
  {
    var xs := Inputs(f);
    forall j | 0 <= j < 11 && j != k ensures Specs[k].key !in CandKeys(Cands(Specs, xs)[j]) {
      SpecKeys(k, j);
      if Specs[j].TestSpec? {
        CandKeysSpec(Specs[j], xs[j], Specs[k].key);
      } else {
        GroupMissesName(Specs[j], xs[j], Specs[k].key);
      }
    }
  }

  /** A single-test filter's key is in the dictionary exactly when the
    * filter is present, and then holds the filter's cleaned input: the
    * lower-cased, stripped text (wrapped in "%" for the LIKE filters) or the
    * number unchanged. */
  lemma TestParam(f: Filters, k: nat)
    requires k < 11 && Specs[k].TestSpec?
    ensures Specs[k].key in Params(Plan(f)) <==> Inputs(f)[k].One?
    ensures Inputs(f)[k].One? ==> Params(Plan(f))[Specs[k].key] == Inputs(f)[k].value
  {
    OnlyTestBinds(f, k);
    TestParamAt(Specs, Inputs(f), k);
  }

  /** A rating and a budget of 0 still add their clauses and bind 0. */
  lemma ZeroNumbersAddClauses(f: Filters)
    requires f.rating_avg == Some(0.0) && f.budget == Some(0.0)
    ensures "rating" in FiltersOf(Plan(f)) && "budget" in FiltersOf(Plan(f))
    ensures "rating_avg" in Params(Plan(f)) && Params(Plan(f))["rating_avg"] == Num(0.0)
    ensures "budget" in Params(Plan(f)) && Params(Plan(f))["budget"] == Num(0.0)
  {
    FilterClause(f, 4);
    FilterClause(f, 9);
    TestParam(f, 4);
    TestParam(f, 9);
  }

  /** An empty string adds nothing; a blank one adds its clause, bound to
    * the empty string after strip. */
  lemma EmptyVersusBlank(f: Filters)
    requires f.city == Some("") && f.country == Some("  ")
    ensures "city" !in FiltersOf(Plan(f)) && "city" !in Params(Plan(f))
    ensures "country" in FiltersOf(Plan(f)) && "country" in Params(Plan(f))
    ensures Params(Plan(f))["country"] == Str("")
  {
    FilterClause(f, 0);
    FilterClause(f, 1);
    TestParam(f, 0);
    TestParam(f, 1);
    assert AllSpace(Lower("  "));
    StripEmptyIffAllSpace(Lower("  "));
  }

  /** Vibes token i is bound under str(i) unless food, which comes later,
    * binds the same numeral. */
  lemma VibesParam(f: Filters, i: nat)
    requires Truthy(f.vibes) && i < |Tokens(f.vibes.value)|
    requires !(Truthy(f.food) && 100 <= i < 100 + |Tokens(f.food.value)|)
    ensures NatToString(i) in Params(Plan(f))
    ensures Params(Plan(f))[NatToString(i)] == Str("%" + Tokens(f.vibes.value)[i] + "%")
  {
    var xs := Inputs(f);
    forall j | 7 < j < 11 ensures NatToString(VibesSpec.base + i) !in CandKeys(Cands(Specs, xs)[j]) {
      if j == 8 {
        GroupMissesNumeral(Specs[j], xs[j], i);
      } else {
        TestMissesNumeral(Specs[j], xs[j], i);
      }
    }
    GroupParamAt(Specs, xs, 7, i);
  }

  /** Food token j is always bound under str(100 + j). */
  lemma FoodParam(f: Filters, j: nat)
    requires Truthy(f.food) && j < |Tokens(f.food.value)|
    ensures NatToString(100 + j) in Params(Plan(f))
    ensures Params(Plan(f))[NatToString(100 + j)] == Str("%" + Tokens(f.food.value)[j] + "%")
  {
    var xs := Inputs(f);
    forall l | 8 < l < 11 ensures NatToString(FoodSpec.base + j) !in CandKeys(Cands(Specs, xs)[l]) {
      TestMissesNumeral(Specs[l], xs[l], 100 + j);
    }
    GroupParamAt(Specs, xs, 8, j);
  }

  /** With at most 100 vibes tokens the two groups use disjoint names and
    * every token of both keeps its own parameter. */
  lemma GroupsDisjoint(f: Filters)
    requires Truthy(f.vibes) && |Tokens(f.vibes.value)| <= 100
    ensures forall i :: 0 <= i < |Tokens(f.vibes.value)| ==>
      NatToString(i) in Params(Plan(f)) && Params(Plan(f))[NatToString(i)] == Str("%" + Tokens(f.vibes.value)[i] + "%")
  {
    forall i | 0 <= i < |Tokens(f.vibes.value)|
      ensures NatToString(i) in Params(Plan(f)) && Params(Plan(f))[NatToString(i)] == Str("%" + Tokens(f.vibes.value)[i] + "%")
    {
      VibesParam(f, i);
    }
  }

  /** Beyond 100 vibes tokens the names collide: food's first token
    * overwrites parameter "100", and vibes token 100 is lost. */
  lemma GroupsCollide(f: Filters)
    requires Truthy(f.vibes) && |Tokens(f.vibes.value)| > 100
    requires Truthy(f.food) && Tokens(f.food.value) != []
    requires Tokens(f.food.value)[0] != Tokens(f.vibes.value)[100]
    ensures "100" in Params(Plan(f))
    ensures Params(Plan(f))["100"] == Str("%" + Tokens(f.food.value)[0] + "%")
    ensures Params(Plan(f))["100"] != Str("%" + Tokens(f.vibes.value)[100] + "%")
  {
    FoodParam(f, 0);
    assert NatToString(100) == "100";
    var a, b := Tokens(f.food.value)[0], Tokens(f.vibes.value)[100];
    assert ("%" + a + "%")[1..|a| + 1] == a;
    assert ("%" + b + "%")[1..|b| + 1] == b;
  }


  lemma CityFacts()
    ensures CitySpec.TestSpec? && TestText(CitySpec) == " AND city = %(city)s" && CitySpec.key == "city"
  {
  }

  lemma CitySound()
    ensures Sound(CitySpec)
  {
  }

  lemma CountryFacts()
    ensures CountrySpec.TestSpec? && TestText(CountrySpec) == " AND country = %(country)s" && CountrySpec.key == "country"
  {
  }

  lemma CountrySound()
    ensures Sound(CountrySpec)
  {
  }

  lemma BestSeasonFacts()
    ensures BestSeasonSpec.TestSpec? && TestText(BestSeasonSpec) == " AND best_season = %(best_season)s" && BestSeasonSpec.key == "best_season"
  {
  }

  lemma BestSeasonSound()
    ensures Sound(BestSeasonSpec)
  {
  }

  lemma TransportFacts()
    ensures TransportSpec.TestSpec? && TestText(TransportSpec) == " AND transport = %(transport)s" && TransportSpec.key == "transport"
  {
  }

  lemma TransportSound()
    ensures Sound(TransportSpec)
  {
  }

  lemma RatingFacts()
    ensures RatingSpec.TestSpec? && TestText(RatingSpec) == " AND rating >= %(rating_avg)s" && RatingSpec.key == "rating_avg"
  {
  }

  lemma RatingSound()
    ensures Sound(RatingSpec)
  {
  }

  lemma ActivitiesFacts()
    ensures ActivitiesSpec.TestSpec? && TestText(ActivitiesSpec) == " AND activities LIKE %(activities)s" && ActivitiesSpec.key == "activities"
  {
  }

  lemma ActivitiesSound()
    ensures Sound(ActivitiesSpec)
  {
  }

  lemma AccessibilityFacts()
    ensures AccessibilitySpec.TestSpec? && TestText(AccessibilitySpec) == " AND accessibility LIKE %(accessibility)s" && AccessibilitySpec.key == "accessibility"
  {
  }

  lemma AccessibilitySound()
    ensures Sound(AccessibilitySpec)
  {
  }

  lemma VibesFacts()
    ensures VibesSpec.GroupSpec? && VibesSpec.col == "vibes" && VibesSpec.base == 0
  {
  }

  lemma VibesSound()
    ensures Sound(VibesSpec)
  {
  }

  lemma FoodFacts()
    ensures FoodSpec.GroupSpec? && FoodSpec.col == "food" && FoodSpec.base == 100
  {
  }

  lemma FoodSound()
    ensures Sound(FoodSpec)
  {
  }

  lemma BudgetFacts()
    ensures BudgetSpec.TestSpec? && TestText(BudgetSpec) == " AND budget <= %(budget)s" && BudgetSpec.key == "budget"
  {
  }

  lemma BudgetSound()
    ensures Sound(BudgetSpec)
  {
  }

  lemma PoiFacts()
    ensures PoiSpec.TestSpec? && TestText(PoiSpec) == " AND poi LIKE %(poi)s" && PoiSpec.key == "poi"
  {
  }

  lemma PoiSound()
    ensures Sound(PoiSpec)
  {
  }

  /** No fixed text holds a "%" and every test's placeholder is its key. */
  lemma SpecsSound()
    ensures forall k :: 0 <= k < |Specs| ==> Sound(Specs[k])
  {
    CitySound();
    CountrySound();
    BestSeasonSound();
    TransportSound();
    RatingSound();
    ActivitiesSound();
    AccessibilitySound();
    VibesSound();
    FoodSound();
    BudgetSound();
    PoiSound();
  }

  /** Every placeholder in the query text is a key of the dictionary. */
  lemma PlaceholdersBound(f: Filters)
    ensures forall n :: n in Placeholders(QueryText(Plan(f))) ==> n in Params(Plan(f))
  {
    SpecsSound();
    TableBound(Specs, Inputs(f));
  }

  /** The number of tokens a comma-list filter contributes. */
  function TokenCount(v: Option<string>): nat {
    if Truthy(v) then |Tokens(v.value)| else 0
  }

  lemma InputCount(f: Filters, k: nat)
    requires k < 11
    ensures Count(Inputs(f)[k]) == if k == 7 then TokenCount(f.vibes) else if k == 8 then TokenCount(f.food) else 0
  {
  }

  /** No user text reaches the query: requests that present the same filters
    * with the same token counts get the same query text, whatever the
    * values. */
  lemma QueryIgnoresValues(f: Filters, g: Filters)
    requires Presence(f) == Presence(g)
    requires TokenCount(f.vibes) == TokenCount(g.vibes) && TokenCount(f.food) == TokenCount(g.food)
    ensures QueryText(Plan(f)) == QueryText(Plan(g))
  {
    var xs, ys := Inputs(f), Inputs(g);
    forall k | 0 <= k < 11 ensures Present(Specs[k], xs[k]) == Present(Specs[k], ys[k]) && Count(xs[k]) == Count(ys[k]) {
      assert Presence(f)[k] == Presence(g)[k];
      InputCount(f, k);
      InputCount(g, k);
    }
    TableShape(Specs, xs, ys);
  }

  // ----- The builder as the source writes it -----------------------------------
  //
  // Each `if` block of list_catalogs is one method below; ListCatalogsQuery
  // runs them in the source's order.

  /** Binds each token, wrapped in "%", under the name of its index plus base. */
  method BindTokens(params: map<string, Value>, toks: seq<string>, base: nat) returns (r: map<string, Value>)
    ensures r == Bind(params, TokenBinds(toks, base))
  {
    var bs := TokenBinds(toks, base);
    r := params;
    var i := 0;
    while i < |toks|
      invariant 0 <= i <= |toks|
      invariant r == Bind(params, bs[..i])
    {
      BindSnoc(params, bs[..i], bs[i]);
      assert bs[..i + 1] == bs[..i] + [bs[i]];
      r := r[NatToString(base + i) := Str("%" + toks[i] + "%")];
      i := i + 1;
    }
    assert bs[..|toks|] == bs;
  }

  /** The city filter: appends its clause and binds city. */
  method WhereCity(f: Filters, query: string, params: map<string, Value>) returns (query': string, params': map<string, Value>)
    requires Built(Candidates(f), 0, query, params)
    ensures Built(Candidates(f), 1, query', params')
  {
    query', params' := query, params;
    if f.city.Some? && f.city.value != "" {
      query' := query + " AND city = %(city)s";
      params' := params["city" := Str(Clean(f.city.value))];
    }
    CandidatesAt(f);
    CityFacts();
    TestStep(Candidates(f), 0, CitySpec, CleanInput(f.city), " AND city = %(city)s", "city", query, params);
  }

  /** The country filter: appends its clause and binds country. */
  method WhereCountry(f: Filters, query: string, params: map<string, Value>) returns (query': string, params': map<string, Value>)
    requires Built(Candidates(f), 1, query, params)
    ensures Built(Candidates(f), 2, query', params')
  {
    query', params' := query, params;
    if f.country.Some? && f.country.value != "" {
      query' := query + " AND country = %(country)s";
      params' := params["country" := Str(Clean(f.country.value))];
    }
    CandidatesAt(f);
    CountryFacts();
    TestStep(Candidates(f), 1, CountrySpec, CleanInput(f.country), " AND country = %(country)s", "country", query, params);
  }

  /** The best_season filter: appends its clause and binds best_season. */
  method WhereBestSeason(f: Filters, query: string, params: map<string, Value>) returns (query': string, params': map<string, Value>)
    requires Built(Candidates(f), 2, query, params)
    ensures Built(Candidates(f), 3, query', params')
  {
    query', params' := query, params;
    if f.best_season.Some? && f.best_season.value != "" {
      query' := query + " AND best_season = %(best_season)s";
      params' := params["best_season" := Str(Clean(f.best_season.value))];
    }
    CandidatesAt(f);
    BestSeasonFacts();
    TestStep(Candidates(f), 2, BestSeasonSpec, CleanInput(f.best_season), " AND best_season = %(best_season)s", "best_season", query, params);
  }

  /** The transport filter: appends its clause and binds transport. */
  method WhereTransport(f: Filters, query: string, params: map<string, Value>) returns (query': string, params': map<string, Value>)
    requires Built(Candidates(f), 3, query, params)
    ensures Built(Candidates(f), 4, query', params')
  {
    query', params' := query, params;
    if f.transport.Some? && f.transport.value != "" {
      query' := query + " AND transport = %(transport)s";
      params' := params["transport" := Str(Clean(f.transport.value))];
    }
    CandidatesAt(f);
    TransportFacts();
    TestStep(Candidates(f), 3, TransportSpec, CleanInput(f.transport), " AND transport = %(transport)s", "transport", query, params);
  }

  /** The rating_avg filter: appends its clause and binds rating_avg. */
  method WhereRating(f: Filters, query: string, params: map<string, Value>) returns (query': string, params': map<string, Value>)
    requires Built(Candidates(f), 4, query, params)
    ensures Built(Candidates(f), 5, query', params')
  {
    query', params' := query, params;
    if f.rating_avg.Some? {
      query' := query + " AND rating >= %(rating_avg)s";
      params' := params["rating_avg" := Num(f.rating_avg.value)];
    }
    CandidatesAt(f);
    RatingFacts();
    TestStep(Candidates(f), 4, RatingSpec, NumberInput(f.rating_avg), " AND rating >= %(rating_avg)s", "rating_avg", query, params);
  }

  /** The activities filter: appends its clause and binds activities. */
  method WhereActivities(f: Filters, query: string, params: map<string, Value>) returns (query': string, params': map<string, Value>)
    requires Built(Candidates(f), 5, query, params)
    ensures Built(Candidates(f), 6, query', params')
  {
    query', params' := query, params;
    if f.activities.Some? && f.activities.value != "" {
      query' := query + " AND activities LIKE %(activities)s";
      params' := params["activities" := Str("%" + Clean(f.activities.value) + "%")];
    }
    CandidatesAt(f);
    ActivitiesFacts();
    TestStep(Candidates(f), 5, ActivitiesSpec, LikeInput(f.activities), " AND activities LIKE %(activities)s", "activities", query, params);
  }

  /** The accessibility filter: appends its clause and binds accessibility. */
  method WhereAccessibility(f: Filters, query: string, params: map<string, Value>) returns (query': string, params': map<string, Value>)
    requires Built(Candidates(f), 6, query, params)
    ensures Built(Candidates(f), 7, query', params')
  {
    query', params' := query, params;
    if f.accessibility.Some? && f.accessibility.value != "" {
      query' := query + " AND accessibility LIKE %(accessibility)s";
      params' := params["accessibility" := Str("%" + Clean(f.accessibility.value) + "%")];
    }
    CandidatesAt(f);
    AccessibilityFacts();
    TestStep(Candidates(f), 6, AccessibilitySpec, LikeInput(f.accessibility), " AND accessibility LIKE %(accessibility)s", "accessibility", query, params);
  }

  /** The vibes filter: one LIKE per token of the comma list, OR-ed, with the
    * token indices from 0 on as parameter names. */
  method WhereVibes(f: Filters, query: string, params: map<string, Value>) returns (query': string, params': map<string, Value>)
    requires Built(Candidates(f), 7, query, params)
    ensures Built(Candidates(f), 8, query', params')
  {
    query', params' := query, params;
    if f.vibes.Some? && f.vibes.value != "" {
      var vibesList := Tokens(f.vibes.value);
      if |vibesList| > 0 {
        var vibesConditions := GroupConditions("vibes", 0, |vibesList|);
        query' := query + (" AND (" + vibesConditions + ")");
        params' := BindTokens(params, vibesList, 0);
      }
    }
    CandidatesAt(f);
    VibesFacts();
    GroupStep(Candidates(f), 7, VibesSpec, ListInput(f.vibes), query, params);
  }

  /** The food filter: one LIKE per token of the comma list, OR-ed, with the
    * token indices from 100 on as parameter names. */
  method WhereFood(f: Filters, query: string, params: map<string, Value>) returns (query': string, params': map<string, Value>)
    requires Built(Candidates(f), 8, query, params)
    ensures Built(Candidates(f), 9, query', params')
  {
    query', params' := query, params;
    if f.food.Some? && f.food.value != "" {
      var foodList := Tokens(f.food.value);
      if |foodList| > 0 {
        var foodConditions := GroupConditions("food", 100, |foodList|);
        query' := query + (" AND (" + foodConditions + ")");
        params' := BindTokens(params, foodList, 100);
      }
    }
    CandidatesAt(f);
    FoodFacts();
    GroupStep(Candidates(f), 8, FoodSpec, ListInput(f.food), query, params);
  }

  /** The budget filter: appends its clause and binds budget. */
  method WhereBudget(f: Filters, query: string, params: map<string, Value>) returns (query': string, params': map<string, Value>)
    requires Built(Candidates(f), 9, query, params)
    ensures Built(Candidates(f), 10, query', params')
  {
    query', params' := query, params;
    if f.budget.Some? {
      query' := query + " AND budget <= %(budget)s";
      params' := params["budget" := Num(f.budget.value)];
    }
    CandidatesAt(f);
    BudgetFacts();
    TestStep(Candidates(f), 9, BudgetSpec, NumberInput(f.budget), " AND budget <= %(budget)s", "budget", query, params);
  }

  /** The poi filter: appends its clause and binds poi. */
  method WherePoi(f: Filters, query: string, params: map<string, Value>) returns (query': string, params': map<string, Value>)
    requires Built(Candidates(f), 10, query, params)
    ensures Built(Candidates(f), 11, query', params')
  {
    query', params' := query, params;
    if f.poi.Some? && f.poi.value != "" {
      query' := query + " AND poi LIKE %(poi)s";
      params' := params["poi" := Str("%" + Clean(f.poi.value) + "%")];
    }
    CandidatesAt(f);
    PoiFacts();
    TestStep(Candidates(f), 10, PoiSpec, LikeInput(f.poi), " AND poi LIKE %(poi)s", "poi", query, params);
  }

  lemma SpecsAt()
    ensures Specs[0] == CitySpec && Specs[1] == CountrySpec && Specs[2] == BestSeasonSpec
    ensures Specs[3] == TransportSpec && Specs[4] == RatingSpec && Specs[5] == ActivitiesSpec
    ensures Specs[6] == AccessibilitySpec && Specs[7] == VibesSpec && Specs[8] == FoodSpec
    ensures Specs[9] == BudgetSpec && Specs[10] == PoiSpec
  {
  }

  lemma InputsAt(f: Filters)
    ensures Inputs(f)[0] == CleanInput(f.city) && Inputs(f)[1] == CleanInput(f.country)
    ensures Inputs(f)[2] == CleanInput(f.best_season) && Inputs(f)[3] == CleanInput(f.transport)
    ensures Inputs(f)[4] == NumberInput(f.rating_avg) && Inputs(f)[5] == LikeInput(f.activities)
    ensures Inputs(f)[6] == LikeInput(f.accessibility) && Inputs(f)[7] == ListInput(f.vibes)
    ensures Inputs(f)[8] == ListInput(f.food) && Inputs(f)[9] == NumberInput(f.budget)
    ensures Inputs(f)[10] == LikeInput(f.poi)
  {
  }

  /** Candidate k of a request is spec k applied to input k. */
  lemma CandidatesAt(f: Filters)
    ensures Candidates(f)[0] == Cand(CitySpec, CleanInput(f.city))
    ensures Candidates(f)[1] == Cand(CountrySpec, CleanInput(f.country))
    ensures Candidates(f)[2] == Cand(BestSeasonSpec, CleanInput(f.best_season))
    ensures Candidates(f)[3] == Cand(TransportSpec, CleanInput(f.transport))
    ensures Candidates(f)[4] == Cand(RatingSpec, NumberInput(f.rating_avg))
    ensures Candidates(f)[5] == Cand(ActivitiesSpec, LikeInput(f.activities))
    ensures Candidates(f)[6] == Cand(AccessibilitySpec, LikeInput(f.accessibility))
    ensures Candidates(f)[7] == Cand(VibesSpec, ListInput(f.vibes))
    ensures Candidates(f)[8] == Cand(FoodSpec, ListInput(f.food))
    ensures Candidates(f)[9] == Cand(BudgetSpec, NumberInput(f.budget))
    ensures Candidates(f)[10] == Cand(PoiSpec, LikeInput(f.poi))
  {
    SpecsAt();
    InputsAt(f);
    CandsAt(Specs, Inputs(f));
  }

  /** The query text and parameter dictionary list_catalogs hands to the
    * driver. */
  method ListCatalogsQuery(f: Filters) returns (query: string, params: map<string, Value>)
    ensures query == QueryText(Plan(f)) && params == Params(Plan(f))
  {
    ghost var cands := Candidates(f);
    query := "SELECT * FROM catalog WHERE 1=1";
    params := map[];
    assert cands[..0] == [];
    query, params := WhereCity(f, query, params);
    query, params := WhereCountry(f, query, params);
    query, params := WhereBestSeason(f, query, params);
    query, params := WhereTransport(f, query, params);
    query, params := WhereRating(f, query, params);
    query, params := WhereActivities(f, query, params);
    query, params := WhereAccessibility(f, query, params);
    query, params := WhereVibes(f, query, params);
    query, params := WhereFood(f, query, params);
    query, params := WhereBudget(f, query, params);
    query, params := WherePoi(f, query, params);
    assert cands[..11] == cands;
  }
  // ----- PATCH /catalogs/{poi} ---------------------------------------------------

  /** A string value lower-cased and stripped; any other value as it is.
    * A sanitised string is lower-case, has no surrounding blanks, and is
    * what stripping first and lower-casing second would also give. */
  function SanitizeValue(v: Value): (r: Value)
    ensures r.Str? <==> v.Str?
    ensures v.Str? ==> IsLower(r.s) && Strip(r.s) == r.s && r.s == Lower(Strip(v.s))
    ensures !v.Str? ==> r == v
  {
    if v.Str? then
      CleanIdempotent(v.s);
      LowerStripCommute(v.s);
      Str(Clean(v.s))
    else v
  }

  /** The update map after its string values are sanitised in place. */
  function Sanitized(updates: seq<Binding>): (r: seq<Binding>)
    ensures |r| == |updates|
  {
    seq(|updates|, i requires 0 <= i < |updates| => (updates[i].0, SanitizeValue(updates[i].1)))
  }

  /** The loop over updates.items(), rewriting each string value. */
  method SanitizeUpdates(updates: seq<Binding>) returns (u: seq<Binding>)
    ensures u == Sanitized(updates)
  {
    u := updates;
    var i := 0;
    while i < |u|
      invariant 0 <= i <= |u| == |updates|
      invariant forall j :: 0 <= j < i ==> u[j] == Sanitized(updates)[j]
      invariant forall j :: i <= j < |u| ==> u[j] == updates[j]
    {
      if u[i].1.Str? {
        u := u[i := (u[i].0, Str(Clean(u[i].1.s)))];
      }
      i := i + 1;
    }
  }

  /** The UPDATE statement of the newest revision: 400 for an empty update,
    * otherwise the sanitised values, then the cleaned poi as the row key. */
  method UpdateCatalogQuery(poi: string, updates: seq<Binding>) returns (r: Outcome<Statement>)
    ensures r == UpdateStatement(Sanitized(updates), "poi", Str(Clean(poi)))
  {
    if updates == [] {
      return Fail(400, "No fields provided for update");
    }
    var u := SanitizeUpdates(updates);
    var setClause := SetClause(KeysOf(u));
    var values := ValuesOf(u) + [Str(Clean(poi))];
    r := Ok(Statement("UPDATE catalog SET " + setClause + " WHERE poi = %s", values));
    var head := "UPDATE catalog SET " + setClause;
    assert " WHERE poi = %s" == " WHERE " + "poi" + " = %s";
    assert head + " WHERE poi = %s" == head + " WHERE " + "poi" + " = %s";
  }

  /** Sanitising keeps the keys and their order, cleans every string value,
    * leaves every other value alone, and changes nothing a second time. */
  lemma SanitizedValues(updates: seq<Binding>)
    ensures KeysOf(Sanitized(updates)) == KeysOf(updates)
    ensures forall i :: 0 <= i < |updates| && updates[i].1.Str? ==>
      Sanitized(updates)[i].1 == Str(Clean(updates[i].1.s))
    ensures forall i :: 0 <= i < |updates| && !updates[i].1.Str? ==> Sanitized(updates)[i].1 == updates[i].1
    ensures Sanitized(Sanitized(updates)) == Sanitized(updates)
  {
    forall i | 0 <= i < |updates| && updates[i].1.Str? {
      CleanIdempotent(updates[i].1.s);
    }
  }

  /** An update of the newest revision: rejected with 400 exactly when empty;
    * otherwise one "key = %s" per key in the update's order, as many markers
    * as values, the sanitised values in order and the cleaned poi last. */
  lemma UpdateShape(poi: string, updates: seq<Binding>)
    requires forall i :: 0 <= i < |updates| ==> PlainName(updates[i].0)
    ensures UpdateStatement(Sanitized(updates), "poi", Str(Clean(poi))).Fail? <==> updates == []
    ensures updates != [] ==>
      var st := UpdateStatement(Sanitized(updates), "poi", Str(Clean(poi))).value;
      && CountMarks(st.query) == |st.values| == |updates| + 1
      && st.values[|updates|] == Str(Clean(poi))
      && (forall i :: 0 <= i < |updates| ==> st.values[i] == SanitizeValue(updates[i].1))
      && Split(SetClause(KeysOf(Sanitized(updates))), ", ") == Assignments(KeysOf(updates))
  {
    SanitizedValues(updates);
    if updates != [] {
      var u := Sanitized(updates);
      forall i | 0 <= i < |u| ensures '%' !in u[i].0 { assert u[i].0 == KeysOf(u)[i]; }
      forall i | 0 <= i < |KeysOf(u)| ensures ',' !in KeysOf(u)[i] { assert KeysOf(u)[i] == updates[i].0; }
      UpdateMarksMatchValues(u, "poi", Str(Clean(poi)));
      SetClauseSplits(KeysOf(u));
    }
  }

  /** An update reaches the row a create stored: the key it binds is the
    * stored poi value whenever the path poi cleans to the payload's poi. */
  lemma UpdateFindsCreated(p: PoiCatalog.PoiCreate, poi: string, updates: seq<Binding>)
    requires updates != [] && Clean(poi) == Clean(p.poi)
    ensures UpdateStatement(Sanitized(updates), "poi", Str(Clean(poi))).value.values[|updates|]
         == PoiCatalog.CreateValues(p)[0]
  {
    PoiCatalog.StoredKey(p);
  }
}
