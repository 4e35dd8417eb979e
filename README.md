# TripSpark Catalog: the query-shaping core in Dafny

The TripSpark Catalog service is a small REST API over one MySQL table of
travel points of interest. It exists in three revisions: `main.py`, whose
catalog is keyed by a numeric id, and `main2.py` and `main3.py`, whose
catalog is keyed by the lower-cased name of the place (`poi`). Every
endpoint hands the MySQL driver a query text plus the values to bind. This
project models the part of the service that builds those texts and values,
and it models nothing else:

- `list_catalogs` in each revision. It starts from
  `SELECT * FROM catalog WHERE 1=1`, appends one `AND` clause for each
  filter that is present, and fills a dictionary keyed by the pyformat
  placeholders `%(name)s`. In the newest revision, `vibes` and `food` are
  comma lists. Each becomes an OR-group of `LIKE` tests, one per token,
  whose placeholders are the token indices: from 0 for vibes, from 100 for
  food.
- The value tuple of `POST /catalogs` and its `INSERT` text. The two later
  revisions build the same 19-column statement (module `PoiCatalog`).
  `main.py` builds an 11-column one.
- The `SET` clause and value list of the partial update `PATCH`. The newest
  revision also lower-cases and strips string values in place.
- `normalize_catalog_row` of the newest revision. It turns a set or list in
  `vibes`, `activities` or `food` into its sorted items joined with `", "`.

Layout:

- `pytext.dfy` (`PyText`): the Python string builtins the code relies on.
  These are `lower`, `strip`, `split`, `join`, `str(int)` and `sorted` on
  strings, each with its defining properties.
- `sql.dfy` (`Sql`): the general SQL pieces.
  - Query text as fixed text and placeholders, and the placeholder reader
    the driver applies.
  - The parameter dictionary built by successive assignments.
  - The OR-group shape.
  - `%s` marker counting.
  - The UPDATE and INSERT statement texts.
- `filter_table.dfy` (`FilterTable`): a revision's list endpoint as a table
  of filter specs. Clause order, presence, bound values and placeholder
  coverage are proved once, for every table.
- `catalog_v3.dfy`, `catalog_v2.dfy` and `catalog_v1.dfy`: the three
  revisions (`main3.py`, `main2.py` and `main.py`).
- `poi_catalog.dfy`: the 19-column create shared by `main2.py` and
  `main3.py`.
- `row_normalizer.dfy`: `normalize_catalog_row`.

Structure of the list builders:

- The builders are imperative in the source, a chain of `if` blocks doing
  `query +=` and `params[...] =`, and they are imperative here too.
  - Each `if` block is a method `Where<Filter>`.
  - The token loops are `while` loops.
  - `ListCatalogsQuery` runs the blocks in the source's order.
- Each method is proved to produce `QueryText(Plan(f))` and
  `Params(Plan(f))`. `Plan(f)` is the declarative clause list of the filter
  table, and the properties are proved about it.

The update loop and `normalize_catalog_row` are methods in the same way.
One is proved against `Sanitized`, the other against `NormalizedRow`.

Two behaviours of the code are worth stating plainly:

- A comma list keeps repeated tokens. `"B, b ,"` yields the two tokens
  `["b", "b"]` and so two `LIKE` tests (`TokensExample`).
- `normalize_catalog_row` keeps repeated list items: `sorted` does not
  de-duplicate.

## Model

| member | source | states |
|---|---|---|
| CatalogV3.TokensClean | main3.py:237 | every token of a comma list is non-empty, lower-case, stripped and free of commas |
| CatalogV3.TokensOfJoin | main3.py:237 | tokenising a comma join of clean tokens gives back exactly those tokens, in order and with repeats |
| CatalogV3.KeepBlank | main3.py:237 | blank pieces are dropped: pieces that are all whitespace give no token |
| CatalogV3.TokensExample | main3.py:237 | `"B, b ,"` tokenises to `["b", "b"]`, so case and padding go, the repeat stays and the blank piece is dropped |
| CatalogV3.PresenceRules | main3.py:215-259 | text filters count when truthy, while rating and budget count whenever they are not None; a comma list counts when it has a token |
| CatalogV3.ClauseOrder | main3.py:215-259 | the filters that add clauses are exactly the present ones, each at most once, in the fixed order city … poi |
| CatalogV3.FilterClause | main3.py:215-259 | filter k has a clause exactly when it is present |
| CatalogV3.AllAbsent | main3.py:212-213 | there is no clause exactly when no filter is present; then the query is the base text and the dictionary is empty |
| CatalogV3.SpecKeys | main3.py:215-259 | every test key starts with a letter, and no two tests share a key |
| CatalogV3.OnlyTestBinds | main3.py:215-259 | a test's key is bound by no other filter |
| CatalogV3.TestParam | main3.py:215-259 | a test's key is in the dictionary iff the filter is present, and then holds the cleaned text (wrapped in `%` for LIKE) or the number as given |
| CatalogV3.ZeroNumbersAddClauses | main3.py:227-229 | a rating and a budget of 0.0 still add their clauses and bind 0.0 |
| CatalogV3.EmptyVersusBlank | main3.py:215-220 | `""` adds no clause and no key; `"  "` adds its clause and binds `""` |
| CatalogV3.VibesParam | main3.py:236-244 | vibes token i is bound, wrapped in `%`, under `str(i)` whenever food does not bind that numeral |
| CatalogV3.FoodParam | main3.py:245-253 | food token j is always bound, wrapped in `%`, under `str(100 + j)` |
| CatalogV3.GroupsDisjoint | main3.py:236-253 | with at most 100 vibes tokens, every vibes token keeps its own parameter |
| CatalogV3.GroupsCollide | main3.py:243-253 | beyond 100 vibes tokens, food's first token overwrites parameter `"100"` and vibes token 100 is lost |
| CatalogV3.PlaceholdersBound | main3.py:212-261 | every placeholder the driver reads from the query text is a key of the dictionary |
| CatalogV3.QueryIgnoresValues | main3.py:212-259 | requests with the same present filters and token counts get the same query text whatever the values, so no input text is spliced in |
| CatalogV3.BindTokens | main3.py:243-244 | the enumerate loop leaves the dictionary with every token bound under its offset index, in order |
| CatalogV3.WhereCity | main3.py:215-217 | the city block extends the text and dictionary by clause 1 of the plan |
| CatalogV3.WhereCountry | main3.py:218-220 | the country block extends the text and dictionary by clause 2 of the plan |
| CatalogV3.WhereBestSeason | main3.py:221-223 | the best_season block extends the text and dictionary by clause 3 of the plan |
| CatalogV3.WhereTransport | main3.py:224-226 | the transport block extends the text and dictionary by clause 4 of the plan |
| CatalogV3.WhereRating | main3.py:227-229 | the rating block extends the text and dictionary by clause 5 of the plan |
| CatalogV3.WhereActivities | main3.py:230-232 | the activities block extends the text and dictionary by clause 6 of the plan |
| CatalogV3.WhereAccessibility | main3.py:233-235 | the accessibility block extends the text and dictionary by clause 7 of the plan |
| CatalogV3.WhereVibes | main3.py:236-244 | the vibes block (split, OR-join, enumerate) extends the text and dictionary by clause 8 of the plan |
| CatalogV3.WhereFood | main3.py:245-253 | the food block extends the text and dictionary by clause 9 of the plan |
| CatalogV3.WhereBudget | main3.py:254-256 | the budget block extends the text and dictionary by clause 10 of the plan |
| CatalogV3.WherePoi | main3.py:257-259 | the poi block extends the text and dictionary by clause 11 of the plan |
| CatalogV3.ListCatalogsQuery | main3.py:212-259 | the query and dictionary built are those of the clause plan of the request |
| CatalogV3.SanitizeValue | main3.py:321-323 | a string value becomes a lower-case string with no surrounding blanks, equal to stripping first and lower-casing second; any other value stays as it is |
| CatalogV3.SanitizeUpdates | main3.py:321-323 | the in-place loop over the update's items yields the sanitised update |
| CatalogV3.SanitizedValues | main3.py:321-323 | sanitising keeps the keys and their order, cleans each string, keeps every other value, and is idempotent |
| CatalogV3.UpdateCatalogQuery | main3.py:315-328 | the statement is the UPDATE of the sanitised values keyed by the cleaned path poi, or 400 when the update is empty |
| CatalogV3.UpdateShape | main3.py:315-328 | an update is rejected with 400 exactly when empty; otherwise it has one `key = %s` per key in order, as many markers as values, the sanitised values, and the cleaned poi last |
| CatalogV3.UpdateFindsCreated | main3.py:326 | the key an update binds equals the stored poi of a create whose poi cleans the same way |
| RowNormalizer.SortedItems | main3.py:117 | the items of a list or set cell, ascending and with the same elements |
| RowNormalizer.NormalizedRow | main3.py:113-118 | the keys are kept; list and set cells of vibes, activities and food become their sorted items joined by `", "`; every other cell is unchanged |
| RowNormalizer.NormalizeStep | main3.py:115-117 | visiting field i extends the first i normalised fields to the first i + 1 |
| RowNormalizer.SetItems | main3.py:117 | gathers a set's elements, each once |
| RowNormalizer.JoinSorted | main3.py:117 | `", ".join(sorted(value))` for a list or set cell |
| RowNormalizer.NormalizeCatalogRow | main3.py:113-118 | the in-place loop yields the normalised row |
| RowNormalizer.NormalizeIdempotent | main3.py:113-118 | normalising twice is normalising once |
| RowNormalizer.ListOrderIrrelevant | main3.py:117 | a list's text depends only on its items, not on their order |
| RowNormalizer.SetAsList | main3.py:117 | a set and any list of its elements give the same text |
| RowNormalizer.NormalizeExample | main3.py:115-117 | a vibes list `["b", "a"]` becomes the text `"a, b"` |
| PoiCatalog.CreateValuesStored | main3.py:142-162 | columns for latitude, longitude, rating, budget, trip_days and direction hold their field as given; every other column holds the field lower-cased and stripped, which a second clean leaves unchanged |
| PoiCatalog.CreateMarksMatchValues | main2.py:120-128 | the INSERT has 19 `%s` markers, one per value of the tuple |
| PoiCatalog.StoredKey | main3.py:143 | the first column is poi, stored as the cleaned payload poi |
| PoiCatalog.ColumnList | main3.py:131-140 | the INSERT's column list is poi, city, country, currency, latitude, longitude, rating, description, spending, budget, vibes, activities, food, best_season, trip_days, nearest_airport, transport, accessibility, direction |
| PoiCatalog.ReadBackFindsInserted | main3.py:167-170 | the read-back `SELECT … WHERE poi = %s` (also main2.py:133) has one marker and one value, the poi cleaned anew, which is what the INSERT stored in its first column |
| CatalogV2.PresenceRules | main2.py:181-213 | every filter counts only when truthy: `""` and a rating of 0.0 add nothing |
| CatalogV2.ClauseOrder | main2.py:181-213 | the present filters add clauses, each at most once, in the order city, country, best_season, transport, rating, activities, accessibility, food, vibes, budget, poi |
| CatalogV2.FilterClause | main2.py:181-213 | filter k has a clause exactly when it is present |
| CatalogV2.AllAbsent | main2.py:177-178 | no clause exactly when no filter is present; then the base query and an empty dictionary |
| CatalogV2.SpecKeys | main2.py:181-213 | every filter is a single test, and no two share a key |
| CatalogV2.TestParam | main2.py:181-213 | a filter's key is bound iff the filter is present, to the raw value (wrapped in `%` for LIKE) |
| CatalogV2.ZeroRatingSkipped | main2.py:193-195 | a rating of 0.0 adds no clause and binds nothing |
| CatalogV2.VibesWhole | main2.py:205-207 | a vibes value is not split: one LIKE on the whole raw text between two `%` |
| CatalogV2.PlaceholdersBound | main2.py:177-213 | with the rating keyed by its placeholder, every placeholder of the text is a key of the dictionary |
| CatalogV2.QueryIgnoresValues | main2.py:177-213 | the same present filters give the same query text, whatever the values |
| CatalogV2.NoTokenLists | main2.py:181-213 | no filter in this revision is split into tokens |
| CatalogV2.RatingPlaceholderUnbound | main2.py:193-195 | when the rating is truthy, the as-written text asks for `rating_avg`, which the dictionary lacks |
| CatalogV2.WhereCity | main2.py:181-183 | the city block extends the text and dictionary by clause 1 of any candidate list that agrees there with the request's plan |
| CatalogV2.WhereCountry | main2.py:184-186 | the country block extends the text and dictionary by clause 2 of any candidate list that agrees there with the request's plan |
| CatalogV2.WhereBestSeason | main2.py:187-189 | the best_season block extends the text and dictionary by clause 3 of any candidate list that agrees there with the request's plan |
| CatalogV2.WhereTransport | main2.py:190-192 | the transport block extends the text and dictionary by clause 4 of any candidate list that agrees there with the request's plan |
| CatalogV2.WhereRating | main2.py:193-195 | the rating block, keyed as corrected, extends the text and dictionary by clause 5 of any candidate list that agrees there with the request's plan |
| CatalogV2.WhereActivities | main2.py:196-198 | the activities block extends the text and dictionary by clause 6 of any candidate list that agrees there with the request's plan |
| CatalogV2.WhereAccessibility | main2.py:199-201 | the accessibility block extends the text and dictionary by clause 7 of any candidate list that agrees there with the request's plan |
| CatalogV2.WhereFood | main2.py:202-204 | the food block extends the text and dictionary by clause 8 of any candidate list that agrees there with the request's plan |
| CatalogV2.WhereVibes | main2.py:205-207 | the vibes block extends the text and dictionary by clause 9 of any candidate list that agrees there with the request's plan |
| CatalogV2.WhereBudget | main2.py:208-210 | the budget block extends the text and dictionary by clause 10 of any candidate list that agrees there with the request's plan |
| CatalogV2.WherePoi | main2.py:211-213 | the poi block extends the text and dictionary by clause 11 of any candidate list that agrees there with the request's plan |
| CatalogV2.ListCatalogsQuery | main2.py:177-213 | the query and dictionary built are those of the clause plan of the request |
| CatalogV2.WhereRatingAsWritten | main2.py:193-195 | the rating block as written (clause naming `rating_avg`, value stored under `rating`) extends the text and dictionary by clause 5 of the as-written plan |
| CatalogV2.ListCatalogsQueryAsWritten | main2.py:177-213 | the eleven blocks as written build exactly the text and dictionary of the as-written plan, which `RatingPlaceholderUnbound` shows leave `rating_avg` unbound |
| CatalogV2.UpdateCatalogQuery | main2.py:329-336 | the statement is the UPDATE of the raw values keyed by the raw path poi, or 400 when the update is empty |
| CatalogV2.UpdateShape | main2.py:329-336 | rejected with 400 exactly when empty; otherwise one `key = %s` per key in order, as many markers as values, the values unchanged and the raw poi last |
| CatalogV2.UpdateKeyAsGiven | main2.py:334 | a path poi with an upper-case letter is bound as is, so it never equals the stored, cleaned poi of any create |
| CatalogV1.PresenceRules | main.py:258-287 | every filter counts only when truthy, so lat, lon and rating_avg of 0.0 count as absent |
| CatalogV1.ClauseOrder | main.py:258-287 | the present filters add clauses, each at most once, in the order name, country, currency, lat, lon, rating_avg, description, vibe, budget, poi |
| CatalogV1.FilterClause | main.py:258-287 | filter k has a clause exactly when it is present |
| CatalogV1.AllAbsent | main.py:254-255 | no clause exactly when no filter is present; then the base query and an empty dictionary |
| CatalogV1.SpecKeys | main.py:258-287 | every filter is a single test, and no two share a key |
| CatalogV1.TestParam | main.py:258-287 | a filter's key is bound iff the filter is present, to the raw value (wrapped in `%` for description) |
| CatalogV1.ZeroCoordinatesSkipped | main.py:267-272 | latitude and longitude 0.0 add no clause and bind nothing |
| CatalogV1.DescriptionPattern | main.py:276-278 | the description is bound as `%` + value + `%` |
| CatalogV1.PlaceholdersBound | main.py:254-287 | every placeholder of the text is a key of the dictionary |
| CatalogV1.QueryIgnoresValues | main.py:254-287 | the same present filters give the same query text, whatever the values |
| CatalogV1.NoTokenLists | main.py:258-287 | no filter in this revision is split into tokens |
| CatalogV1.WhereName | main.py:258-260 | the name block extends the text and dictionary by clause 1 of the plan |
| CatalogV1.WhereCountry | main.py:261-263 | the country block extends the text and dictionary by clause 2 of the plan |
| CatalogV1.WhereCurrency | main.py:264-266 | the currency block extends the text and dictionary by clause 3 of the plan |
| CatalogV1.WhereLat | main.py:267-269 | the lat block extends the text and dictionary by clause 4 of the plan |
| CatalogV1.WhereLon | main.py:270-272 | the lon block extends the text and dictionary by clause 5 of the plan |
| CatalogV1.WhereRatingAvg | main.py:273-275 | the rating_avg block extends the text and dictionary by clause 6 of the plan |
| CatalogV1.WhereDescription | main.py:276-278 | the description block extends the text and dictionary by clause 7 of the plan |
| CatalogV1.WhereVibe | main.py:279-281 | the vibe block extends the text and dictionary by clause 8 of the plan |
| CatalogV1.WhereBudget | main.py:282-284 | the budget block extends the text and dictionary by clause 9 of the plan |
| CatalogV1.WherePoi | main.py:285-287 | the poi block extends the text and dictionary by clause 10 of the plan |
| CatalogV1.ListCatalogsQuery | main.py:254-287 | the query and dictionary built are those of the clause plan of the request |
| CatalogV1.CreateMarksMatchValues | main.py:126-143 | the INSERT has 11 `%s` markers, one per value |
| CatalogV1.ColumnList | main.py:126-130 | the INSERT's column list is id, name, country, currency, lat, lon, rating_avg, description, vibe, budget, poi |
| CatalogV1.CreateValuesTuple | main.py:131-143 | the value tuple is the eleven payload fields, unchanged, in the order of the column list |
| CatalogV1.ReadBackFindsInserted | main.py:148 | the read-back `SELECT … WHERE id = %s` has one marker and one value, the id the INSERT stored in its first column |
| CatalogV1.UpdateCatalogQuery | main.py:374-381 | the statement is the UPDATE of the raw values keyed by `id = %s` and the numeric id, or the 400 the handler raises when the update is empty |
| CatalogV1.UpdateShape | main.py:374-381 | the handler raises 400 exactly when the update is empty; otherwise one `key = %s` per key in order, as many markers as values, the values unchanged and the id last |
| CatalogV1.UpdateAnswerAsWritten | main.py:370-399 | what the caller receives: the statement for a non-empty update, and a 500 exactly when the update is empty, because the catch-all replaces the handler's 400 |
| CatalogV1.EmptyUpdateSwallowed | main.py:375-376 | for an empty update the handler raises 400 while the caller receives 500 |
| Sql.UpdateStatement | main.py:375-381 | fails with 400 exactly when the update is empty; otherwise the values are the update's values in order, then the key |
| Sql.SelectByKeyMarks | main.py:148 | a `SELECT * FROM catalog WHERE col = %s` by one key has exactly one marker and binds exactly that key |
| Sql.UpdateMarksMatchValues | main.py:378-381 | the UPDATE text has exactly as many `%s` markers as values |
| Sql.SetClauseSplits | main.py:378 | splitting the SET clause at `", "` gives one `key = %s` per key, in order |
| Sql.InsertMarks | main.py:126-130 | an INSERT over n plain column names has n markers |
| Sql.EmptyPlan | main3.py:212-213 | no clause gives the base query and an empty dictionary |
| Sql.Extend | main3.py:216-217 | adding a clause appends its text and applies its bindings |
| Sql.PlaceholdersOfRender | main3.py:261 | reading placeholders out of rendered text gives exactly the placeholder fragments, in order |
| Sql.PlanBound | main3.py:261 | when each clause binds the names it uses, every placeholder of the whole text is a dictionary key |
| Sql.ParamFromCandidate | main3.py:243-253 | a parameter holds what the last clause binding its key put there |
| Sql.OrLikeRender | main3.py:239-241 | an OR-group's text is `col LIKE %(n)s` for each name, joined by `" OR "` |
| Sql.GroupParam | main3.py:243-244 | within one group, each token is bound under its own numeral |
| FilterTable.TableOrder | main3.py:215-259 | for any table, the clauses that appear are the present filters, in table order, without repeats |
| FilterTable.TableEmpty | main3.py:212-213 | for any table, there is no clause exactly when no input is present |
| FilterTable.TableBound | main3.py:212-261 | for any sound table, every placeholder is bound |
| FilterTable.TableShape | main3.py:212-259 | for any table, inputs of the same shape give the same text |
| FilterTable.TestStep | main3.py:215-217 | a single test's `if` block advances the built text and dictionary by one candidate |
| FilterTable.GroupStep | main3.py:236-244 | an OR-group's `if` block advances the built text and dictionary by one candidate |
| FilterTable.TablePlaceholderAt | main2.py:193-194 | a present test's placeholder name occurs in the text |
| FilterTable.TableKeyAbsent | main2.py:195 | a key that no spec binds is not in the dictionary |
| PyText.CleanIdempotent | main3.py:217 | `s.lower().strip()` is lower-case, stripped, and fixed by a second clean |
| PyText.StripSpec | main3.py:237 | strip removes exactly the leading and trailing whitespace |
| PyText.StripEmptyIffAllSpace | main3.py:237 | `v.strip()` is falsy exactly when v is all whitespace |
| PyText.LowerStripCommute | main3.py:237 | `strip().lower()` equals `lower().strip()` |
| PyText.SplitJoin | main3.py:237 | splitting a comma join of comma-free items gives the items back |
| PyText.SortSpec | main3.py:117 | `sorted` returns an ascending permutation |
| PyText.SortedUnique | main3.py:117 | the result of `sorted` depends only on the multiset of its input |
| PyText.NatToStringInjective | main3.py:244 | distinct indices have distinct numerals |

## Left out

- Everything outside the texts and values falls outside this model:
  - connections, cursors, commit, `fetchone` and `fetchall`;
  - the 404 on an empty result or on `rowcount == 0`;
  - the error mapping to 400 and 500 (MySQL error 1062);
  - conversion into `CatalogRead`.
  These are driver and HTTP I/O.
- Several endpoints and modules are not modelled:
  - the health, get, delete and root endpoints, and `fetch_places`;
  - `verify_jwt`, `secure_catalog_ping` and the event publishing of the newest revision;
  - `models/catalog.py`. Pydantic validation is an unseen library, so payload fields are plain values (`Value`) with the types the handlers rely on.
- Floats are modelled as exact reals. NaN and rounding are not modelled.
- `lower` and `strip` are modelled on ASCII only. Python's Unicode case mapping and Unicode whitespace are not.
- The INSERT text is modelled on one line, with the same column list and markers. The source's triple-quoted literal adds newlines and indentation, which the driver ignores. The markers are separated by `","` in the later revisions and by `", "` in `main.py`.
- The old in-memory handlers inside string literals of `main.py` and `main2.py` are not live code and are not modelled.
- Dictionaries are modelled as values. Updates are a sequence of key-value pairs in `model_dump` order, the row is a `map`, and the in-place writes become returned values. Aliasing of the caller's dictionary is not modelled.
- `exclude_unset` is not modelled: the update is the dictionary it produced.
- Update keys are assumed free of `%` and `,`. They are the field names of the update model.
- List and set cells of the row normaliser hold strings only. Cells holding other element types are not modelled.
- CatalogV1.UpdateCatalogQuery: returns the 400 the handler raises for an empty update. As written, the `except Exception` clause at main.py:397-399 turns it into a 500, which `CatalogV1.UpdateAnswerAsWritten` models. The 404 for `rowcount == 0` is swallowed the same way, but rowcount is driver I/O and is not modelled.
- CatalogV2.ListCatalogsQuery: builds the corrected dictionary, with the rating under `rating_avg`. `CatalogV2.ListCatalogsQueryAsWritten` builds the source's dictionary, with the rating under `rating`.
- CatalogV2.WhereRating: binds the rating under `rating_avg`, the key its placeholder names, not under `rating` as the source does. `CatalogV2.PlanAsWritten` keeps the source's key, and the Findings below describe the difference.
- PoiCatalog.CreateValues: the value tuple is defined column by column, not as the literal 19-entry tuple. `PoiCatalog.ColumnList` proves the column list as the source spells it, and `PoiCatalog.CreateValuesStored` proves what each column holds. No lemma equates the tuple with a literal 19-entry display, because that comparison exceeds the verifier's resource limit.

## Findings

| source | as written | input that shows it | evidently intended | confidence | as-written member | corrected member |
|---|---|---|---|---|---|---|
| main2.py:193-195 | the rating clause uses the placeholder `%(rating_avg)s` but stores the value under `params["rating"]` | `rating_avg = 4.5`: the text asks for `rating_avg` and the dictionary holds only `rating`, so the driver cannot fill the placeholder | bind the value under `rating_avg`, as the newest revision does at main3.py:227-229 | not executed; follows from the text of the two lines | CatalogV2.RatingPlaceholderUnbound | CatalogV2.PlaceholdersBound |
| main.py:370-399 | the 400 for an empty update is raised inside the `try` block, and the `except Exception` clause at 397-399 re-raises every exception other than a MySQL error as a 500 "Internal server error" | `PATCH /catalogs/1` with the body `{}`: the handler raises 400, and the caller receives 500 | let the 400 reach the caller, as main2.py:329-352 does (it catches only MySQL errors) | not executed; follows from the text of the handler | CatalogV1.UpdateAnswerAsWritten | CatalogV1.UpdateCatalogQuery |
