/*
 * POST /catalogs of the two later revisions (main2.py and main3.py build the
 * same statement): an INSERT over nineteen columns and the value tuple in
 * column order, every text field lower-cased and stripped except direction.
 */
module PoiCatalog {
  import opened PyText
  import opened Sql

  /** The create payload. Text fields are strings; the numbers, trip_days and
    * direction are passed through, so they are kept as opaque values. */
  datatype PoiCreate = PoiCreate(
    poi: string, city: string, country: string, currency: string,
    latitude: Value, longitude: Value, rating: Value,
    description: string, spending: string, budget: Value,
    vibes: string, activities: string, food: string, best_season: string,
    trip_days: Value, nearest_airport: string, transport: string,
    accessibility: string, direction: Value)

  datatype Column =
    | Poi | City | Country | Currency | Latitude | Longitude | Rating
    | Description | Spending | Budget | Vibes | Activities | Food | BestSeason
    | TripDays | NearestAirport | Transport | Accessibility | Direction

  function ColumnName(c: Column): string {
    match c
    case Poi => "poi" case City => "city" case Country => "country"
    case Currency => "currency" case Latitude => "latitude" case Longitude => "longitude"
    case Rating => "rating" case Description => "description" case Spending => "spending"
    case Budget => "budget" case Vibes => "vibes" case Activities => "activities"
    case Food => "food" case BestSeason => "best_season" case TripDays => "trip_days"
    case NearestAirport => "nearest_airport" case Transport => "transport"
    case Accessibility => "accessibility" case Direction => "direction"
  }

  /** The column list of the INSERT, in order. */
  const Columns: seq<Column> := [
    Poi, City, Country, Currency, Latitude, Longitude, Rating, Description, Spending, Budget,
    Vibes, Activities, Food, BestSeason, TripDays, NearestAirport, Transport, Accessibility, Direction]

  function ColumnNames(cols: seq<Column>): (r: seq<string>)
    ensures |r| == |cols|
  {
    seq(|cols|, i requires 0 <= i < |cols| => ColumnName(cols[i]))
  }

  /** The payload field a column is filled from, before any cleaning. */
  function Field(p: PoiCreate, c: Column): Value {
    match c
    case Poi => Str(p.poi) case City => Str(p.city) case Country => Str(p.country)
    case Currency => Str(p.currency) case Latitude => p.latitude case Longitude => p.longitude
    case Rating => p.rating case Description => Str(p.description) case Spending => Str(p.spending)
    case Budget => p.budget case Vibes => Str(p.vibes) case Activities => Str(p.activities)
    case Food => Str(p.food) case BestSeason => Str(p.best_season) case TripDays => p.trip_days
    case NearestAirport => Str(p.nearest_airport) case Transport => Str(p.transport)
    case Accessibility => Str(p.accessibility) case Direction => p.direction
  }

  /** The columns whose field goes in unchanged. */
  predicate Raw(c: Column) {
    c.Latitude? || c.Longitude? || c.Rating? || c.Budget? || c.TripDays? || c.Direction?
  }

  /** Every column that is not raw is filled from a text field. */
  lemma TextField(p: PoiCreate, c: Column)
    ensures !Raw(c) ==> Field(p, c).Str?
  {
  }

  /** The field of column c as the tuple stores it: unchanged for the
    * numbers, trip_days and direction, lower-cased and stripped otherwise. */
  function StoredValue(p: PoiCreate, c: Column): Value {
    if Raw(c) then Field(p, c) else Str(Clean(Field(p, c).s))
  }

  /** The value tuple: one entry per column, in the order of the column
    * list, each the stored form of that column's field. */
  function CreateValues(p: PoiCreate): (r: seq<Value>)
    ensures |r| == |Columns|
  {
    seq(|Columns|, i requires 0 <= i < |Columns| => StoredValue(p, Columns[i]))
  }

  /** The INSERT text: the column list and one "%s" per column, separated by
    * commas. */
  function CreateQuery(): string {
    InsertQuery(ColumnNames(Columns), ",")
  }

  /** A raw column stores its field as given; every other column stores a
    * lower-case string with no surrounding blanks, which cleaning again
    * leaves as it is. */
  lemma CreateValuesStored(p: PoiCreate)
    ensures forall i :: 0 <= i < |Columns| && Raw(Columns[i]) ==> CreateValues(p)[i] == Field(p, Columns[i])
    ensures forall i :: 0 <= i < |Columns| && !Raw(Columns[i]) ==>
      Field(p, Columns[i]).Str? && CreateValues(p)[i] == Str(Clean(Field(p, Columns[i]).s)) &&
      IsLower(CreateValues(p)[i].s) && Strip(CreateValues(p)[i].s) == CreateValues(p)[i].s
  {
    forall i | 0 <= i < |Columns| && !Raw(Columns[i])
      ensures Field(p, Columns[i]).Str? && IsLower(Clean(Field(p, Columns[i]).s))
      ensures Strip(Clean(Field(p, Columns[i]).s)) == Clean(Field(p, Columns[i]).s)
    {
      TextField(p, Columns[i]);
      CleanIdempotent(Field(p, Columns[i]).s);
    }
  }

  lemma ColumnNamePlain(c: Column)
    ensures '%' !in ColumnName(c)
  {
    match c
    case Poi => case City => case Country => case Currency => case Latitude => case Longitude =>
    case Rating => case Description => case Spending => case Budget => case Vibes =>
    case Activities => case Food => case BestSeason => case TripDays => case NearestAirport =>
    case Transport => case Accessibility => case Direction =>
  }

  /** Nineteen columns, nineteen markers, nineteen values. */
  lemma CreateMarksMatchValues(p: PoiCreate)
    ensures CountMarks(CreateQuery()) == |CreateValues(p)| == 19
  {
    var names := ColumnNames(Columns);
    forall i | 0 <= i < |names| ensures '%' !in names[i] {
      ColumnNamePlain(Columns[i]);
    }
    InsertMarks(names, ",");
  }

  /** The INSERT's column list, as the source spells it. */
  lemma ColumnList()
    ensures ColumnNames(Columns) == ["poi", "city", "country", "currency", "latitude", "longitude", "rating",
      "description", "spending", "budget", "vibes", "activities", "food", "best_season", "trip_days",
      "nearest_airport", "transport", "accessibility", "direction"]
  {
  }

  /** The read-back after the INSERT: the row selected by the payload poi,
    * lower-cased and stripped anew. */
  function ReadBackQuery(p: PoiCreate): Statement {
    SelectByKey("poi", Str(Clean(p.poi)))
  }

  /** The read-back has one marker and one value, and that value is what
    * the INSERT stored in its first column, poi. */
  lemma ReadBackFindsInserted(p: PoiCreate)
    ensures CountMarks(ReadBackQuery(p).query) == |ReadBackQuery(p).values| == 1
    ensures ReadBackQuery(p).values[0] == CreateValues(p)[0] && ColumnName(Columns[0]) == "poi"
  {
    SelectByKeyMarks("poi", Str(Clean(p.poi)));
  }

  /** The row is read back under the poi it was stored with. */
  lemma StoredKey(p: PoiCreate)
    ensures CreateValues(p)[0] == Str(Clean(p.poi)) && Columns[0] == Poi
  {
  }
}
