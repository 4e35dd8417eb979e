/*
 * normalize_catalog_row of the newest revision (main3.py): a database row
 * may hold a SET column as a Python set or a list of strings; before the row
 * goes out, the vibes, activities and food cells of that kind become the
 * sorted items joined with ", ". Every other cell is left as it is.
 */
module RowNormalizer {
  import opened PyText
  import opened Sql

  /** A cell of a fetched row: a scalar, a list of strings or a set of strings. */
  datatype Cell = Scalar(v: Value) | ListCell(items: seq<string>) | SetCell(elems: set<string>)

  /** The fields the normaliser looks at, in the order it visits them. */
  const ListFields: seq<string> := ["vibes", "activities", "food"]

  predicate Collection(c: Cell) {
    c.ListCell? || c.SetCell?
  }

  /** Some listing of a set's elements, each once. */
  ghost function Listing(s: set<string>): (r: seq<string>)
    ensures multiset(r) == multiset(s)
    decreases |s|
  {
    if s == {} then []
    else
      var x :| x in s;
      var rest := Listing(s - {x});
      assert multiset(s) == multiset(s - {x}) + multiset{x} by {
        assert s == (s - {x}) + {x};
      }
      [x] + rest
  }

  /** The elements of a list or set cell in ascending order, as sorted()
    * returns them. */
  ghost function SortedItems(c: Cell): (r: seq<string>)
    requires Collection(c)
    ensures IsSorted(r)
    ensures c.ListCell? ==> multiset(r) == multiset(c.items)
    ensures c.SetCell? ==> multiset(r) == multiset(c.elems)
  {
    SortSpec(if c.ListCell? then c.items else Listing(c.elems));
    if c.ListCell? then Sort(c.items) else Sort(Listing(c.elems))
  }

  /** What the normaliser makes of one cell under a field it looks at. */
  ghost function NormalCell(c: Cell): Cell {
    if Collection(c) then Scalar(Str(Join(", ", SortedItems(c)))) else c
  }

  /** The row after normalisation: the same keys, the three list fields
    * normalised, every other cell unchanged. */
  ghost function NormalizedRow(row: map<string, Cell>): (r: map<string, Cell>)
    ensures r.Keys == row.Keys
    ensures forall k :: k in row && k !in ListFields ==> r[k] == row[k]
    ensures forall k :: k in row && k in ListFields && !Collection(row[k]) ==> r[k] == row[k]
    ensures forall k :: k in row && k in ListFields && Collection(row[k]) ==> r[k] == Scalar(Str(Join(", ", SortedItems(row[k]))))
  {
    map k | k in row :: if k in ListFields then NormalCell(row[k]) else row[k]
  }

  /** The fields among the first n of the visiting order already done. */
  ghost function PartlyNormalized(row: map<string, Cell>, n: nat): map<string, Cell>
    requires n <= |ListFields|
  {
    map k | k in row :: if k in ListFields[..n] then NormalCell(row[k]) else row[k]
  }

  /** Visiting field i turns the first i fields done into the first i + 1. */
  lemma NormalizeStep(row: map<string, Cell>, i: nat, r: map<string, Cell>)
    requires i < |ListFields| && r == PartlyNormalized(row, i)
    ensures ListFields[i] in r && Collection(r[ListFields[i]]) ==>
      r[ListFields[i] := NormalCell(r[ListFields[i]])] == PartlyNormalized(row, i + 1)
    ensures !(ListFields[i] in r && Collection(r[ListFields[i]])) ==> r == PartlyNormalized(row, i + 1)
  {
    var field := ListFields[i];
    assert ListFields[..i + 1] == ListFields[..i] + [field];
    assert field !in ListFields[..i];
    forall k | k in row ensures (k in ListFields[..i + 1]) == (k in ListFields[..i] || k == field) { }
  }

  /** The elements of a set, gathered one at a time. */
  method SetItems(s: set<string>) returns (xs: seq<string>)
    ensures multiset(xs) == multiset(s)
  {
    xs := [];
    var rest := s;
    while rest != {}
      invariant rest <= s
      invariant multiset(xs) + multiset(rest) == multiset(s)
      decreases |rest|
    {
      var x :| x in rest;
      assert multiset(rest) == multiset(rest - {x}) + multiset{x} by {
        assert rest == (rest - {x}) + {x};
      }
      xs := xs + [x];
      rest := rest - {x};
    }
  }

  /** ", ".join(sorted(value)) for a list or set cell. */
  method JoinSorted(c: Cell) returns (text: string)
    requires Collection(c)
    ensures text == Join(", ", SortedItems(c))
  {
    var items: seq<string>;
    if c.ListCell? {
      items := c.items;
    } else {
      items := SetItems(c.elems);
    }
    SortSpec(items);
    SortedUnique(Sort(items), SortedItems(c));
    text := Join(", ", Sort(items));
  }

  /** The loop over vibes, activities and food, overwriting each list or set
    * cell with its joined, sorted text. */
  method NormalizeCatalogRow(row: map<string, Cell>) returns (r: map<string, Cell>)
    ensures r == NormalizedRow(row)
  {
    r := row;
    var i := 0;
    assert ListFields[..0] == [];
    while i < |ListFields|
      invariant 0 <= i <= |ListFields|
      invariant r == PartlyNormalized(row, i)
    {
      var field := ListFields[i];
      NormalizeStep(row, i, r);
      if field in r && Collection(r[field]) {
        var text := JoinSorted(r[field]);
        r := r[field := Scalar(Str(text))];
      }
      i := i + 1;
    }
    assert ListFields[..|ListFields|] == ListFields;
  }

  // ----- Properties --------------------------------------------------------

  /** Normalising twice is normalising once: a normalised list field holds a
    * string, which the normaliser leaves alone. */
  lemma NormalizeIdempotent(row: map<string, Cell>)
    ensures NormalizedRow(NormalizedRow(row)) == NormalizedRow(row)
  {
  }

  /** The text depends only on the items, not on the order the list holds
    * them in. */
  lemma ListOrderIrrelevant(a: seq<string>, b: seq<string>)
    requires multiset(a) == multiset(b)
    ensures NormalCell(ListCell(a)) == NormalCell(ListCell(b))
  {
    SortedUnique(SortedItems(ListCell(a)), SortedItems(ListCell(b)));
  }

  /** A set and any list of its elements, each once, give the same text. */
  lemma SetAsList(s: set<string>, xs: seq<string>)
    requires multiset(xs) == multiset(s)
    ensures NormalCell(SetCell(s)) == NormalCell(ListCell(xs))
  {
    SortedUnique(SortedItems(SetCell(s)), SortedItems(ListCell(xs)));
  }

  /** sorted(["b", "a"]) is ["a", "b"]. */
  lemma ExampleSorted(xs: seq<string>)
    requires xs == ["b", "a"]
    ensures Sort(xs) == ["a", "b"]
  {
    assert Below("a", "b") && !Below("b", "a");
    assert xs[1..] == ["a"] && xs[1..][1..] == [];
    assert Sort(xs[1..]) == ["a"];
    assert Insert("b", []) == ["b"];
    assert Insert("b", ["a"]) == ["a"] + ["b"];
  }

  /** A vibes list ["b", "a"] comes out as the text "a, b". */
  lemma NormalizeExample(row: map<string, Cell>, xs: seq<string>)
    requires xs == ["b", "a"] && "vibes" in row && row["vibes"] == ListCell(xs)
    ensures NormalizedRow(row)["vibes"] == Scalar(Str("a, b"))
  {
    ExampleSorted(xs);
    var sorted := ["a", "b"];
    assert sorted[1..] == ["b"];
    assert Join(", ", sorted) == "a" + ", " + "b" == "a, b";
    assert "vibes" in ListFields;
    assert SortedItems(row["vibes"]) == sorted;
  }
}
