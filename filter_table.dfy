/*
 * The list endpoints of all three revisions test a fixed sequence of
 * filters, each either a single test on one placeholder or an OR-group of
 * LIKE tests over a token list. A revision is a table of filter specs plus
 * a way of turning its request inputs into one Input per spec; everything
 * about the shape of the query follows from the table alone.
 */
module FilterTable {
  import opened PyText
  import opened Sql

  /** How one filter adds its clause. */
  datatype Spec =
    | TestSpec(filter: string, prefix: string, name: string, key: string)
    | GroupSpec(col: string, base: nat)

  /** A test whose placeholder name is also its dictionary key. */
  function Named(filter: string, prefix: string, name: string): Spec {
    TestSpec(filter, prefix, name, name)
  }

  /** The text a test appends: its fixed prefix and its placeholder. */
  function TestText(s: Spec): string
    requires s.TestSpec?
  {
    s.prefix + "%(" + s.name + ")s"
  }

  /** A filter's input once the revision has made its presence check and
    * cleaned the value: nothing, one value to bind, or a token list. */
  datatype Input = Absent | One(value: Value) | Many(toks: seq<string>)

  function FilterName(s: Spec): string {
    if s.TestSpec? then s.filter else s.col
  }

  /** Whether the filter adds a clause for this input. */
  predicate Present(s: Spec, x: Input) {
    if s.TestSpec? then x.One? else x.Many? && x.toks != []
  }

  /** The clause a spec adds for an input, if any. */
  function Cand(s: Spec, x: Input): Option<Clause> {
    if s.TestSpec? then (if x.One? then Some(Test(s.filter, s.prefix, s.name, s.key, x.value)) else None)
    else if x.Many? && x.toks != [] then Some(Group(s.col, s.col, x.toks, s.base))
    else None
  }

  function Cands(specs: seq<Spec>, xs: seq<Input>): (r: seq<Option<Clause>>)
    requires |specs| == |xs|
    ensures |r| == |specs|
  {
    seq(|specs|, k requires 0 <= k < |specs| => Cand(specs[k], xs[k]))
  }

  lemma CandsAt(specs: seq<Spec>, xs: seq<Input>)
    requires |specs| == |xs|
    ensures forall k :: 0 <= k < |specs| ==> Cands(specs, xs)[k] == Cand(specs[k], xs[k])
  {
  }

  function FilterNames(specs: seq<Spec>): (r: seq<string>)
    ensures |r| == |specs|
  {
    seq(|specs|, k requires 0 <= k < |specs| => FilterName(specs[k]))
  }

  function Flags(specs: seq<Spec>, xs: seq<Input>): (r: seq<bool>)
    requires |specs| == |xs|
    ensures |r| == |specs|
  {
    seq(|specs|, k requires 0 <= k < |specs| => Present(specs[k], xs[k]))
  }

  /** The clauses a table adds for the inputs, in table order. */
  function TablePlan(specs: seq<Spec>, xs: seq<Input>): seq<Clause>
    requires |specs| == |xs|
  {
    Somes(Cands(specs, xs))
  }

  // ----- Clause order -----------------------------------------------------------

  lemma CandsAligned(specs: seq<Spec>, xs: seq<Input>)
    requires |specs| == |xs|
    ensures Aligned(Cands(specs, xs), FilterNames(specs), Flags(specs, xs))
  {
  }

  /** The filters that appear are those present, each at most once, in table
    * order. */
  lemma TableOrder(specs: seq<Spec>, xs: seq<Input>)
    requires |specs| == |xs|
    ensures FiltersOf(TablePlan(specs, xs)) == Select(FilterNames(specs), Flags(specs, xs))
    ensures NoDup(FilterNames(specs)) ==> NoDup(FiltersOf(TablePlan(specs, xs)))
  {
    CandsAligned(specs, xs);
    SomesFilters(Cands(specs, xs), FilterNames(specs), Flags(specs, xs));
    if NoDup(FilterNames(specs)) {
      SelectNoDup(FilterNames(specs), Flags(specs, xs));
    }
  }

  /** Filter k has a clause exactly when its input is present. */
  lemma TableClause(specs: seq<Spec>, xs: seq<Input>, k: nat)
    requires |specs| == |xs| && k < |specs| && NoDup(FilterNames(specs))
    ensures FilterName(specs[k]) in FiltersOf(TablePlan(specs, xs)) <==> Present(specs[k], xs[k])
  {
    TableOrder(specs, xs);
    SelectSubset(FilterNames(specs), Flags(specs, xs), FilterName(specs[k]));
    assert FilterNames(specs)[k] == FilterName(specs[k]);
  }

  /** No clause at all exactly when no input is present. */
  lemma TableEmpty(specs: seq<Spec>, xs: seq<Input>)
    requires |specs| == |xs|
    ensures TablePlan(specs, xs) == [] <==> forall k :: 0 <= k < |specs| ==> !Flags(specs, xs)[k]
  {
    TableOrder(specs, xs);
    SelectEmpty(FilterNames(specs), Flags(specs, xs));
    assert |FiltersOf(TablePlan(specs, xs))| == |TablePlan(specs, xs)|;
  }

  // ----- Placeholders and keys ------------------------------------------------

  /** A test whose placeholder is its key and whose fixed text holds no "%"
    * and no ")" in the name, or a group over a column without "%". */
  predicate Sound(s: Spec) {
    if s.TestSpec? then '%' !in s.prefix && ')' !in s.name && s.name == s.key else '%' !in s.col
  }

  /** A present candidate of a sound spec is well formed and binds every
    * placeholder it uses. */
  lemma CandSound(s: Spec, x: Input)
    requires Sound(s) && Cand(s, x).Some?
    ensures WellFormed(Cand(s, x).value.sql)
    ensures forall n :: n in Names(Cand(s, x).value.sql) ==> n in Keys(Cand(s, x).value.binds)
  {
    if s.TestSpec? {
      TestShape(s.filter, s.prefix, s.name, s.key, x.value);
    } else {
      GroupShape(s.col, s.col, x.toks, s.base);
    }
  }

  /** Fixed text without "%" and placeholder names without ")": the
    * driver reads back exactly the placeholders the clauses put in, whether
    * or not each test binds the key its placeholder names. */
  predicate Parsable(s: Spec) {
    if s.TestSpec? then '%' !in s.prefix && ')' !in s.name else '%' !in s.col
  }

  lemma CandParsable(s: Spec, x: Input)
    requires Parsable(s) && Cand(s, x).Some?
    ensures WellFormed(Cand(s, x).value.sql)
  {
    if s.TestSpec? {
      TestShape(s.filter, s.prefix, s.name, s.key, x.value);
    } else {
      GroupShape(s.col, s.col, x.toks, s.base);
    }
  }

  /** A present test's placeholder name occurs in the query text of a
    * parsable table. */
  lemma TablePlaceholderAt(specs: seq<Spec>, xs: seq<Input>, k: nat)
    requires |specs| == |xs| && k < |specs| && specs[k].TestSpec? && xs[k].One?
    requires forall j :: 0 <= j < |specs| ==> Parsable(specs[j])
    ensures specs[k].name in Placeholders(QueryText(TablePlan(specs, xs)))
  {
    var cands := Cands(specs, xs);
    var plan := Somes(cands);
    forall j | 0 <= j < |plan| ensures WellFormed(plan[j].sql) {
      assert plan[j] in plan;
      SomesMember(cands, plan[j]);
      var l :| 0 <= l < |cands| && cands[l] == Some(plan[j]);
      CandParsable(specs[l], xs[l]);
    }
    PlanPlaceholders(plan);
    SomesIndex(cands, k);
    var i :| 0 <= i < |plan| && plan[i] == cands[k].value;
    TestShape(specs[k].filter, specs[k].prefix, specs[k].name, specs[k].key, xs[k].value);
    FlattenNamesAt(plan, i, specs[k].name);
  }

  /** A key that no spec of the table binds is not in the dictionary. */
  lemma TableKeyAbsent(specs: seq<Spec>, xs: seq<Input>, key: string)
    requires |specs| == |xs|
    requires forall j :: 0 <= j < |specs| ==> specs[j].TestSpec? && specs[j].key != key
    ensures key !in Params(TablePlan(specs, xs))
  {
    var cands := Cands(specs, xs);
    forall j | 0 <= j < |cands| ensures key !in CandKeys(cands[j]) {
      CandKeysSpec(specs[j], xs[j], key);
    }
    ParamNotBound(cands, key);
  }

  /** With a sound table every placeholder the query text contains is a key
    * of the dictionary. */
  lemma TableBound(specs: seq<Spec>, xs: seq<Input>)
    requires |specs| == |xs|
    requires forall k :: 0 <= k < |specs| ==> Sound(specs[k])
    ensures forall n :: n in Placeholders(QueryText(TablePlan(specs, xs))) ==> n in Params(TablePlan(specs, xs))
  {
    var cands := Cands(specs, xs);
    var plan := Somes(cands);
    forall j | 0 <= j < |plan|
      ensures WellFormed(plan[j].sql)
      ensures forall n :: n in Names(plan[j].sql) ==> n in Keys(plan[j].binds)
    {
      assert plan[j] in plan;
      SomesMember(cands, plan[j]);
      var k :| 0 <= k < |cands| && cands[k] == Some(plan[j]);
      CandSound(specs[k], xs[k]);
    }
    PlanBound(plan);
  }

  /** Which keys a candidate binds: a test its key, a group the numerals of
    * its token indices. */
  lemma CandKeysSpec(s: Spec, x: Input, key: string)
    ensures key in CandKeys(Cand(s, x)) <==>
      if s.TestSpec? then x.One? && key == s.key
      else x.Many? && x.toks != [] && key in IndexNames(s.base, |x.toks|)
  {
    if Cand(s, x).Some? {
      if s.TestSpec? {
        TestShape(s.filter, s.prefix, s.name, s.key, x.value);
      } else {
        GroupKeys(x.toks, s.base);
      }
    }
  }

  /** A test's value is what the dictionary holds under its key when no
    * later filter binds that key; a test that is absent leaves the key out
    * when no other filter binds it. */
  lemma TestParamAt(specs: seq<Spec>, xs: seq<Input>, k: nat)
    requires |specs| == |xs| && k < |specs| && specs[k].TestSpec?
    requires forall j :: 0 <= j < |specs| && j != k ==> specs[k].key !in CandKeys(Cands(specs, xs)[j])
    ensures xs[k].One? <==> specs[k].key in Params(TablePlan(specs, xs))
    ensures xs[k].One? ==> Params(TablePlan(specs, xs))[specs[k].key] == xs[k].value
  {
    var s := specs[k];
    var cands := Cands(specs, xs);
    CandKeysSpec(s, xs[k], s.key);
    if xs[k].One? {
      ParamFromCandidate(cands, k, s.key);
      BindOne(map[], (s.key, xs[k].value));
    } else {
      ParamNotBound(cands, s.key);
    }
  }

  /** Token i of a group is bound under str(base + i) when no later filter
    * binds that name. */
  lemma GroupParamAt(specs: seq<Spec>, xs: seq<Input>, k: nat, i: nat)
    requires |specs| == |xs| && k < |specs| && specs[k].GroupSpec?
    requires xs[k].Many? && i < |xs[k].toks|
    requires forall j :: k < j < |specs| ==> NatToString(specs[k].base + i) !in CandKeys(Cands(specs, xs)[j])
    ensures NatToString(specs[k].base + i) in Params(TablePlan(specs, xs))
    ensures Params(TablePlan(specs, xs))[NatToString(specs[k].base + i)] == Str("%" + xs[k].toks[i] + "%")
  {
    var s := specs[k];
    var name := NatToString(s.base + i);
    CandKeysSpec(s, xs[k], name);
    assert IndexNames(s.base, |xs[k].toks|)[i] == name;
    ParamFromCandidate(Cands(specs, xs), k, name);
    GroupParam(map[], xs[k].toks, s.base, i);
  }

  /** A test's key is not a numeral, so no group binds it. */
  lemma GroupMissesName(s: Spec, x: Input, key: string)
    requires s.GroupSpec? && key != [] && !IsDigit(key[0])
    ensures key !in CandKeys(Cand(s, x))
  {
    CandKeysSpec(s, x, key);
    if x.Many? {
      IndexNamesDigits(s.base, |x.toks|);
    }
  }

  /** A numeral is not the key of any test whose key starts with a letter. */
  lemma TestMissesNumeral(s: Spec, x: Input, n: nat)
    requires s.TestSpec? && s.key != [] && !IsDigit(s.key[0])
    ensures NatToString(n) !in CandKeys(Cand(s, x))
  {
    CandKeysSpec(s, x, NatToString(n));
    NatToStringDigits(n);
  }

  /** A numeral outside a group's index range is not bound by the group. */
  lemma GroupMissesNumeral(s: Spec, x: Input, n: nat)
    requires s.GroupSpec?
    requires !(x.Many? && s.base <= n < s.base + |x.toks|)
    ensures NatToString(n) !in CandKeys(Cand(s, x))
  {
    CandKeysSpec(s, x, NatToString(n));
    if x.Many? && NatToString(n) in IndexNames(s.base, |x.toks|) {
      var i :| 0 <= i < |x.toks| && IndexNames(s.base, |x.toks|)[i] == NatToString(n);
      if s.base + i != n {
        NatToStringInjective(s.base + i, n);
      }
    }
  }

  // ----- The query text does not depend on the values -------------------------

  function Count(x: Input): nat {
    if x.Many? then |x.toks| else 0
  }

  /** Two input lists that present the same filters with the same token
    * counts. */
  predicate SameInputShape(specs: seq<Spec>, xs: seq<Input>, ys: seq<Input>) {
    |xs| == |specs| && |ys| == |specs|
    && forall k :: 0 <= k < |specs| ==> Present(specs[k], xs[k]) == Present(specs[k], ys[k]) && Count(xs[k]) == Count(ys[k])
  }

  /** No input value reaches the query text: inputs of the same shape give
    * the same text, whatever the values. */
  lemma TableShape(specs: seq<Spec>, xs: seq<Input>, ys: seq<Input>)
    requires SameInputShape(specs, xs, ys)
    ensures QueryText(TablePlan(specs, xs)) == QueryText(TablePlan(specs, ys))
  {
    var c1, c2 := Cands(specs, xs), Cands(specs, ys);
    forall k | 0 <= k < |specs|
      ensures c1[k].Some? == c2[k].Some?
      ensures c1[k].Some? ==> c1[k].value.sql == c2[k].value.sql
    {
    }
    SameShapeText(c1, c2);
  }
  // ----- One filter at a time ---------------------------------------------------

  /** A single-test filter's step: when its input is present, appending the
    * test's text and binding its key to the value extends the text and
    * dictionary of the first k candidates to the first k + 1. */
  lemma TestStep(cands: seq<Option<Clause>>, k: nat, s: Spec, x: Input, text: string, key: string, q: string, p: map<string, Value>)
    requires k < |cands| && Built(cands, k, q, p) && cands[k] == Cand(s, x)
    requires s.TestSpec? && text == TestText(s) && key == s.key
    ensures x.One? ==> Built(cands, k + 1, q + text, p[key := x.value])
    ensures !x.One? ==> Built(cands, k + 1, q, p)
  {
    if x.One? {
      TestApplied(s.filter, s.prefix, s.name, s.key, x.value, text, q, p);
      Advance(cands, k, q, p, q + text, p[s.key := x.value]);
    } else {
      Advance(cands, k, q, p, q, p);
    }
  }

  /** An OR-group's step: with at least one token, appending the joined
    * conditions in parentheses and binding every token extends the text and
    * dictionary of the first k candidates to the first k + 1. */
  lemma GroupStep(cands: seq<Option<Clause>>, k: nat, s: Spec, x: Input, q: string, p: map<string, Value>)
    requires k < |cands| && Built(cands, k, q, p) && cands[k] == Cand(s, x)
    requires s.GroupSpec? && '%' !in s.col
    ensures x.Many? && x.toks != [] ==>
      Built(cands, k + 1, q + (" AND (" + GroupConditions(s.col, s.base, |x.toks|) + ")"), Bind(p, TokenBinds(x.toks, s.base)))
    ensures !(x.Many? && x.toks != []) ==> Built(cands, k + 1, q, p)
  {
    if x.Many? && x.toks != [] {
      GroupApplied(s.col, s.col, x.toks, s.base, GroupConditions(s.col, s.base, |x.toks|), q, p);
      Advance(cands, k, q, p, q + (" AND (" + GroupConditions(s.col, s.base, |x.toks|) + ")"), Bind(p, TokenBinds(x.toks, s.base)));
    } else {
      Advance(cands, k, q, p, q, p);
    }
  }
}
