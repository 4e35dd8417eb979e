/*
 * Parameterised SQL text as the catalog service builds it for
 * mysql.connector: query text with pyformat placeholders "%(name)s" plus a
 * dictionary of bound values, and statements with positional "%s" markers
 * plus a list of values.
 */
module Sql {
  import opened PyText

  /** A value bound to a placeholder: text, a float, an int or None. */
  datatype Value = Str(s: string) | Num(x: real) | Int(n: int) | Null

  /** The failure the HTTP layer reports, with its status code. */
  datatype Outcome<+T> = Ok(value: T) | Fail(status: nat, detail: string)

  // ----- Query text as fixed text and named placeholders --------------------

  datatype Frag = Lit(text: string) | Ph(name: string)

  function PhText(name: string): string {
    "%(" + name + ")s"
  }

  function FragText(f: Frag): string {
    if f.Lit? then f.text else PhText(f.name)
  }

  /** The query text a fragment list stands for. */
  function Render(q: seq<Frag>): string
  {
    if q == [] then [] else FragText(q[0]) + Render(q[1..])
  }

  /** The placeholder names of a fragment list, in order. */
  function Names(q: seq<Frag>): seq<string>
  {
    if q == [] then [] else (if q[0].Ph? then [q[0].name] else []) + Names(q[1..])
  }

  lemma {:induction false} RenderConcat(a: seq<Frag>, b: seq<Frag>)
    ensures Render(a + b) == Render(a) + Render(b)
  {
    var ab := a + b;
    if a == [] {
      assert ab == b;
    } else {
      assert ab[0] == a[0];
      assert ab[1..] == a[1..] + b;
      RenderConcat(a[1..], b);
      assert Render(ab) == FragText(a[0]) + Render(a[1..] + b);
    }
  }

  lemma {:induction false} NamesConcat(a: seq<Frag>, b: seq<Frag>)
    ensures Names(a + b) == Names(a) + Names(b)
  {
    var ab := a + b;
    if a == [] {
      assert ab == b;
    } else {
      assert ab[0] == a[0];
      assert ab[1..] == a[1..] + b;
      NamesConcat(a[1..], b);
      assert Names(ab) == (if a[0].Ph? then [a[0].name] else []) + Names(a[1..] + b);
    }
  }

  /** Rendering and naming distribute over concatenation. */
  lemma RenderAppend(a: seq<Frag>, b: seq<Frag>)
    ensures Render(a + b) == Render(a) + Render(b)
    ensures Names(a + b) == Names(a) + Names(b)
  {
    RenderConcat(a, b);
    NamesConcat(a, b);
  }

  /** Fixed text never contains '%' and no name contains ')'. */
  predicate FragOk(f: Frag) {
    match f
    case Lit(t) => '%' !in t
    case Ph(n) => ')' !in n
  }

  predicate WellFormed(q: seq<Frag>) {
    forall i :: 0 <= i < |q| ==> FragOk(q[i])
  }

  /** The pyformat placeholders "%(name)s" that occur in a query text, read
    * left to right: the names the driver will look up in the parameters. */
  function Placeholders(s: string): seq<string>
    decreases |s|
  {
    if |s| < 2 then []
    else if s[0] == '%' && s[1] == '(' then
      var close := FindFrom(s, ")", 2);
      if close.Some? && close.value + 1 < |s| && s[close.value + 1] == 's'
      then [s[2..close.value]] + Placeholders(s[close.value + 2..])
      else Placeholders(s[1..])
    else Placeholders(s[1..])
  }

  lemma {:induction false} PlaceholdersSkipText(t: string, rest: string)
    requires '%' !in t
    ensures Placeholders(t + rest) == Placeholders(rest)
    decreases |t|
  {
    if t != [] {
      var s := t + rest;
      assert s[0] == t[0] && t[0] in t;
      if |s| < 2 {
        assert |rest| < 2;
      } else {
        assert s[1..] == t[1..] + rest;
        assert Placeholders(s) == Placeholders(s[1..]);
        PlaceholdersSkipText(t[1..], rest);
      }
    } else {
      assert t + rest == rest;
    }
  }

  lemma PlaceholdersReadName(n: string, rest: string)
    requires ')' !in n
    ensures Placeholders(PhText(n) + rest) == [n] + Placeholders(rest)
  {
    var s := PhText(n) + rest;
    assert s == "%(" + n + ")s" + rest;
    assert s[0] == '%' && s[1] == '(';
    var k := 2 + |n|;
    assert At(s, k, ")") by { assert s[k] == ')'; assert s[k..k + 1] == [s[k]]; }
    forall j | 2 <= j < k ensures !At(s, j, ")") {
      assert s[j] == n[j - 2];
      assert j + 1 <= |s| ==> s[j..j + 1] == [s[j]];
    }
    assert FindFrom(s, ")", 2) == Some(k);
    assert s[k + 1] == 's';
    assert s[2..k] == n;
    assert s[k + 2..] == rest;
  }

  /** Reading the placeholders back from the rendered text gives exactly the
    * placeholder fragments, provided the fixed text holds no '%'. */
  lemma {:induction false} PlaceholdersOfRender(q: seq<Frag>)
    requires WellFormed(q)
    ensures Placeholders(Render(q)) == Names(q)
  {
    if q != [] {
      assert WellFormed(q[1..]) by {
        forall i | 0 <= i < |q[1..]| ensures FragOk(q[1..][i]) {
          assert q[1..][i] == q[i + 1];
        }
      }
      PlaceholdersOfRender(q[1..]);
      match q[0]
      case Lit(t) => PlaceholdersSkipText(t, Render(q[1..]));
      case Ph(n) => PlaceholdersReadName(n, Render(q[1..]));
    }
  }

  // ----- Clauses and the parameter dictionary -------------------------------

  type Binding = (string, Value)

  /** What one filter contributes: its AND-fragment and its bound values. */
  datatype Clause = Clause(filter: string, sql: seq<Frag>, binds: seq<Binding>)

  const Base: string := "SELECT * FROM catalog WHERE 1=1"

  /** params[k] = v for each binding, in order. */
  function Bind(m: map<string, Value>, bs: seq<Binding>): map<string, Value>
    decreases |bs|
  {
    if bs == [] then m else Bind(m[bs[0].0 := bs[0].1], bs[1..])
  }

  function BindAll(m: map<string, Value>, plan: seq<Clause>): map<string, Value>
    decreases |plan|
  {
    if plan == [] then m else BindAll(Bind(m, plan[0].binds), plan[1..])
  }

  function Flatten(plan: seq<Clause>): seq<Frag>
  {
    if plan == [] then [] else plan[0].sql + Flatten(plan[1..])
  }

  /** The query text of a list of clauses, after the base query. */
  function QueryText(plan: seq<Clause>): string {
    Base + Render(Flatten(plan))
  }

  /** The parameter dictionary of a list of clauses. */
  function Params(plan: seq<Clause>): map<string, Value> {
    BindAll(map[], plan)
  }

  /** No clause: the bare base query and an empty dictionary. */
  lemma EmptyPlan()
    ensures QueryText([]) == "SELECT * FROM catalog WHERE 1=1" && Params([]) == map[]
  {
    assert Render([]) == [];
  }

  function Keys(bs: seq<Binding>): set<string> {
    set i | 0 <= i < |bs| :: bs[i].0
  }

  function FiltersOf(plan: seq<Clause>): seq<string> {
    seq(|plan|, i requires 0 <= i < |plan| => plan[i].filter)
  }

  lemma {:induction false} BindSnoc(m: map<string, Value>, bs: seq<Binding>, b: Binding)
    ensures Bind(m, bs + [b]) == Bind(m, bs)[b.0 := b.1]
    decreases |bs|
  {
    if bs != [] {
      assert (bs + [b])[1..] == bs[1..] + [b];
      BindSnoc(m[bs[0].0 := bs[0].1], bs[1..], b);
    }
  }

  lemma {:induction false} BindAllSnoc(m: map<string, Value>, plan: seq<Clause>, c: Clause)
    ensures BindAll(m, plan + [c]) == Bind(BindAll(m, plan), c.binds)
    ensures Flatten(plan + [c]) == Flatten(plan) + c.sql
    decreases |plan|
  {
    if plan != [] {
      assert (plan + [c])[1..] == plan[1..] + [c];
      BindAllSnoc(Bind(m, plan[0].binds), plan[1..], c);
    } else {
      assert [c][1..] == [];
    }
  }

  /** Adding one clause appends its text and applies its bindings. */
  lemma Extend(plan: seq<Clause>, c: Clause)
    ensures QueryText(plan + [c]) == QueryText(plan) + Render(c.sql)
    ensures Params(plan + [c]) == Bind(Params(plan), c.binds)
  {
    BindAllSnoc(map[], plan, c);
    RenderConcat(Flatten(plan), c.sql);
  }

  /** A key that no binding mentions keeps its entry. */
  lemma {:induction false} BindOther(m: map<string, Value>, bs: seq<Binding>, k: string)
    requires k !in Keys(bs)
    ensures (k in Bind(m, bs)) == (k in m)
    ensures k in m ==> Bind(m, bs)[k] == m[k]
    decreases |bs|
  {
    if bs != [] {
      assert Keys(bs[1..]) <= Keys(bs) by {
        forall x | x in Keys(bs[1..]) ensures x in Keys(bs) {
          var i :| 0 <= i < |bs[1..]| && bs[1..][i].0 == x;
          assert bs[i + 1].0 == x;
        }
      }
      assert bs[0].0 in Keys(bs);
      BindOther(m[bs[0].0 := bs[0].1], bs[1..], k);
    }
  }

  /** A key some binding mentions is present, and its value does not depend on
    * what the dictionary held before. */
  lemma {:induction false} BindOwn(m: map<string, Value>, m': map<string, Value>, bs: seq<Binding>, k: string)
    requires k in Keys(bs)
    ensures k in Bind(m, bs) && k in Bind(m', bs)
    ensures Bind(m, bs)[k] == Bind(m', bs)[k]
    decreases |bs|
  {
    var i :| 0 <= i < |bs| && bs[i].0 == k;
    if bs[0].0 == k && k !in Keys(bs[1..]) {
      BindOther(m[k := bs[0].1], bs[1..], k);
      BindOther(m'[k := bs[0].1], bs[1..], k);
    } else if bs[0].0 == k {
      BindOwn(m[k := bs[0].1], m'[k := bs[0].1], bs[1..], k);
    } else {
      assert bs[1..][i - 1].0 == k;
      BindOwn(m[bs[0].0 := bs[0].1], m'[bs[0].0 := bs[0].1], bs[1..], k);
    }
  }

  /** With pairwise distinct keys every binding is what the dictionary holds. */
  lemma {:induction false} BindDistinct(m: map<string, Value>, bs: seq<Binding>, i: nat)
    requires i < |bs|
    requires forall a, b :: 0 <= a < b < |bs| ==> bs[a].0 != bs[b].0
    ensures bs[i].0 in Bind(m, bs) && Bind(m, bs)[bs[i].0] == bs[i].1
    decreases |bs|
  {
    var rest := bs[1..];
    if i == 0 {
      assert bs[0].0 !in Keys(rest);
      BindOther(m[bs[0].0 := bs[0].1], rest, bs[0].0);
    } else {
      assert rest[i - 1] == bs[i];
      BindDistinct(m[bs[0].0 := bs[0].1], rest, i - 1);
    }
  }

  lemma {:induction false} BindKeys(m: map<string, Value>, bs: seq<Binding>)
    ensures Bind(m, bs).Keys == m.Keys + Keys(bs)
    decreases |bs|
  {
    if bs != [] {
      BindKeys(m[bs[0].0 := bs[0].1], bs[1..]);
      assert Keys(bs) == {bs[0].0} + Keys(bs[1..]) by {
        forall x | x in Keys(bs) ensures x in {bs[0].0} + Keys(bs[1..]) {
          var i :| 0 <= i < |bs| && bs[i].0 == x;
          if i > 0 { assert bs[1..][i - 1].0 == x; }
        }
      }
    }
  }

  // ----- Filters in a fixed order --------------------------------------------

  /** The clauses of present filters, in candidate order. */
  function Somes(cands: seq<Option<Clause>>): seq<Clause>
  {
    if cands == [] then []
    else (if cands[0].Some? then [cands[0].value] else []) + Somes(cands[1..])
  }

  lemma {:induction false} SomesSnoc(cands: seq<Option<Clause>>, k: nat)
    requires k < |cands|
    ensures Somes(cands[..k + 1]) == Somes(cands[..k]) + (if cands[k].Some? then [cands[k].value] else [])
  {
    if k == 0 {
      assert cands[..1][1..] == [];
    } else {
      assert cands[..k + 1][1..] == cands[1..][..k];
      assert cands[..k][1..] == cands[1..][..k - 1];
      SomesSnoc(cands[1..], k - 1);
    }
  }

  /** The names of order whose flag is set, in order. */
  function Select(order: seq<string>, flags: seq<bool>): seq<string>
    requires |order| == |flags|
  {
    if order == [] then [] else (if flags[0] then [order[0]] else []) + Select(order[1..], flags[1..])
  }

  /** Candidate k is present exactly when its flag is set, and names filter k. */
  predicate Aligned(cands: seq<Option<Clause>>, order: seq<string>, flags: seq<bool>) {
    |cands| == |order| == |flags|
    && forall k :: 0 <= k < |cands| ==> cands[k].Some? == flags[k] && (cands[k].Some? ==> cands[k].value.filter == order[k])
  }

  lemma {:induction false} SomesFilters(cands: seq<Option<Clause>>, order: seq<string>, flags: seq<bool>)
    requires Aligned(cands, order, flags)
    ensures FiltersOf(Somes(cands)) == Select(order, flags)
  {
    if cands != [] {
      assert Aligned(cands[1..], order[1..], flags[1..]) by {
        forall k | 0 <= k < |cands| - 1
          ensures cands[1..][k].Some? == flags[1..][k] && (cands[1..][k].Some? ==> cands[1..][k].value.filter == order[1..][k])
        {
          assert cands[1..][k] == cands[k + 1];
        }
      }
      SomesFilters(cands[1..], order[1..], flags[1..]);
    }
  }

  predicate NoDup(s: seq<string>) {
    forall i, j :: 0 <= i < j < |s| ==> s[i] != s[j]
  }

  lemma {:induction false} SelectSubset(order: seq<string>, flags: seq<bool>, x: string)
    requires |order| == |flags|
    ensures x in Select(order, flags) <==> exists k :: 0 <= k < |order| && flags[k] && order[k] == x
  {
    if order != [] {
      SelectSubset(order[1..], flags[1..], x);
      if x in Select(order[1..], flags[1..]) {
        var k :| 0 <= k < |order| - 1 && flags[1..][k] && order[1..][k] == x;
        assert flags[k + 1] && order[k + 1] == x;
      }
      if exists k :: 0 <= k < |order| && flags[k] && order[k] == x {
        var k :| 0 <= k < |order| && flags[k] && order[k] == x;
        if k > 0 { assert flags[1..][k - 1] && order[1..][k - 1] == x; }
      }
    }
  }

  /** Selecting from a list without repetitions gives no repetitions. */
  lemma {:induction false} SelectNoDup(order: seq<string>, flags: seq<bool>)
    requires |order| == |flags| && NoDup(order)
    ensures NoDup(Select(order, flags))
  {
    if order != [] {
      assert NoDup(order[1..]) by {
        forall i, j | 0 <= i < j < |order| - 1 ensures order[1..][i] != order[1..][j] {
          assert order[1..][i] == order[i + 1] && order[1..][j] == order[j + 1];
        }
      }
      SelectNoDup(order[1..], flags[1..]);
      SelectSubset(order[1..], flags[1..], order[0]);
    }
  }

  /** Nothing is selected exactly when no flag is set. */
  lemma {:induction false} SelectEmpty(order: seq<string>, flags: seq<bool>)
    requires |order| == |flags|
    ensures Select(order, flags) == [] <==> forall k :: 0 <= k < |flags| ==> !flags[k]
  {
    if order != [] {
      SelectEmpty(order[1..], flags[1..]);
      if !flags[0] && Select(order[1..], flags[1..]) == [] {
        forall k | 0 <= k < |flags| ensures !flags[k] {
          if k > 0 { assert flags[k] == flags[1..][k - 1]; }
        }
      }
      if forall k :: 0 <= k < |flags| ==> !flags[k] {
        assert forall k :: 0 <= k < |flags| - 1 ==> !flags[1..][k] by {
          forall k | 0 <= k < |flags| - 1 ensures !flags[1..][k] { assert flags[1..][k] == flags[k + 1]; }
        }
      }
    }
  }

  // ----- Where a parameter's value comes from --------------------------------

  function CandKeys(c: Option<Clause>): set<string> {
    if c.Some? then Keys(c.value.binds) else {}
  }

  /** A key no clause binds is not a parameter. */
  lemma {:induction false} ParamAbsent(m: map<string, Value>, plan: seq<Clause>, k: string)
    requires k !in m
    requires forall j :: 0 <= j < |plan| ==> k !in Keys(plan[j].binds)
    ensures k !in BindAll(m, plan)
    decreases |plan|
  {
    if plan != [] {
      BindOther(m, plan[0].binds, k);
      BindAll1(plan);
      ParamAbsent(Bind(m, plan[0].binds), plan[1..], k);
    }
  }

  lemma BindAll1(plan: seq<Clause>)
    requires plan != []
    ensures forall j :: 0 <= j < |plan| - 1 ==> plan[1..][j] == plan[j + 1]
  {
  }

  /** A key is taken from the last clause that binds it. */
  lemma {:induction false} ParamFromLast(m: map<string, Value>, plan: seq<Clause>, i: nat, k: string)
    requires i < |plan| && k in Keys(plan[i].binds)
    requires forall j :: i < j < |plan| ==> k !in Keys(plan[j].binds)
    ensures k in BindAll(m, plan) && k in Bind(map[], plan[i].binds)
    ensures BindAll(m, plan)[k] == Bind(map[], plan[i].binds)[k]
    decreases |plan|
  {
    BindAll1(plan);
    var m1 := Bind(m, plan[0].binds);
    if i == 0 {
      BindOwn(m, map[], plan[0].binds, k);
      ParamKept(m1, plan[1..], k);
    } else {
      ParamFromLast(m1, plan[1..], i - 1, k);
    }
  }

  lemma {:induction false} ParamKept(m: map<string, Value>, plan: seq<Clause>, k: string)
    requires k in m
    requires forall j :: 0 <= j < |plan| ==> k !in Keys(plan[j].binds)
    ensures k in BindAll(m, plan) && BindAll(m, plan)[k] == m[k]
    decreases |plan|
  {
    if plan != [] {
      BindAll1(plan);
      BindOther(m, plan[0].binds, k);
      ParamKept(Bind(m, plan[0].binds), plan[1..], k);
    }
  }

  lemma {:induction false} SomesConcat(a: seq<Option<Clause>>, b: seq<Option<Clause>>)
    ensures Somes(a + b) == Somes(a) + Somes(b)
    decreases |a|
  {
    if a == [] {
      assert a + b == b;
    } else {
      assert (a + b)[0] == a[0];
      assert (a + b)[1..] == a[1..] + b;
      SomesConcat(a[1..], b);
    }
  }

  lemma SomesIndex(cands: seq<Option<Clause>>, k: nat)
    requires k < |cands| && cands[k].Some?
    ensures exists i :: (0 <= i < |Somes(cands)| && Somes(cands)[i] == cands[k].value
      && |Somes(cands[k + 1..])| == |Somes(cands)| - i - 1
      && Somes(cands)[i + 1..] == Somes(cands[k + 1..]))
  {
    var before, after := cands[..k], cands[k + 1..];
    assert cands == before + ([cands[k]] + after);
    SomesConcat(before, [cands[k]] + after);
    SomesConcat([cands[k]], after);
    assert Somes([cands[k]]) == [cands[k].value] by {
      assert [cands[k]][1..] == [];
    }
    var i := |Somes(before)|;
    assert Somes(cands) == Somes(before) + ([cands[k].value] + Somes(after));
    assert Somes(cands)[i] == cands[k].value;
    assert Somes(cands)[i + 1..] == Somes(after);
  }

  lemma {:induction false} SomesMember(cands: seq<Option<Clause>>, c: Clause)
    requires c in Somes(cands)
    ensures exists k :: 0 <= k < |cands| && cands[k] == Some(c)
  {
    if cands != [] {
      if cands[0] != Some(c) {
        SomesMember(cands[1..], c);
        var k :| 0 <= k < |cands| - 1 && cands[1..][k] == Some(c);
        assert cands[k + 1] == Some(c);
      }
    }
  }

  /** Among candidates, when only candidate k and earlier ones bind key, the
    * parameter holds what candidate k binds. */
  lemma ParamFromCandidate(cands: seq<Option<Clause>>, k: nat, key: string)
    requires k < |cands| && key in CandKeys(cands[k])
    requires forall j :: k < j < |cands| ==> key !in CandKeys(cands[j])
    ensures key in Params(Somes(cands)) && key in Bind(map[], cands[k].value.binds)
    ensures Params(Somes(cands))[key] == Bind(map[], cands[k].value.binds)[key]
  {
    var plan := Somes(cands);
    SomesIndex(cands, k);
    var i :| 0 <= i < |plan| && plan[i] == cands[k].value
      && |Somes(cands[k + 1..])| == |plan| - i - 1
      && plan[i + 1..] == Somes(cands[k + 1..]);
    forall j | i < j < |plan| ensures key !in Keys(plan[j].binds) {
      assert plan[j] == Somes(cands[k + 1..])[j - i - 1];
      assert plan[j] in Somes(cands[k + 1..]);
      SomesMember(cands[k + 1..], plan[j]);
      var l :| 0 <= l < |cands[k + 1..]| && cands[k + 1..][l] == Some(plan[j]);
      assert cands[k + 1 + l] == Some(plan[j]);
    }
    ParamFromLast(map[], plan, i, key);
  }

  /** A key no candidate binds is not a parameter. */
  lemma ParamNotBound(cands: seq<Option<Clause>>, key: string)
    requires forall j :: 0 <= j < |cands| ==> key !in CandKeys(cands[j])
    ensures key !in Params(Somes(cands))
  {
    var plan := Somes(cands);
    forall j | 0 <= j < |plan| ensures key !in Keys(plan[j].binds) {
      assert plan[j] in plan;
      SomesMember(cands, plan[j]);
    }
    ParamAbsent(map[], plan, key);
  }

  // ----- Which placeholders the parameters cover -----------------------------

  /** Reading the placeholders back from a query gives the names of its
    * clauses, in order, when every clause is well formed. */
  lemma PlanPlaceholders(plan: seq<Clause>)
    requires forall j :: 0 <= j < |plan| ==> WellFormed(plan[j].sql)
    ensures Placeholders(QueryText(plan)) == Names(Flatten(plan))
  {
    var f := Flatten(plan);
    FlattenWellFormed(plan);
    PlaceholdersOfRender(f);
    BaseHasNoPlaceholder(Render(f));
  }

  /** The base query contributes no placeholder. */
  lemma BaseHasNoPlaceholder(r: string)
    ensures Placeholders(Base + r) == Placeholders(r)
  {
    assert '%' !in Base;
    PlaceholdersSkipText(Base, r);
  }

  lemma {:induction false} FlattenWellFormed(plan: seq<Clause>)
    requires forall j :: 0 <= j < |plan| ==> WellFormed(plan[j].sql)
    ensures WellFormed(Flatten(plan))
  {
    if plan != [] {
      BindAll1(plan);
      FlattenWellFormed(plan[1..]);
      var a, b := plan[0].sql, Flatten(plan[1..]);
      forall i | 0 <= i < |a + b| ensures FragOk((a + b)[i]) {
        if i >= |a| { assert (a + b)[i] == b[i - |a|]; }
      }
    }
  }

  /** When each clause binds every name it uses, every placeholder of the
    * whole query is a key of the parameters. */
  lemma {:induction false} NamesBound(m: map<string, Value>, plan: seq<Clause>)
    requires forall j, n :: 0 <= j < |plan| && n in Names(plan[j].sql) ==> n in Keys(plan[j].binds)
    ensures forall n :: n in Names(Flatten(plan)) ==> n in BindAll(m, plan)
    decreases |plan|
  {
    if plan != [] {
      BindAll1(plan);
      var c := plan[0];
      var m1 := Bind(m, c.binds);
      BindKeys(m, c.binds);
      NamesBound(m1, plan[1..]);
      RenderAppend(c.sql, Flatten(plan[1..]));
      forall n | n in Names(c.sql) ensures n in BindAll(m, plan) {
        KeysGrow(m1, plan[1..], n);
      }
    }
  }

  lemma {:induction false} KeysGrow(m: map<string, Value>, plan: seq<Clause>, n: string)
    requires n in m
    ensures n in BindAll(m, plan)
    decreases |plan|
  {
    if plan != [] {
      BindKeys(m, plan[0].binds);
      KeysGrow(Bind(m, plan[0].binds), plan[1..], n);
    }
  }

  /** The whole guarantee the driver needs: reading the placeholders out of the
    * query text finds only names that the parameters define. */
  lemma PlanBound(plan: seq<Clause>)
    requires forall j :: 0 <= j < |plan| ==> WellFormed(plan[j].sql)
    requires forall j, n :: 0 <= j < |plan| && n in Names(plan[j].sql) ==> n in Keys(plan[j].binds)
    ensures forall n :: n in Placeholders(QueryText(plan)) ==> n in Params(plan)
  {
    PlanPlaceholders(plan);
    NamesBound(map[], plan);
  }

  // ----- OR-groups of LIKE tests ---------------------------------------------

  /** "col LIKE %(n0)s OR col LIKE %(n1)s OR ..." as fragments. */
  function OrLike(col: string, names: seq<string>): seq<Frag>
  {
    if |names| == 0 then []
    else if |names| == 1 then [Lit(col + " LIKE "), Ph(names[0])]
    else [Lit(col + " LIKE "), Ph(names[0]), Lit(" OR ")] + OrLike(col, names[1..])
  }

  function LikeTexts(col: string, names: seq<string>): seq<string> {
    seq(|names|, i requires 0 <= i < |names| => col + " LIKE " + PhText(names[i]))
  }

  lemma RenderCons(f: Frag, q: seq<Frag>)
    ensures Render([f] + q) == FragText(f) + Render(q)
    ensures Names([f] + q) == (if f.Ph? then [f.name] else []) + Names(q)
  {
    assert ([f] + q)[0] == f;
    assert ([f] + q)[1..] == q;
  }

  lemma Regroup(a: string, b: string, c: string, d: string)
    ensures a + (b + (c + d)) == a + b + c + d
  {
  }

  /** One more name in front: its LIKE test, " OR ", then the rest. */
  lemma OrLikeStep(col: string, names: seq<string>)
    requires |names| > 1
    ensures Render(OrLike(col, names)) == (col + " LIKE ") + (PhText(names[0]) + (" OR " + Render(OrLike(col, names[1..]))))
    ensures Names(OrLike(col, names)) == [names[0]] + Names(OrLike(col, names[1..]))
  {
    var like, n, rest := Lit(col + " LIKE "), names[0], OrLike(col, names[1..]);
    var tail := [Lit(" OR ")] + rest;
    assert OrLike(col, names) == [like] + ([Ph(n)] + tail);
    RenderCons(like, [Ph(n)] + tail);
    RenderCons(Ph(n), tail);
    RenderCons(Lit(" OR "), rest);
  }

  lemma {:induction false} OrLikeRender(col: string, names: seq<string>)
    ensures Render(OrLike(col, names)) == Join(" OR ", LikeTexts(col, names))
    ensures Names(OrLike(col, names)) == names
  {
    if |names| == 1 {
      var n := names[0];
      RenderCons(Ph(n), []);
      RenderCons(Lit(col + " LIKE "), [Ph(n)]);
      assert OrLike(col, names) == [Lit(col + " LIKE ")] + [Ph(n)];
      assert [n] == names;
    } else if |names| > 1 {
      OrLikeStep(col, names);
      OrLikeRender(col, names[1..]);
      Regroup(col + " LIKE ", PhText(names[0]), " OR ", Render(OrLike(col, names[1..])));
      assert LikeTexts(col, names)[1..] == LikeTexts(col, names[1..]);
      assert names == [names[0]] + names[1..];
    }
  }

  lemma {:induction false} OrLikeWellFormed(col: string, names: seq<string>)
    requires '%' !in col
    requires forall i :: 0 <= i < |names| ==> ')' !in names[i]
    ensures WellFormed(OrLike(col, names))
  {
    if |names| > 1 {
      OrLikeWellFormed(col, names[1..]);
      var head := [Lit(col + " LIKE "), Ph(names[0]), Lit(" OR ")];
      var q := OrLike(col, names);
      forall i | 0 <= i < |q| ensures FragOk(q[i]) {
        if i >= 3 { assert q[i] == OrLike(col, names[1..])[i - 3]; }
      }
    }
  }

  // ----- Counting positional markers ----------------------------------------

  /** The number of "%s" markers in a text, as str.count("%s") gives it. */
  function CountMarks(s: string): nat
    decreases |s|
  {
    if |s| < 2 then 0
    else if s[0] == '%' && s[1] == 's' then 1 + CountMarks(s[2..])
    else CountMarks(s[1..])
  }

  predicate EndsSafe(s: string) {
    s == [] || s[|s| - 1] != '%'
  }

  /** Counting is additive across a cut that does not split a marker. */
  lemma {:induction false} CountMarksAppend(a: string, b: string)
    requires EndsSafe(a)
    ensures CountMarks(a + b) == CountMarks(a) + CountMarks(b)
    decreases |a|
  {
    var s := a + b;
    if a == [] {
      assert s == b;
    } else if |a| == 1 {
      assert s[0] == a[0] && s[1..] == b;
    } else if |a| >= 2 {
      assert s[0] == a[0] && s[1] == a[1];
      if a[0] == '%' && a[1] == 's' {
        assert s[2..] == a[2..] + b;
        CountMarksAppend(a[2..], b);
      } else {
        assert s[1..] == a[1..] + b;
        CountMarksAppend(a[1..], b);
      }
    }
  }

  lemma {:induction false} CountMarksNone(s: string)
    requires '%' !in s
    ensures CountMarks(s) == 0
    decreases |s|
  {
    if |s| >= 2 { CountMarksNone(s[1..]); }
  }

  /** Joining items that each hold one marker gives one marker per item. */
  lemma {:induction false} CountMarksJoin(sep: string, items: seq<string>)
    requires '%' !in sep
    requires forall i :: 0 <= i < |items| ==> CountMarks(items[i]) == 1 && EndsSafe(items[i])
    ensures CountMarks(Join(sep, items)) == |items|
    ensures EndsSafe(Join(sep, items))
  {
    if |items| > 1 {
      CountMarksJoin(sep, items[1..]);
      CountMarksNone(sep);
      var x := items[0];
      var j := Join(sep, items[1..]);
      CountMarksAppend(x, sep);
      if sep != [] {
        assert EndsSafe(x + sep) by { assert (x + sep)[|x + sep| - 1] == sep[|sep| - 1]; }
      } else {
        assert x + sep == x;
      }
      CountMarksAppend(x + sep, j);
      var s := x + sep + j;
      assert j != [];
      assert s[|s| - 1] == j[|j| - 1];
    }
  }

  // ----- UPDATE ... SET k1 = %s, k2 = %s ... WHERE col = %s -----------------

  datatype Statement = Statement(query: string, values: seq<Value>)

  // ----- SELECT * FROM catalog WHERE col = %s ---------------------------------

  /** The statement that reads one row back by its key column. */
  function SelectByKey(keyColumn: string, key: Value): Statement {
    Statement("SELECT * FROM catalog WHERE " + keyColumn + " = %s", [key])
  }

  /** One marker and one value: the driver binds the key to the marker. */
  lemma SelectByKeyMarks(keyColumn: string, key: Value)
    requires '%' !in keyColumn
    ensures CountMarks(SelectByKey(keyColumn, key).query) == |SelectByKey(keyColumn, key).values| == 1
    ensures SelectByKey(keyColumn, key).values[0] == key
  {
    var head, tail := "SELECT * FROM catalog WHERE ", keyColumn + " = ";
    MarksAround(head, [], tail);
    assert SelectByKey(keyColumn, key).query == head + [] + tail + "%s";
    CountMarksNone([]);
  }

  function Assignments(keys: seq<string>): seq<string> {
    seq(|keys|, i requires 0 <= i < |keys| => keys[i] + " = %s")
  }

  /** ", ".join(f"{key} = %s" for key in updates) */
  function SetClause(keys: seq<string>): string {
    Join(", ", Assignments(keys))
  }

  function KeysOf(updates: seq<Binding>): seq<string> {
    seq(|updates|, i requires 0 <= i < |updates| => updates[i].0)
  }

  function ValuesOf(updates: seq<Binding>): seq<Value> {
    seq(|updates|, i requires 0 <= i < |updates| => updates[i].1)
  }

  /** The partial-update statement: an empty update is rejected with 400;
    * otherwise one assignment per key and the row key bound last. */
  function UpdateStatement(updates: seq<Binding>, keyColumn: string, key: Value): (r: Outcome<Statement>)
    ensures r.Fail? <==> updates == []
    ensures r.Fail? ==> r.status == 400
    ensures r.Ok? ==> |r.value.values| == |updates| + 1 && r.value.values[|updates|] == key
    ensures r.Ok? ==> forall i :: 0 <= i < |updates| ==> r.value.values[i] == updates[i].1
  {
    if updates == [] then Fail(400, "No fields provided for update")
    else Ok(Statement("UPDATE catalog SET " + SetClause(KeysOf(updates)) + " WHERE " + keyColumn + " = %s",
                      ValuesOf(updates) + [key]))
  }

  predicate PlainName(k: string) {
    '%' !in k && ',' !in k
  }

  lemma AssignmentMarks(k: string)
    requires '%' !in k
    ensures CountMarks(k + " = %s") == 1 && EndsSafe(k + " = %s")
  {
    CountMarksNone(k + " = ");
    CountMarksAppend(k + " = ", "%s");
    assert k + " = %s" == (k + " = ") + "%s";
  }

  /** Text without '%' on both sides of a part adds no marker; a final
    * "%s" adds one. */
  lemma MarksAround(head: string, mid: string, tail: string)
    requires '%' !in head && '%' !in tail && tail != [] && EndsSafe(mid)
    ensures CountMarks(head + mid + tail + "%s") == CountMarks(mid) + 1
  {
    CountMarksNone(head);
    CountMarksNone(tail);
    assert EndsSafe(head) by { if head != [] { assert head[|head| - 1] in head; } }
    CountMarksAppend(head, mid);
    var hm := head + mid;
    assert EndsSafe(hm) by {
      if mid == [] { assert hm == head; } else { assert hm[|hm| - 1] == mid[|mid| - 1]; }
    }
    CountMarksAppend(hm, tail);
    var hmt := hm + tail;
    assert EndsSafe(hmt) by { assert hmt[|hmt| - 1] == tail[|tail| - 1] && tail[|tail| - 1] in tail; }
    CountMarksAppend(hmt, "%s");
    assert CountMarks("%s") == 1;
    assert head + mid + tail + "%s" == hmt + "%s";
  }

  /** The SET clause holds one "%s" marker per key. */
  lemma SetClauseMarks(keys: seq<string>)
    requires forall i :: 0 <= i < |keys| ==> '%' !in keys[i]
    ensures CountMarks(SetClause(keys)) == |keys| && EndsSafe(SetClause(keys))
  {
    var items := Assignments(keys);
    forall i | 0 <= i < |items| ensures CountMarks(items[i]) == 1 && EndsSafe(items[i]) {
      AssignmentMarks(keys[i]);
    }
    CountMarksJoin(", ", items);
  }

  /** The statement has exactly as many "%s" markers as values, so the
    * driver binds every value to one marker. */
  lemma UpdateMarksMatchValues(updates: seq<Binding>, keyColumn: string, key: Value)
    requires updates != []
    requires forall i :: 0 <= i < |updates| ==> '%' !in updates[i].0
    requires '%' !in keyColumn
    ensures UpdateStatement(updates, keyColumn, key).Ok?
    ensures CountMarks(UpdateStatement(updates, keyColumn, key).value.query)
         == |UpdateStatement(updates, keyColumn, key).value.values|
  {
    var keys := KeysOf(updates);
    SetClauseMarks(keys);
    var tail := " WHERE " + keyColumn + " = ";
    MarksAround("UPDATE catalog SET ", SetClause(keys), tail);
    assert " = %s" == " = " + "%s";
    assert UpdateStatement(updates, keyColumn, key).value.query
        == "UPDATE catalog SET " + SetClause(keys) + tail + "%s";
  }

  /** Splitting the SET clause at ", " gives back one "key = %s" per key, in
    * the order of the update. */
  lemma SetClauseSplits(keys: seq<string>)
    requires keys != []
    requires forall i :: 0 <= i < |keys| ==> ',' !in keys[i]
    ensures Split(SetClause(keys), ", ") == Assignments(keys)
  {
    var items := Assignments(keys);
    forall i | 0 <= i < |items| ensures ", "[0] !in items[i] {
      assert items[i] == keys[i] + " = %s";
    }
    SplitJoin(items, ", ");
  }

  // ----- INSERT INTO catalog (c1, ...) VALUES (%s, ...) ---------------------

  function Repeat(s: string, n: nat): (r: seq<string>)
    ensures |r| == n && forall i :: 0 <= i < n ==> r[i] == s
  {
    if n == 0 then [] else [s] + Repeat(s, n - 1)
  }

  /** "INSERT INTO catalog (c1, c2, ...) VALUES (%s<sep>%s...)": one
    * positional marker per column, the markers separated by markSep. */
  function InsertQuery(columns: seq<string>, markSep: string): string {
    "INSERT INTO catalog (" + Join(", ", columns) + ") VALUES (" + Join(markSep, Repeat("%s", |columns|)) + ")"
  }

  /** One "%s" marker per column. */
  lemma InsertMarks(columns: seq<string>, markSep: string)
    requires forall i :: 0 <= i < |columns| ==> '%' !in columns[i]
    requires '%' !in markSep
    ensures CountMarks(InsertQuery(columns, markSep)) == |columns|
  {
    var marks := Repeat("%s", |columns|);
    forall i | 0 <= i < |marks| ensures CountMarks(marks[i]) == 1 && EndsSafe(marks[i]) {
      assert CountMarks("%s") == 1;
    }
    CountMarksJoin(markSep, marks);
    JoinNoPercent(", ", columns);
    var a := "INSERT INTO catalog (" + Join(", ", columns) + ") VALUES (";
    var j := Join(markSep, marks);
    CountMarksNone(a);
    assert EndsSafe(a) by { assert a[|a| - 1] == '('; }
    CountMarksAppend(a, j);
    assert EndsSafe(a + j) by {
      if j == [] { assert a + j == a; } else { assert (a + j)[|a + j| - 1] == j[|j| - 1]; }
    }
    CountMarksAppend(a + j, ")");
    assert InsertQuery(columns, markSep) == a + j + ")";
  }

  lemma {:induction false} JoinNoPercent(sep: string, xs: seq<string>)
    requires '%' !in sep && forall i :: 0 <= i < |xs| ==> '%' !in xs[i]
    ensures '%' !in Join(sep, xs)
  {
    if |xs| > 1 { JoinNoPercent(sep, xs[1..]); }
  }

  // ----- Presence tests on optional query inputs ------------------------------

  /** `if s:` on an Optional[str] that the framework filled in. */
  predicate Truthy(s: Option<string>) {
    s.Some? && s.value != []
  }

  /** `if x:` on an Optional[float]: None and 0.0 are false. */
  predicate TruthyNum(x: Option<real>) {
    x.Some? && x.value != 0.0
  }

  // ----- The two shapes of filter clause --------------------------------------

  /** One test on one placeholder: prefix + "%(name)s", binding key. The
    * placeholder and the key coincide except where the source lets them
    * differ. */
  function Test(filter: string, prefix: string, name: string, key: string, v: Value): Clause {
    Clause(filter, [Lit(prefix), Ph(name)], [(key, v)])
  }

  lemma TestShape(filter: string, prefix: string, name: string, key: string, v: Value)
    ensures Render(Test(filter, prefix, name, key, v).sql) == prefix + "%(" + name + ")s"
    ensures Names(Test(filter, prefix, name, key, v).sql) == [name]
    ensures Keys(Test(filter, prefix, name, key, v).binds) == {key}
    ensures ('%' !in prefix && ')' !in name) ==> WellFormed(Test(filter, prefix, name, key, v).sql)
  {
    var q := [Lit(prefix), Ph(name)];
    RenderCons(Ph(name), []);
    RenderCons(Lit(prefix), [Ph(name)]);
    assert q == [Lit(prefix)] + [Ph(name)];
    var bs := [(key, v)];
    assert Keys(bs) == {key} by {
      assert bs[0].0 == key;
      forall x | x in Keys(bs) ensures x == key { }
    }
  }

  /** What adding a test does to the text and to the dictionary. */
  lemma TestApplied(filter: string, prefix: string, name: string, key: string, v: Value, text: string, q: string, p: map<string, Value>)
    requires text == prefix + "%(" + name + ")s"
    ensures q + Render(Test(filter, prefix, name, key, v).sql) == q + text
    ensures Bind(p, Test(filter, prefix, name, key, v).binds) == p[key := v]
  {
    TestShape(filter, prefix, name, key, v);
    BindOne(p, (key, v));
  }

  /** The names str(base), str(base + 1), ... str(base + n - 1). */
  function IndexNames(base: nat, n: nat): (r: seq<string>)
    ensures |r| == n
  {
    seq(n, i requires 0 <= i < n => NatToString(base + i))
  }

  /** params[str(base + i)] = "%" + toks[i] + "%" for each token in order. */
  function TokenBinds(toks: seq<string>, base: nat): (r: seq<Binding>)
    ensures |r| == |toks|
  {
    seq(|toks|, i requires 0 <= i < |toks| => (NatToString(base + i), Str("%" + toks[i] + "%")))
  }

  /** " AND (col LIKE %(b)s OR col LIKE %(b+1)s ...)" for a token list. */
  function Group(filter: string, col: string, toks: seq<string>, base: nat): Clause {
    Clause(filter, [Lit(" AND (")] + OrLike(col, IndexNames(base, |toks|)) + [Lit(")")], TokenBinds(toks, base))
  }

  /** The conditions joined with " OR ". */
  function GroupConditions(col: string, base: nat, n: nat): string {
    Join(" OR ", LikeTexts(col, IndexNames(base, n)))
  }

  lemma GroupShape(filter: string, col: string, toks: seq<string>, base: nat)
    requires '%' !in col
    ensures Render(Group(filter, col, toks, base).sql) == " AND (" + GroupConditions(col, base, |toks|) + ")"
    ensures Names(Group(filter, col, toks, base).sql) == IndexNames(base, |toks|)
    ensures WellFormed(Group(filter, col, toks, base).sql)
    ensures forall x :: x in Keys(Group(filter, col, toks, base).binds) <==> x in IndexNames(base, |toks|)
  {
    GroupText(col, IndexNames(base, |toks|));
    IndexNamesDigits(base, |toks|);
    GroupWellFormed(col, IndexNames(base, |toks|));
    GroupKeys(toks, base);
  }

  /** Appending the group's text and binding its tokens is applying the
    * group clause. */
  lemma GroupApplied(filter: string, col: string, toks: seq<string>, base: nat, cond: string, q: string, p: map<string, Value>)
    requires '%' !in col
    requires cond == GroupConditions(col, base, |toks|)
    ensures q + Render(Group(filter, col, toks, base).sql) == q + (" AND (" + cond + ")")
    ensures Group(filter, col, toks, base).binds == TokenBinds(toks, base)
  {
    GroupShape(filter, col, toks, base);
  }

  lemma GroupText(col: string, names: seq<string>)
    ensures Render([Lit(" AND (")] + OrLike(col, names) + [Lit(")")]) == " AND (" + Join(" OR ", LikeTexts(col, names)) + ")"
    ensures Names([Lit(" AND (")] + OrLike(col, names) + [Lit(")")]) == names
  {
    var mid := OrLike(col, names);
    OrLikeRender(col, names);
    RenderAppend([Lit(" AND (")] + mid, [Lit(")")]);
    RenderAppend([Lit(" AND (")], mid);
    RenderCons(Lit(" AND ("), []);
    RenderCons(Lit(")"), []);
  }

  lemma GroupWellFormed(col: string, names: seq<string>)
    requires '%' !in col
    requires forall i :: 0 <= i < |names| ==> AllDigits(names[i])
    ensures WellFormed([Lit(" AND (")] + OrLike(col, names) + [Lit(")")])
  {
    var mid := OrLike(col, names);
    OrLikeWellFormed(col, names);
    var q := [Lit(" AND (")] + mid + [Lit(")")];
    forall i | 0 <= i < |q| ensures FragOk(q[i]) {
      if 0 < i < |q| - 1 { assert q[i] == mid[i - 1]; }
    }
  }

  lemma IndexNamesDigits(base: nat, n: nat)
    ensures forall i :: 0 <= i < n ==> AllDigits(IndexNames(base, n)[i])
  {
    forall i | 0 <= i < n ensures AllDigits(IndexNames(base, n)[i]) {
      NatToStringDigits(base + i);
    }
  }

  lemma GroupKeys(toks: seq<string>, base: nat)
    ensures forall x :: x in Keys(TokenBinds(toks, base)) <==> x in IndexNames(base, |toks|)
  {
    var bs := TokenBinds(toks, base);
    var names := IndexNames(base, |toks|);
    forall x ensures x in Keys(bs) <==> x in names {
      if x in Keys(bs) {
        var i :| 0 <= i < |bs| && bs[i].0 == x;
        assert names[i] == x;
      }
      if x in names {
        var i :| 0 <= i < |names| && names[i] == x;
        assert bs[i].0 == x;
      }
    }
  }

  /** Within one group every token is bound to its own name. */
  lemma GroupParam(m: map<string, Value>, toks: seq<string>, base: nat, i: nat)
    requires i < |toks|
    ensures NatToString(base + i) in Bind(m, TokenBinds(toks, base))
    ensures Bind(m, TokenBinds(toks, base))[NatToString(base + i)] == Str("%" + toks[i] + "%")
  {
    var bs := TokenBinds(toks, base);
    forall a, b | 0 <= a < b < |bs| ensures bs[a].0 != bs[b].0 {
      NatToStringInjective(base + a, base + b);
    }
    BindDistinct(m, bs, i);
  }

  /** Group keys are numerals, so no alphabetic key clashes with them. */
  lemma GroupKeysNumeric(toks: seq<string>, base: nat, key: string)
    requires key != [] && !IsDigit(key[0])
    ensures key !in Keys(TokenBinds(toks, base))
  {
    if key in Keys(TokenBinds(toks, base)) {
      var i :| 0 <= i < |toks| && TokenBinds(toks, base)[i].0 == key;
      NatToStringDigits(base + i);
    }
  }

  // ----- Building a plan step by step -----------------------------------------

  /** The text and dictionary after the first k candidate clauses. */
  ghost predicate Built(cands: seq<Option<Clause>>, k: nat, q: string, p: map<string, Value>) {
    k <= |cands| && q == QueryText(Somes(cands[..k])) && p == Params(Somes(cands[..k]))
  }

  /** After a step that appends candidate k's text and applies its
    * bindings (or does nothing for an absent candidate), the text and the
    * dictionary are those of the first k + 1 candidates. */

  lemma Advance(cands: seq<Option<Clause>>, k: nat, q: string, p: map<string, Value>, q': string, p': map<string, Value>)
    requires k < |cands| && Built(cands, k, q, p)
    requires cands[k].None? ==> q' == q && p' == p
    requires cands[k].Some? ==> q' == q + Render(cands[k].value.sql) && p' == Bind(p, cands[k].value.binds)
    ensures Built(cands, k + 1, q', p')
  {
    SomesSnoc(cands, k);
    if cands[k].Some? {
      Extend(Somes(cands[..k]), cands[k].value);
    } else {
      assert Somes(cands[..k + 1]) == Somes(cands[..k]);
    }
  }

  /** One binding sets one key. */
  lemma BindOne(p: map<string, Value>, b: Binding)
    ensures Bind(p, [b]) == p[b.0 := b.1]
  {
    assert [b][1..] == [];
  }

  // ----- The text depends only on which clauses are present ------------------

  predicate SameShape(c1: seq<Option<Clause>>, c2: seq<Option<Clause>>) {
    |c1| == |c2|
    && forall k :: 0 <= k < |c1| ==> c1[k].Some? == c2[k].Some? && (c1[k].Some? ==> c1[k].value.sql == c2[k].value.sql)
  }

  lemma {:induction false} SameShapeText(c1: seq<Option<Clause>>, c2: seq<Option<Clause>>)
    requires SameShape(c1, c2)
    ensures QueryText(Somes(c1)) == QueryText(Somes(c2))
  {
    SameShapeFlatten(c1, c2);
  }

  lemma {:induction false} SameShapeFlatten(c1: seq<Option<Clause>>, c2: seq<Option<Clause>>)
    requires SameShape(c1, c2)
    ensures Flatten(Somes(c1)) == Flatten(Somes(c2))
  {
    if c1 != [] {
      assert SameShape(c1[1..], c2[1..]) by {
        forall k | 0 <= k < |c1| - 1
          ensures c1[1..][k].Some? == c2[1..][k].Some? && (c1[1..][k].Some? ==> c1[1..][k].value.sql == c2[1..][k].value.sql)
        {
          assert c1[1..][k] == c1[k + 1] && c2[1..][k] == c2[k + 1];
        }
      }
      SameShapeFlatten(c1[1..], c2[1..]);
      if c1[0].Some? {
        FlattenCons(c1[0].value, Somes(c1[1..]));
        FlattenCons(c2[0].value, Somes(c2[1..]));
      } else {
        assert Somes(c1) == Somes(c1[1..]) && Somes(c2) == Somes(c2[1..]);
      }
    }
  }

  /** Every name a clause uses is among the names of the whole plan. */
  lemma {:induction false} FlattenNamesAt(plan: seq<Clause>, i: nat, n: string)
    requires i < |plan| && n in Names(plan[i].sql)
    ensures n in Names(Flatten(plan))
    decreases |plan|
  {
    NamesConcat(plan[0].sql, Flatten(plan[1..]));
    if i > 0 {
      assert plan[1..][i - 1] == plan[i];
      FlattenNamesAt(plan[1..], i - 1, n);
    }
  }

  lemma FlattenCons(c: Clause, plan: seq<Clause>)
    ensures Flatten([c] + plan) == c.sql + Flatten(plan)
  {
    assert ([c] + plan)[0] == c && ([c] + plan)[1..] == plan;
  }
}
