/** What both validation scripts produce: one outcome record per check, the statistics
    over them, and the document they serialise with `json.dump`. Also the column
    operations the checks share: selecting the failing cells, de-duplicating them,
    and the percentage of failing rows. */
module Expectations {
  import opened PyRuntime
  import opened Frame
  import opened Document

  /** One entry of `expectations`: the `result` and `meta` dictionaries flattened. */
  datatype Outcome = Outcome(
    expectationType: string,
    success: bool,
    elementCount: nat,
    unexpectedCount: nat,
    unexpectedPercent: real,
    partialUnexpectedList: seq<Value>,
    column: string,
    description: string)

  /** `statistics`; only validate_with_pandas.py writes `total_records`. */
  datatype Statistics = Statistics(
    totalRecords: Option<nat>,
    evaluatedExpectations: nat,
    successfulExpectations: nat)

  /** `validation_results`; only validate_with_pandas.py writes the overall `success`. */
  datatype ValidationResults = ValidationResults(
    expectations: seq<Outcome>,
    statistics: Statistics,
    success: Option<bool>)

  // ---------------------------------------------------------------------------
  // Failing cells of a column

  /** `df[~mask][col].tolist()`: the cells the check rejects, in row order. */
  function Unexpected(col: seq<Value>, bad: Value -> bool): (u: seq<Value>)
    ensures |u| <= |col|
  {
    if col == [] then []
    else Unexpected(col[..|col| - 1], bad) + (if bad(col[|col| - 1]) then [col[|col| - 1]] else [])
  }

  /** The rows whose cell the check rejects. */
  ghost function FailingRows(col: seq<Value>, bad: Value -> bool): set<int>
  {
    set i | 0 <= i < |col| && bad(col[i])
  }

  /** One failing value per failing row: duplicates are kept. */
  lemma {:induction false} UnexpectedCountsFailingRows(col: seq<Value>, bad: Value -> bool)
    ensures |Unexpected(col, bad)| == |FailingRows(col, bad)|
  {
    if col == [] {
      assert FailingRows(col, bad) == {};
    } else {
      var n := |col| - 1;
      var init := col[..n];
      UnexpectedCountsFailingRows(init, bad);
      var rest := FailingRows(init, bad);
      var last: set<int> := if bad(col[n]) then {n} else {};
      assert FailingRows(col, bad) == rest + last by {
        forall i | 0 <= i < n
          ensures col[i] == init[i]
        {
        }
      }
      assert rest !! last;
    }
  }

  /** A value is reported exactly when some row holds it and the check rejects it. */
  lemma {:induction false} UnexpectedMembership(col: seq<Value>, bad: Value -> bool, x: Value)
    ensures x in Unexpected(col, bad) <==> x in col && bad(x)
  {
    if col != [] {
      var init := col[..|col| - 1];
      UnexpectedMembership(init, bad, x);
      assert col == init + [col[|col| - 1]];
    }
  }

  /** Row order is kept: the failures of a concatenation are the concatenated failures. */
  lemma {:induction false} UnexpectedAppend(a: seq<Value>, b: seq<Value>, bad: Value -> bool)
    ensures Unexpected(a + b, bad) == Unexpected(a, bad) + Unexpected(b, bad)
  {
    if b != [] {
      var init := b[..|b| - 1];
      UnexpectedAppend(a, init, bad);
      assert (a + b)[..|a + b| - 1] == a + init;
    } else {
      assert a + b == a;
    }
  }

  /** No failure is reported exactly when every row passes. */
  lemma NoUnexpectedIffAllPass(col: seq<Value>, bad: Value -> bool)
    ensures Unexpected(col, bad) == [] <==> forall i :: 0 <= i < |col| ==> !bad(col[i])
  {
    var u := Unexpected(col, bad);
    if u != [] {
      UnexpectedMembership(col, bad, u[0]);
    }
    forall i | 0 <= i < |col| && bad(col[i])
      ensures u != []
    {
      UnexpectedMembership(col, bad, col[i]);
    }
  }

  /** When every row fails, every cell is reported. */
  lemma {:induction false} UnexpectedAllBad(col: seq<Value>, bad: Value -> bool)
    requires forall i :: 0 <= i < |col| ==> bad(col[i])
    ensures Unexpected(col, bad) == col
  {
    if col != [] {
      UnexpectedAllBad(col[..|col| - 1], bad);
    }
  }

  // ---------------------------------------------------------------------------
  // De-duplication

  /** Position of the first occurrence of `x`. */
  function IndexOf(xs: seq<Value>, x: Value): (k: nat)
    requires x in xs
    ensures k < |xs| && xs[k] == x
    ensures forall i :: 0 <= i < k ==> xs[i] != x
  {
    if xs[0] == x then 0 else 1 + IndexOf(xs[1..], x)
  }

  /** Each value once, in order of first occurrence (`Series.unique()`). */
  function Distinct(xs: seq<Value>): (d: seq<Value>)
    ensures |d| <= |xs|
    ensures forall x :: x in d <==> x in xs
    ensures forall i, j :: 0 <= i < j < |d| ==> d[i] != d[j]
  {
    if xs == [] then []
    else
      var init := xs[..|xs| - 1];
      var x := xs[|xs| - 1];
      assert xs == init + [x];
      var d := Distinct(init);
      if x in d then d else d + [x]
  }

  /** De-duplication leaves a duplicate-free sequence as it is. */
  lemma {:induction false} DistinctOfDuplicateFree(xs: seq<Value>)
    requires forall i, j :: 0 <= i < j < |xs| ==> xs[i] != xs[j]
    ensures Distinct(xs) == xs
  {
    if xs != [] {
      var init := xs[..|xs| - 1];
      DistinctOfDuplicateFree(init);
      assert xs[|xs| - 1] !in init;
    }
  }

  lemma IndexOfExtend(xs: seq<Value>, x: Value, y: Value)
    requires y in xs
    ensures y in xs + [x] && IndexOf(xs + [x], y) == IndexOf(xs, y)
  {
    var k := IndexOf(xs, y);
    var k' := IndexOf(xs + [x], y);
    assert (xs + [x])[k] == y;
  }

  /** The de-duplicated values appear in the order their first occurrences do. */
  lemma {:induction false} DistinctKeepsFirstOccurrenceOrder(xs: seq<Value>)
    ensures forall i, j :: 0 <= i < j < |Distinct(xs)| ==>
      IndexOf(xs, Distinct(xs)[i]) < IndexOf(xs, Distinct(xs)[j])
  {
    if xs != [] {
      var init := xs[..|xs| - 1];
      var x := xs[|xs| - 1];
      assert xs == init + [x];
      DistinctKeepsFirstOccurrenceOrder(init);
      var d0 := Distinct(init);
      var d := Distinct(xs);
      forall y | y in d0
        ensures IndexOf(xs, y) == IndexOf(init, y)
      {
        IndexOfExtend(init, x, y);
      }
      if x !in d0 {
        assert IndexOf(xs, x) == |xs| - 1;
        assert d == d0 + [x];
        forall i, j | 0 <= i < j < |d|
          ensures IndexOf(xs, d[i]) < IndexOf(xs, d[j])
        {
          if j == |d| - 1 {
            assert d[i] in d0;
            assert d[i] in init;
          } else {
            assert d[i] == d0[i] && d[j] == d0[j];
          }
        }
      }
    }
  }

  // ---------------------------------------------------------------------------
  // Percentages and aggregation

  /** `(count / n) * 100`, computed exactly. */
  function Percent(count: nat, n: nat): (p: real)
    requires n > 0
    ensures p * n as real == 100.0 * count as real
    ensures p == 0.0 <==> count == 0
    ensures count <= n ==> 0.0 <= p <= 100.0
    ensures p == 100.0 <==> count == n
  {
    var p := (count as real / n as real) * 100.0;
    assert p * n as real == 100.0 * count as real;
    assert p == 100.0 ==> 100.0 * n as real == 100.0 * count as real;
    p
  }

  /** The number of outcomes whose `success` is true. */
  function NumSuccessful(exps: seq<Outcome>): (n: nat)
    ensures n <= |exps|
  {
    if exps == [] then 0
    else NumSuccessful(exps[..|exps| - 1]) + (if exps[|exps| - 1].success then 1 else 0)
  }

  predicate AllSucceeded(exps: seq<Outcome>)
  {
    forall i :: 0 <= i < |exps| ==> exps[i].success
  }

  /** Every outcome succeeded exactly when the successful count reaches the total. */
  lemma {:induction false} AllSucceededIffAllCounted(exps: seq<Outcome>)
    ensures AllSucceeded(exps) <==> NumSuccessful(exps) == |exps|
  {
    if exps != [] {
      var init := exps[..|exps| - 1];
      AllSucceededIffAllCounted(init);
      if AllSucceeded(exps) {
        assert AllSucceeded(init);
      }
      if NumSuccessful(exps) == |exps| {
        forall i | 0 <= i < |exps|
          ensures exps[i].success
        {
          if i < |init| {
            assert exps[i] == init[i];
          }
        }
      }
    }
  }

  /** `sum(1 for exp in expectations if exp["success"])`. */
  method CountSuccessful(exps: seq<Outcome>) returns (n: nat)
    ensures n == NumSuccessful(exps)
  {
    n := 0;
    for i := 0 to |exps|
      invariant n == NumSuccessful(exps[..i])
    {
      assert exps[..i + 1][..i] == exps[..i];
      if exps[i].success {
        n := n + 1;
      }
    }
    assert exps[..|exps|] == exps;
  }

  /** `all(exp["success"] for exp in expectations)`, stopping at the first failure. */
  method AllSuccessful(exps: seq<Outcome>) returns (b: bool)
    ensures b <==> AllSucceeded(exps)
  {
    var i := 0;
    while i < |exps|
      invariant 0 <= i <= |exps|
      invariant forall k :: 0 <= k < i ==> exps[k].success
    {
      if !exps[i].success {
        return false;
      }
      i := i + 1;
    }
    return true;
  }

  // ---------------------------------------------------------------------------
  // Serialisation

  function ValueToJson(v: Value): Json
  {
    match v
    case Str(s) => JStr(s)
    case Int(i) => JInt(i)
    case NaN => JNaN
  }

  function ValuesToJson(values: seq<Value>): (items: seq<Json>)
    ensures |items| == |values| && forall i :: 0 <= i < |values| ==> items[i] == ValueToJson(values[i])
  {
    seq(|values|, i requires 0 <= i < |values| => ValueToJson(values[i]))
  }

  function OutcomeToJson(o: Outcome): Json
  {
    JObj(map[
      "expectation_type" := JStr(o.expectationType),
      "success" := JBool(o.success),
      "result" := JObj(map[
        "element_count" := JInt(o.elementCount),
        "unexpected_count" := JInt(o.unexpectedCount),
        "unexpected_percent" := JFloat(o.unexpectedPercent),
        "partial_unexpected_list" := JArr(ValuesToJson(o.partialUnexpectedList))]),
      "meta" := JObj(map["column" := JStr(o.column), "description" := JStr(o.description)])])
  }

  function OutcomesToJson(exps: seq<Outcome>): (items: seq<Json>)
    ensures |items| == |exps| && forall i :: 0 <= i < |exps| ==> items[i] == OutcomeToJson(exps[i])
  {
    seq(|exps|, i requires 0 <= i < |exps| => OutcomeToJson(exps[i]))
  }

  /** `json.dump(results)`: the keys each script writes, and no others. */
  function ResultsToJson(res: ValidationResults): Json
  {
    var exps := res.expectations;
    var counts := map[
      "evaluated_expectations" := JInt(res.statistics.evaluatedExpectations),
      "successful_expectations" := JInt(res.statistics.successfulExpectations)];
    var statistics :=
      if res.statistics.totalRecords.Some? then counts["total_records" := JInt(res.statistics.totalRecords.value)]
      else counts;
    var validation := map[
      "expectations" := JArr(OutcomesToJson(exps)),
      "statistics" := JObj(statistics)];
    var validation' := if res.success.Some? then validation["success" := JBool(res.success.value)] else validation;
    JObj(map["validation_results" := JObj(validation')])
  }
}
