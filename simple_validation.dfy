/** simple_validate.py: the same three checks as validate_with_pandas.py, written
    differently: no `str()` coercion of e-mail cells, an age test that lets missing
    ages through, a guarded percentage, a capped set of distinct countries, no overall
    flag, and a console summary that shows three examples per failed check. */
module SimpleValidation {
  import opened PyRuntime
  import opened EmailPattern
  import opened Frame
  import opened Expectations
  import PandasValidation

  const MinAge := 18
  const MaxAge := 60
  const ValidCountries: seq<string> := ["India", "USA", "UK"]
  /** `[:10]` on every sample list */
  const SampleSize := 10
  /** `[:3]` on the console examples */
  const ConsoleExamples := 3

  /** `validate_email(email)`: `re.match` on the cell itself; only text is accepted
      as an argument, so `ValidateData` raises `TypeError` before using this on
      anything else. */
  predicate EmailUnexpected(v: Value)
  {
    !(v.Str? && PatternMatches(v.s))
  }

  /** `(age < 18) | (age > 60)`: both comparisons are false for a missing age. */
  predicate AgeUnexpected(v: Value)
  {
    v.Int? && (v.i < MinAge || v.i > MaxAge)
  }

  /** `~isin(valid_countries)` */
  predicate CountryUnexpected(v: Value)
  {
    !(v.Str? && v.s in ValidCountries)
  }

  /** `(count / len(df)) * 100 if len(df) > 0 else 0` */
  function GuardedPercent(count: nat, n: nat): real
  {
    if n > 0 then Percent(count, n) else 0.0
  }

  /** The record the email and age checks build: row-order failures, the first ten kept. */
  function SampledOutcome(expectationType: string, col: seq<Value>, bad: Value -> bool,
                          column: string, description: string): Outcome
  {
    var failures := Unexpected(col, bad);
    Outcome(expectationType, |failures| == 0, |col|, |failures|,
      GuardedPercent(|failures|, |col|), failures[..Min(SampleSize, |failures|)],
      column, description)
  }

  function EmailOutcome(emails: seq<Value>): Outcome
  {
    SampledOutcome("email_format_validation", emails, EmailUnexpected, "email", "Check if email format is valid")
  }

  function AgeOutcome(ages: seq<Value>): Outcome
  {
    SampledOutcome("age_range_validation", ages, AgeUnexpected, "age", "Check if age is between 18 and 60")
  }

  /** `list(set(invalid_countries))[:10]`. Python's set order is not specified; the
      model lists first occurrences first, and nothing below depends on that order. */
  function CountrySample(failing: seq<Value>): seq<Value>
  {
    var unique := Distinct(failing);
    unique[..Min(SampleSize, |unique|)]
  }

  function CountryOutcome(countries: seq<Value>): Outcome
  {
    var failing := Unexpected(countries, CountryUnexpected);
    Outcome("country_validation", |failing| == 0, |countries|, |failing|,
      GuardedPercent(|failing|, |countries|), CountrySample(failing),
      "country", "Check if country is in the allowed list")
  }

  /** The table passes every lookup and call `validate_data` makes. */
  predicate Checkable(df: DataFrame)
  {
    && "email" in df.columns && AllText(df.columns["email"]) && df.length > 0
    && "age" in df.columns && !HoldsText(df.columns["age"])
    && "country" in df.columns
  }

  /** `validate_data` up to the file write: the outcomes in the order email, age,
      country, then the two statistics overwritten in place. As in validate_with_pandas.py,
      the empty mask of a header-only table selects no columns, so `['email']` raises
      `KeyError` and the `len(df) > 0` guards are never reached with an empty table. */
  method ValidateData(df: DataFrame) returns (r: Result<ValidationResults>)
    requires df.WellFormed()
    ensures "email" !in df.columns ==> r == Err(KeyError("email"))
    ensures ("email" in df.columns && !AllText(df.columns["email"])) ==> r == Err(TypeError)
    ensures "email" in df.columns && df.length == 0 ==> r == Err(KeyError("email"))
    ensures ("email" in df.columns && AllText(df.columns["email"]) && df.length > 0 && "age" !in df.columns)
      ==> r == Err(KeyError("age"))
    ensures ("email" in df.columns && AllText(df.columns["email"]) && df.length > 0 && "age" in df.columns
      && HoldsText(df.columns["age"])) ==> r == Err(TypeError)
    ensures ("email" in df.columns && AllText(df.columns["email"]) && df.length > 0 && "age" in df.columns
      && !HoldsText(df.columns["age"]) && "country" !in df.columns) ==> r == Err(KeyError("country"))
    ensures r.Ok? <==> Checkable(df)
    ensures r.Ok? ==>
      var exps := r.value.expectations;
      && exps == [EmailOutcome(df.columns["email"]), AgeOutcome(df.columns["age"]), CountryOutcome(df.columns["country"])]
      && r.value.statistics == Statistics(None, |exps|, NumSuccessful(exps))
      && r.value.success == None
  {
    var expectations: seq<Outcome> := [];
    var statistics := Statistics(None, 0, 0);

    var emails :- Column(df, "email");
    if !AllText(emails) {
      return Err(TypeError);
    }
    if df.length == 0 {
      return Err(KeyError("email"));
    }
    expectations := expectations + [EmailOutcome(emails)];

    var ages :- Column(df, "age");
    if HoldsText(ages) {
      return Err(TypeError);
    }
    expectations := expectations + [AgeOutcome(ages)];

    var countries :- Column(df, "country");
    expectations := expectations + [CountryOutcome(countries)];

    statistics := statistics.(evaluatedExpectations := |expectations|);
    var successful := CountSuccessful(expectations);
    statistics := statistics.(successfulExpectations := successful);
    r := Ok(ValidationResults(expectations, statistics, None));
  }

  // ---------------------------------------------------------------------------
  // Properties of the checks

  /** The email and age outcomes: one failure per failing row, success exactly when no
      row fails, the guarded percentage, and the first ten failures in row order. */
  lemma SampledOutcomeFacts(expectationType: string, col: seq<Value>, bad: Value -> bool,
                            column: string, description: string)
    ensures var o := SampledOutcome(expectationType, col, bad, column, description);
      && o.elementCount == |col|
      && o.unexpectedCount == |FailingRows(col, bad)| <= |col|
      && (o.success <==> forall i :: 0 <= i < |col| ==> !bad(col[i]))
      && (o.success <==> o.unexpectedCount == 0)
      && (|col| > 0 ==> o.unexpectedPercent == Percent(o.unexpectedCount, |col|))
      && (|col| == 0 ==> o.unexpectedPercent == 0.0)
      && 0.0 <= o.unexpectedPercent <= 100.0
      && |o.partialUnexpectedList| == Min(SampleSize, o.unexpectedCount)
      && o.partialUnexpectedList <= Unexpected(col, bad)
  {
    var o := SampledOutcome(expectationType, col, bad, column, description);
    var u := Unexpected(col, bad);
    assert o.unexpectedCount == |u| && o.success == (|u| == 0);
    assert o.partialUnexpectedList == u[..Min(SampleSize, |u|)];
    assert o.unexpectedPercent == GuardedPercent(|u|, |col|);
    UnexpectedCountsFailingRows(col, bad);
    NoUnexpectedIffAllPass(col, bad);
  }

  /** The country sample: distinct failing values, as many as there are up to ten, and
      all of them when there are at most ten; success exactly when no row fails, every
      failing row counted. */
  lemma CountryOutcomeFacts(countries: seq<Value>)
    ensures var o := CountryOutcome(countries);
      var sample := o.partialUnexpectedList;
      var distinct := Distinct(Unexpected(countries, CountryUnexpected));
      && o.unexpectedCount == |FailingRows(countries, CountryUnexpected)|
      && (o.success <==> o.unexpectedCount == 0)
      && (o.success <==> forall i :: 0 <= i < |countries| ==> !CountryUnexpected(countries[i]))
      && (forall i, j :: 0 <= i < j < |sample| ==> sample[i] != sample[j])
      && (forall x :: x in sample ==> x in countries && CountryUnexpected(x))
      && |sample| == Min(SampleSize, |distinct|)
      && (|distinct| <= SampleSize ==> forall x :: x in countries && CountryUnexpected(x) ==> x in sample)
  {
    var failing := Unexpected(countries, CountryUnexpected);
    UnexpectedCountsFailingRows(countries, CountryUnexpected);
    NoUnexpectedIffAllPass(countries, CountryUnexpected);
    var sample := CountryOutcome(countries).partialUnexpectedList;
    var distinct := Distinct(failing);
    forall x | x in sample
      ensures x in countries && CountryUnexpected(x)
    {
      UnexpectedMembership(countries, CountryUnexpected, x);
    }
    if |distinct| <= SampleSize {
      assert sample == distinct;
      forall x | x in countries && CountryUnexpected(x)
        ensures x in sample
      {
        UnexpectedMembership(countries, CountryUnexpected, x);
      }
    }
  }

  /** On every table `ValidateData` accepts, the `len(df) > 0` guard holds, so each
      percentage is the plain ratio of the failing rows to the table's rows, as in
      validate_with_pandas.py. */
  lemma GuardAlwaysHolds(df: DataFrame)
    requires df.WellFormed() && Checkable(df)
    ensures var exps := [EmailOutcome(df.columns["email"]), AgeOutcome(df.columns["age"]), CountryOutcome(df.columns["country"])];
      forall i :: 0 <= i < 3 ==>
        exps[i].elementCount == df.length > 0
        && exps[i].unexpectedPercent == Percent(exps[i].unexpectedCount, df.length)
  {
    assert |df.columns["email"]| == |df.columns["age"]| == |df.columns["country"]| == df.length;
  }

  /** The two scripts disagree on ages only on missing values: validate_with_pandas.py
      flags them, this script does not. */
  lemma AgeChecksDifferOnlyOnMissing(ages: seq<Value>)
    requires !HoldsText(ages)
    ensures FailingRows(ages, PandasValidation.AgeUnexpected)
         == FailingRows(ages, AgeUnexpected) + (set i | 0 <= i < |ages| && ages[i].NaN?)
    ensures forall i :: 0 <= i < |ages| && ages[i].NaN? ==>
      i in FailingRows(ages, PandasValidation.AgeUnexpected) && i !in FailingRows(ages, AgeUnexpected)
  {
  }

  /** On text cells the two e-mail checks agree; on anything else validate_with_pandas.py
      reports a failure where this script raises `TypeError`. */
  lemma EmailChecksAgreeOnText(v: Value)
    ensures v.Str? ==> (EmailUnexpected(v) <==> PandasValidation.EmailUnexpected(v))
    ensures !v.Str? ==> PandasValidation.EmailUnexpected(v)
  {
    if !v.Str? {
      PandasValidation.NonTextEmailFails(v);
    }
  }

  /** The successful count never exceeds the evaluated count. */
  lemma SuccessfulAtMostEvaluated(res: ValidationResults)
    requires res.statistics == Statistics(None, |res.expectations|, NumSuccessful(res.expectations))
    ensures res.statistics.successfulExpectations <= res.statistics.evaluatedExpectations
    ensures res.statistics.successfulExpectations == res.statistics.evaluatedExpectations
      <==> AllSucceeded(res.expectations)
  {
    AllSucceededIffAllCounted(res.expectations);
  }

  // ---------------------------------------------------------------------------
  // Console summary

  function StatusWord(success: bool): string
  {
    if success then "PASSED" else "FAILED"
  }

  /** `', '.join(map(str, values))` */
  function JoinShown(values: seq<Value>): string
  {
    if |values| == 0 then ""
    else if |values| == 1 then PyStr(values[0])
    else JoinShown(values[..|values| - 1]) + ", " + PyStr(values[|values| - 1])
  }

  /** The lines printed for one outcome: its status, and for a failure the count and,
      when there are samples, the first three of them. */
  function OutcomeLines(o: Outcome): seq<string>
  {
    var values := o.partialUnexpectedList;
    var status := ["- " + o.description + ": " + StatusWord(o.success)];
    var count := if o.success then [] else ["  - " + Decimal(o.unexpectedCount) + " unexpected values found"];
    var examples :=
      if o.success || values == [] then []
      else ["  - Examples: " + JoinShown(values[..Min(ConsoleExamples, |values|)]) + "..."];
    status + count + examples
  }

  function DetailLines(exps: seq<Outcome>): seq<string>
  {
    if exps == [] then [] else DetailLines(exps[..|exps| - 1]) + OutcomeLines(exps[|exps| - 1])
  }

  /** The number of lines an outcome adds: 1, plus 1 when it failed, plus 1 more when it
      failed with samples. */
  function LinesFor(o: Outcome): nat
  {
    1 + (if o.success then 0 else 1 + (if o.partialUnexpectedList == [] then 0 else 1))
  }

  function TotalLinesFor(exps: seq<Outcome>): nat
  {
    if exps == [] then 0 else TotalLinesFor(exps[..|exps| - 1]) + LinesFor(exps[|exps| - 1])
  }

  lemma {:induction false} DetailLinesCount(exps: seq<Outcome>)
    ensures |DetailLines(exps)| == TotalLinesFor(exps)
    ensures |DetailLines(exps)| >= |exps|
  {
    if exps != [] {
      DetailLinesCount(exps[..|exps| - 1]);
    }
  }

  /** The console output of `validate_data` after the file is saved, one line per
      `print` call, in order. */
  method PrintSummary(res: ValidationResults) returns (lines: seq<string>)
    ensures lines == [
      "Validation completed. Results saved to validation_results.json",
      "Total expectations: " + Decimal(res.statistics.evaluatedExpectations),
      "Successful expectations: " + Decimal(res.statistics.successfulExpectations),
      "\nDetailed Results:"] + DetailLines(res.expectations)
  {
    lines := [
      "Validation completed. Results saved to validation_results.json",
      "Total expectations: " + Decimal(res.statistics.evaluatedExpectations),
      "Successful expectations: " + Decimal(res.statistics.successfulExpectations),
      "\nDetailed Results:"];
    var details := PrintDetails(res.expectations);
    lines := lines + details;
  }

  /** The loop over the outcomes that prints their details. */
  method PrintDetails(exps: seq<Outcome>) returns (lines: seq<string>)
    ensures lines == DetailLines(exps)
  {
    lines := [];
    for i := 0 to |exps|
      invariant lines == DetailLines(exps[..i])
    {
      var exp := exps[i];
      assert exps[..i + 1][..i] == exps[..i];
      var printed := ["- " + exp.description + ": " + StatusWord(exp.success)];
      if !exp.success {
        printed := printed + ["  - " + Decimal(exp.unexpectedCount) + " unexpected values found"];
        var values := exp.partialUnexpectedList;
        if values != [] {
          printed := printed + ["  - Examples: " + JoinShown(values[..Min(ConsoleExamples, |values|)]) + "..."];
        }
      }
      assert printed == OutcomeLines(exp);
      lines := lines + printed;
    }
    assert exps[..|exps|] == exps;
  }
}
