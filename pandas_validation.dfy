/** validate_with_pandas.py: three hard-coded checks over the customer table, one
    outcome record each, then the statistics and the overall success flag. */
module PandasValidation {
  import opened PyRuntime
  import opened EmailPattern
  import opened Frame
  import opened Expectations

  const MinAge := 18
  const MaxAge := 60
  const ValidCountries: seq<string> := ["India", "USA", "UK"]
  /** `failures[:10]` */
  const SampleSize := 10

  /** `validate_email`: the cell is first turned into its `str()` form. */
  predicate ValidateEmail(v: Value)
  {
    PatternMatches(PyStr(v))
  }

  predicate EmailUnexpected(v: Value) { !ValidateEmail(v) }

  /** `(age >= 18) & (age <= 60)`: both comparisons are false for a missing age. */
  predicate AgeInRange(v: Value)
  {
    v.Int? && MinAge <= v.i <= MaxAge
  }

  predicate AgeUnexpected(v: Value) { !AgeInRange(v) }

  /** `~isin(valid_countries)`: exact, case-sensitive equality with a listed name. */
  predicate CountryUnexpected(v: Value)
  {
    !(v.Str? && v.s in ValidCountries)
  }

  /** The record the email and age checks build: row-order failures, the first ten kept. */
  function SampledOutcome(expectationType: string, col: seq<Value>, bad: Value -> bool,
                          column: string, description: string): Outcome
    requires |col| > 0
  {
    var failures := Unexpected(col, bad);
    Outcome(expectationType, |failures| == 0, |col|, |failures|,
      Percent(|failures|, |col|), failures[..Min(SampleSize, |failures|)],
      column, description)
  }

  function EmailOutcome(emails: seq<Value>): Outcome
    requires |emails| > 0
  {
    SampledOutcome("valid_email_format", emails, EmailUnexpected, "email", "Check if email format is valid")
  }

  function AgeOutcome(ages: seq<Value>): Outcome
    requires |ages| > 0
  {
    SampledOutcome("valid_age_range", ages, AgeUnexpected, "age", "Check if age is between 18 and 60")
  }

  /** The count is taken over all failing rows; the list holds `unique()` values, uncapped. */
  function CountryOutcome(countries: seq<Value>): Outcome
    requires |countries| > 0
  {
    var failing := Unexpected(countries, CountryUnexpected);
    var failures := Distinct(failing);
    Outcome("valid_country", |failures| == 0, |countries|, |failing|,
      Percent(|failing|, |countries|), failures,
      "country", "Check if country is in ['India', 'USA', 'UK']")
  }

  /** The table passes every lookup and comparison `validate_data` makes. */
  predicate Checkable(df: DataFrame)
  {
    && "email" in df.columns && df.length > 0
    && "age" in df.columns && !HoldsText(df.columns["age"])
    && "country" in df.columns
  }

  /** `validate_data` from the read table to the returned `results`: the outcomes are
      appended in the order email, age, country, then the statistics and the overall
      flag are overwritten. Each exception the script can raise is returned instead.
      On a header-only table `df['email'].apply(...)` is an empty mask of `object` dtype,
      which pandas reads as an empty list of column labels: `df[~email_validation]` has
      no columns, and `['email']` raises `KeyError` before the division by `len(df)`. */
  method ValidateData(df: DataFrame) returns (r: Result<ValidationResults>)
    requires df.WellFormed()
    ensures "email" !in df.columns ==> r == Err(KeyError("email"))
    ensures "email" in df.columns && df.length == 0 ==> r == Err(KeyError("email"))
    ensures "email" in df.columns && df.length > 0 && "age" !in df.columns ==> r == Err(KeyError("age"))
    ensures ("email" in df.columns && df.length > 0 && "age" in df.columns && HoldsText(df.columns["age"]))
      ==> r == Err(TypeError)
    ensures ("email" in df.columns && df.length > 0 && "age" in df.columns && !HoldsText(df.columns["age"])
      && "country" !in df.columns) ==> r == Err(KeyError("country"))
    ensures r.Ok? <==> Checkable(df)
    ensures r.Ok? ==>
      var exps := r.value.expectations;
      && exps == [EmailOutcome(df.columns["email"]), AgeOutcome(df.columns["age"]), CountryOutcome(df.columns["country"])]
      && r.value.statistics == Statistics(Some(df.length), |exps|, NumSuccessful(exps))
      && r.value.success == Some(AllSucceeded(exps))
  {
    var expectations: seq<Outcome> := [];
    var statistics := Statistics(Some(df.length), 0, 0);

    var emails :- Column(df, "email");
    if df.length == 0 {
      return Err(KeyError("email"));
    }
    expectations := expectations + [EmailOutcome(emails)];

    var ages :- Column(df, "age");
    if HoldsText(ages) {
      return Err(TypeError);
    }
    expectations := expectations + [AgeOutcome(ages)];

    var countries :- Column(df, "country");
    expectations := expectations + [CountryOutcome(countries)];

    var successful := CountSuccessful(expectations);
    statistics := statistics.(evaluatedExpectations := |expectations|, successfulExpectations := successful);
    var success := AllSuccessful(expectations);
    r := Ok(ValidationResults(expectations, statistics, Some(success)));
  }

  // ---------------------------------------------------------------------------
  // Properties of the checks

  /** A cell that is not text never passes: its `str()` ("nan", or digits) has no `@`. */
  lemma NonTextEmailFails(v: Value)
    requires !v.Str?
    ensures EmailUnexpected(v)
  {
    NoAtSignNoMatch(PyStr(v));
  }

  /** An accepted e-mail cell is text with exactly one `@`. */
  lemma AcceptedEmailHasOneAtSign(v: Value)
    requires ValidateEmail(v)
    ensures v.Str? && exists k :: SoleAtSign(v.s, k)
  {
    if !v.Str? {
      NonTextEmailFails(v);
    }
    AcceptedHasOneAtSign(PyStr(v));
  }

  /** A missing age is flagged; a present one is flagged exactly outside 18..60. */
  lemma AgeUnexpectedIff(v: Value)
    requires !v.Str?
    ensures AgeUnexpected(v) <==> v.NaN? || v.i < MinAge || v.i > MaxAge
  {
  }

  /** The email and age outcomes: one failure per failing row, success exactly when no
      row fails, the percentage of failing rows, and the first ten failures in row order. */
  lemma SampledOutcomeFacts(expectationType: string, col: seq<Value>, bad: Value -> bool,
                            column: string, description: string)
    requires |col| > 0
    ensures var o := SampledOutcome(expectationType, col, bad, column, description);
      && o.elementCount == |col|
      && o.unexpectedCount == |FailingRows(col, bad)| <= |col|
      && (o.success <==> forall i :: 0 <= i < |col| ==> !bad(col[i]))
      && (o.success <==> o.unexpectedCount == 0)
      && o.unexpectedPercent == Percent(o.unexpectedCount, |col|)
      && 0.0 <= o.unexpectedPercent <= 100.0 && (o.unexpectedPercent == 0.0 <==> o.success)
      && |o.partialUnexpectedList| == Min(SampleSize, o.unexpectedCount)
      && o.partialUnexpectedList <= Unexpected(col, bad)
  {
    var o := SampledOutcome(expectationType, col, bad, column, description);
    var u := Unexpected(col, bad);
    assert o.unexpectedCount == |u| && o.success == (|u| == 0);
    assert o.partialUnexpectedList == u[..Min(SampleSize, |u|)];
    assert o.unexpectedPercent == Percent(|u|, |col|);
    UnexpectedCountsFailingRows(col, bad);
    NoUnexpectedIffAllPass(col, bad);
  }

  /** The country outcome: every failing row counts, duplicates included, while the list
      holds each failing value once, in order of first occurrence, with no cap. */
  lemma CountryOutcomeFacts(countries: seq<Value>)
    requires |countries| > 0
    ensures var o := CountryOutcome(countries);
      var failing := Unexpected(countries, CountryUnexpected);
      && o.unexpectedCount == |FailingRows(countries, CountryUnexpected)|
      && (o.success <==> o.unexpectedCount == 0)
      && (o.success <==> forall i :: 0 <= i < |countries| ==> !CountryUnexpected(countries[i]))
      && (forall x :: x in o.partialUnexpectedList <==> x in countries && CountryUnexpected(x))
      && (forall i, j :: 0 <= i < j < |o.partialUnexpectedList| ==>
            o.partialUnexpectedList[i] != o.partialUnexpectedList[j]
            && IndexOf(failing, o.partialUnexpectedList[i]) < IndexOf(failing, o.partialUnexpectedList[j]))
  {
    var failing := Unexpected(countries, CountryUnexpected);
    UnexpectedCountsFailingRows(countries, CountryUnexpected);
    NoUnexpectedIffAllPass(countries, CountryUnexpected);
    DistinctKeepsFirstOccurrenceOrder(failing);
    forall x
      ensures x in failing <==> x in countries && CountryUnexpected(x)
    {
      UnexpectedMembership(countries, CountryUnexpected, x);
    }
    if failing != [] {
      assert failing[0] in Distinct(failing);
    }
  }

  /** The country list is not capped: eleven distinct unknown countries are all listed,
      where the other two checks would list ten. */
  lemma CountryListIsUncapped()
    ensures var countries := seq(11, i requires 0 <= i => Str(NatToDecimal(i)));
      |CountryOutcome(countries).partialUnexpectedList| == 11
  {
    var countries := seq(11, i requires 0 <= i => Str(NatToDecimal(i)));
    forall i | 0 <= i < 11
      ensures CountryUnexpected(countries[i])
    {
      assert IsDigit(countries[i].s[0]);
    }
    UnexpectedAllBad(countries, CountryUnexpected);
    forall i, j | 0 <= i < j < 11
      ensures countries[i] != countries[j]
    {
      NatToDecimalRoundTrip(i);
      NatToDecimalRoundTrip(j);
    }
    DistinctOfDuplicateFree(countries);
  }

  /** The overall flag is true exactly when every check succeeded, which is exactly when
      the successful count equals the evaluated count. */
  lemma OverallSuccessIffAllCounted(res: ValidationResults)
    requires res.success == Some(AllSucceeded(res.expectations))
    requires res.statistics.evaluatedExpectations == |res.expectations|
    requires res.statistics.successfulExpectations == NumSuccessful(res.expectations)
    ensures res.success == Some(res.statistics.successfulExpectations == res.statistics.evaluatedExpectations)
    ensures res.statistics.successfulExpectations <= res.statistics.evaluatedExpectations
  {
    AllSucceededIffAllCounted(res.expectations);
  }
}
