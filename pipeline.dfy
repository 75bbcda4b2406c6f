/** The two halves of the pipeline together: the document a validation script dumps is
    the document generate_report.py loads. */
module Pipeline {
  import opened PyRuntime
  import opened Document
  import opened Expectations
  import opened HtmlReport

  /** What the page shows of one outcome record after the JSON round trip. */
  function ViewOf(o: Outcome): ExpView
  {
    ExpView(o.success, o.description, o.expectationType, o.column,
      Decimal(o.elementCount), Decimal(o.unexpectedCount), FormatFixed(o.unexpectedPercent, 2),
      if o.success then [] else ValuesToJson(o.partialUnexpectedList))
  }

  function ViewsOf(exps: seq<Outcome>): (views: seq<ExpView>)
    ensures |views| == |exps| && forall i :: 0 <= i < |exps| ==> views[i] == ViewOf(exps[i])
  {
    seq(|exps|, i requires 0 <= i < |exps| => ViewOf(exps[i]))
  }

  /** Every serialised outcome is read back without error, field for field. */
  lemma OutcomeParses(o: Outcome)
    ensures ParseExpectation(OutcomeToJson(o)) == Ok(ViewOf(o))
  {
    var exp := OutcomeToJson(o);
    var meta := exp.fields["meta"];
    var result := exp.fields["result"];
    var list := result.fields["partial_unexpected_list"];
    assert Field(exp, "success") == Ok(JBool(o.success));
    assert Field(exp, "meta") == Ok(meta);
    assert Field(meta, "description") == Ok(JStr(o.description));
    assert Field(exp, "expectation_type") == Ok(JStr(o.expectationType));
    assert Field(meta, "column") == Ok(JStr(o.column));
    assert Field(exp, "result") == Ok(result);
    assert Field(result, "element_count") == Ok(JInt(o.elementCount));
    assert Field(result, "unexpected_count") == Ok(JInt(o.unexpectedCount));
    assert Field(result, "unexpected_percent") == Ok(JFloat(o.unexpectedPercent));
    ShownValuesOfOutcome(o);
  }

  /** A failed outcome's values are read back from its list; a passed one shows none. */
  lemma ShownValuesOfOutcome(o: Outcome)
    ensures ShownValues(o.success, OutcomeToJson(o).fields["result"]) == Ok(ViewOf(o).unexpectedValues)
  {
    var result := OutcomeToJson(o).fields["result"];
    if !o.success {
      assert Field(result, "partial_unexpected_list") == Ok(JArr(ValuesToJson(o.partialUnexpectedList)));
    }
  }

  /** The serialised list of outcomes is read back whole, in order. */
  lemma OutcomesParse(exps: seq<Outcome>)
    ensures ParseEach(OutcomesToJson(exps), ParseExpectation)
      == Ok(ViewsOf(exps))
  {
    var items := OutcomesToJson(exps);
    var views := ViewsOf(exps);
    forall i | 0 <= i < |items|
      ensures ParseExpectation(items[i]) == Ok(views[i])
    {
      OutcomeParses(exps[i]);
    }
    ParseEachAll(items, ParseExpectation, views);
  }

  /** The lookups the report makes in a dumped document find what was dumped. */
  lemma DocumentFields(res: ValidationResults)
    ensures var doc := ResultsToJson(res);
      && Field(doc, "validation_results").Ok?
      && var validation := Field(doc, "validation_results").value;
      && Field(validation, "statistics").Ok?
      && var statistics := Field(validation, "statistics").value;
      && Field(statistics, "evaluated_expectations") == Ok(JInt(res.statistics.evaluatedExpectations))
      && Field(statistics, "successful_expectations") == Ok(JInt(res.statistics.successfulExpectations))
      && Field(validation, "expectations") == Ok(JArr(OutcomesToJson(res.expectations)))
  {
  }

  /** A document either validation script writes turns into a page whose summary carries
      its statistics and whose blocks show its outcomes, in order. */
  lemma DocumentParses(res: ValidationResults)
    ensures ParseReport(ResultsToJson(res)) == Ok(ReportView(
      res.statistics.evaluatedExpectations, res.statistics.successfulExpectations,
      ViewsOf(res.expectations)))
  {
    DocumentFields(res);
    OutcomesParse(res.expectations);
  }

  /** Hence every such document passes the report's schema and yields a page. */
  lemma DocumentRenders(t: Template, res: ValidationResults, now: string)
    ensures WellFormedReport(ResultsToJson(res))
    ensures Render(t, ResultsToJson(res), now).Ok?
  {
    DocumentParses(res);
    RenderOkIff(t, ResultsToJson(res), now);
  }

  /** With the statistics both scripts write, the page shows a 100.0% success rate exactly
      when every check succeeded, and never more than 100%. */
  lemma PageRateIffAllSucceeded(res: ValidationResults)
    requires res.statistics.evaluatedExpectations == |res.expectations| > 0
    requires res.statistics.successfulExpectations == NumSuccessful(res.expectations)
    ensures var rate := SuccessRate(res.statistics.successfulExpectations, res.statistics.evaluatedExpectations);
      && 0.0 <= rate <= 100.0
      && (rate == 100.0 <==> AllSucceeded(res.expectations))
  {
    AllSucceededIffAllCounted(res.expectations);
    SuccessRateBounds(res.statistics.successfulExpectations, res.statistics.evaluatedExpectations);
  }
}
