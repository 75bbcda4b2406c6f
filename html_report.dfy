/** generate_report.py: reads the saved validation document and builds one HTML page —
    a header with the generation time, a summary panel, one block per expectation in
    document order, and a footer repeating the time. The page is a string grown with
    `+=`; the file is written once, after the whole string exists, so any missing key
    or ill-typed value leaves no file. Here the page is returned as `Ok(html)` and every
    exception as `Err`. */
module HtmlReport {
  import opened PyRuntime
  import opened Document

  // ---------------------------------------------------------------------------
  // Python's behaviour on loaded JSON values

  /** `j[key]` */
  function Field(j: Json, key: string): (r: Result<Json>)
    ensures r.Ok? <==> j.JObj? && key in j.fields
    ensures r.Ok? ==> r.value == j.fields[key]
  {
    match j
    case JObj(fields) => if key in fields then Ok(fields[key]) else Err(KeyError(key))
    case _ => Err(TypeError)
  }

  /** Python truthiness. */
  predicate Truthy(j: Json)
  {
    match j
    case JNull => false
    case JBool(b) => b
    case JInt(i) => i != 0
    case JFloat(r) => r != 0.0
    case JNaN => true
    case JStr(s) => s != ""
    case JArr(items) => items != []
    case JObj(fields) => |fields| != 0
  }

  /** `for x in j`: a list yields its items, a string its characters. An object yields
      its keys; only the empty object is modelled, a non-empty one is refused. */
  function Iterate(j: Json): Result<seq<Json>>
  {
    match j
    case JArr(items) => Ok(items)
    case JStr(s) => Ok(seq(|s|, i requires 0 <= i < |s| => JStr([s[i]])))
    case JObj(fields) => if |fields| == 0 then Ok([]) else Err(TypeError)
    case _ => Err(TypeError)
  }

  /** `str(j)` as an f-string inserts it: text is inserted verbatim, without escaping. */
  function Show(j: Json): string
  {
    match j
    case JNull => "None"
    case JBool(b) => if b then "True" else "False"
    case JInt(i) => Decimal(i)
    case JFloat(r) => ShowFloat(r)
    case JNaN => "nan"
    case JStr(s) => s
    case JArr(_) => "[...]"
    case JObj(_) => "{...}"
  }

  /** Values `format(j, ".2f")` accepts. */
  predicate Formattable(j: Json)
  {
    j.JInt? || j.JFloat? || j.JNaN? || j.JBool?
  }

  /** `format(j, ".<digits>f")`: text raises `ValueError`, other non-numbers `TypeError`. */
  function FormatNumber(j: Json, digits: nat): (r: Result<string>)
    ensures r.Ok? <==> Formattable(j)
  {
    match j
    case JInt(i) => Ok(FormatFixed(i as real, digits))
    case JFloat(r) => Ok(FormatFixed(r, digits))
    case JNaN => Ok("nan")
    case JBool(b) => Ok(FormatFixed(if b then 1.0 else 0.0, digits))
    case JStr(_) => Err(ValueError)
    case _ => Err(TypeError)
  }

  // ---------------------------------------------------------------------------
  // What the page shows of the document

  /** The fields of one expectation as the page shows them. */
  datatype ExpView = ExpView(
    success: bool,
    description: string,
    expectationType: string,
    column: string,
    elementCount: string,
    unexpectedCount: string,
    unexpectedPercent: string,
    unexpectedValues: seq<Json>)

  datatype ReportView = ReportView(total: int, successful: int, expectations: seq<ExpView>)

  /** The values listed for a failed expectation: `partial_unexpected_list` is only read
      when `success` is falsy, and only iterated when it is truthy. */
  function ShownValues(success: bool, result: Json): Result<seq<Json>>
  {
    if success then Ok([])
    else
      var list :- Field(result, "partial_unexpected_list");
      if Truthy(list) then Iterate(list) else Ok([])
  }

  /** The lookups of one loop iteration, in the order the f-strings make them. */
  function ParseExpectation(exp: Json): Result<ExpView>
  {
    var success :- Field(exp, "success");
    var meta :- Field(exp, "meta");
    var description :- Field(meta, "description");
    var expectationType :- Field(exp, "expectation_type");
    var column :- Field(meta, "column");
    var result :- Field(exp, "result");
    var elementCount :- Field(result, "element_count");
    var unexpectedCount :- Field(result, "unexpected_count");
    var percent :- Field(result, "unexpected_percent");
    var percentText :- FormatNumber(percent, 2);
    var values :- ShownValues(Truthy(success), result);
    Ok(ExpView(Truthy(success), Show(description), Show(expectationType), Show(column),
      Show(elementCount), Show(unexpectedCount), percentText, values))
  }

  /** `parse` applied to each item in order, stopping at the first one that raises. */
  function ParseEach<A, B>(items: seq<A>, parse: A -> Result<B>): Result<seq<B>>
  {
    if items == [] then Ok([])
    else
      var views :- ParseEach(items[..|items| - 1], parse);
      var view :- parse(items[|items| - 1]);
      Ok(views + [view])
  }

  /** Lines 10-14 and 144 of the script: the statistics, the subtraction that needs two
      integers, and the list of expectations. */
  function ParseReport(doc: Json): Result<ReportView>
  {
    var validation :- Field(doc, "validation_results");
    var statistics :- Field(validation, "statistics");
    var total :- Field(statistics, "evaluated_expectations");
    var successful :- Field(statistics, "successful_expectations");
    if !(total.JInt? && successful.JInt?) then Err(TypeError)
    else
      var expectations :- Field(validation, "expectations");
      var items :- Iterate(expectations);
      var views :- ParseEach(items, ParseExpectation);
      Ok(ReportView(total.i, successful.i, views))
  }

  // ---------------------------------------------------------------------------
  // The page

  /** `successful / total * 100 if total > 0 else 0` */
  function SuccessRate(successful: int, total: int): real
  {
    if total > 0 then (successful as real / total as real) * 100.0 else 0.0
  }

  /** The fixed text of the page, between the inserted values. The functions below take
      it as a parameter; `Html` is the text the script writes. */
  datatype Template = Template(
    head: string,
    summaryTotal: string, summaryPassed: string, summaryFailed: string, summaryRate: string, summaryEnd: string,
    blockOpen: string, headerOpen: string, badgeOpen: string, detailsOpen: string,
    rowOpen: string, rowMiddle: string, rowClose: string,
    typeHeader: string, columnHeader: string, elementsHeader: string, countHeader: string, percentHeader: string,
    valuesRowOpen: string, valuesRowClose: string, blockClose: string,
    footerOpen: string, footerClose: string)

  /** Stand-in for the fixed stylesheet of the page, which carries no data. */
  const StyleSheet := "<style>/* fixed report stylesheet */</style>"

  const Html := Template(
    head := "<!DOCTYPE html>\n<html lang=\"en\">\n<head>\n    <meta charset=\"UTF-8\">\n"
      + "    <meta name=\"viewport\" content=\"width=device-width, initial-scale=1.0\">\n"
      + "    <title>Data Quality Validation Report</title>\n    " + StyleSheet + "\n</head>\n<body>\n"
      + "    <div class=\"container\">\n        <div class=\"header\">\n"
      + "            <h1>Data Quality Validation Report</h1>\n            <p>Generated on: ",
    summaryTotal := "</p>\n        </div>\n        \n        <div class=\"summary\">\n            <h2>Summary</h2>\n"
      + "            <div style=\"display: flex; justify-content: space-around; margin: 20px 0;\">\n"
      + "                <div style=\"text-align: center;\">\n"
      + "                    <div style=\"font-size: 2em; font-weight: bold;\">",
    summaryPassed := "</div>\n                    <div>Total Expectations</div>\n                </div>\n"
      + "                <div style=\"text-align: center;\">\n"
      + "                    <div style=\"font-size: 2em; font-weight: bold; color: #28a745;\">",
    summaryFailed := "</div>\n                    <div>Passed</div>\n                </div>\n"
      + "                <div style=\"text-align: center;\">\n"
      + "                    <div style=\"font-size: 2em; font-weight: bold; color: #dc3545;\">",
    summaryRate := "</div>\n                    <div>Failed</div>\n                </div>\n"
      + "                <div style=\"text-align: center;\">\n"
      + "                    <div style=\"font-size: 2em; font-weight: bold;\">",
    summaryEnd := "%</div>\n                    <div>Success Rate</div>\n                </div>\n            </div>\n"
      + "        </div>\n        \n        <h2>Detailed Results</h2>\n        ",
    blockOpen := "\n        <div class=\"expectation ",
    headerOpen := "\">\n            <div class=\"expectation-header\">\n                <h3>",
    badgeOpen := "</h3>\n                <span class=\"status-badge ",
    detailsOpen := "</span>\n            </div>\n            <div class=\"expectation-details\">\n                <table>",
    rowOpen := "\n                    <tr>\n                        <th>",
    rowMiddle := "</th>\n                        <td>",
    rowClose := "</td>\n                    </tr>",
    typeHeader := "Expectation Type",
    columnHeader := "Column",
    elementsHeader := "Elements Checked",
    countHeader := "Unexpected Count",
    percentHeader := "Unexpected %",
    valuesRowOpen := "\n                    <tr>\n                        <th>Unexpected Values</th>\n                        <td>",
    valuesRowClose := "\n                        </td>\n                    </tr>",
    blockClose := "\n                </table>\n            </div>\n        </div>",
    footerOpen := "\n        <div class=\"footer\">\n            <p>Validation completed on ",
    footerClose := "</p>\n        </div>\n    </div>\n</body>\n</html>")

  /** Lines 20-141: the header with the generation time, then the summary panel. */
  function PageHead(t: Template, now: string, panel: string): string
  {
    t.head + now + panel
  }

  /** The four figures of the summary panel, the rate to one decimal. */
  function SummaryPanel(t: Template, total: int, passed: int, failed: int, rate: real): string
  {
    t.summaryTotal + Decimal(total) + t.summaryPassed + Decimal(passed)
    + t.summaryFailed + Decimal(failed) + t.summaryRate + FormatFixed(rate, 1) + t.summaryEnd
  }

  function StatusClass(success: bool): string { if success then "passed" else "failed" }
  function BadgeClass(success: bool): string { if success then "passed-badge" else "failed-badge" }
  function BadgeText(success: bool): string { if success then "Passed" else "Failed" }

  /** One `<tr>` of the details table. */
  function Row(t: Template, header: string, cell: string): string
  {
    t.rowOpen + header + t.rowMiddle + cell + t.rowClose
  }

  /** Lines 149-152: the opening `<div>` with the outcome's class, and the heading with
      the description. */
  function Opening(t: Template, v: ExpView): string
  {
    t.blockOpen + StatusClass(v.success) + t.headerOpen + v.description
  }

  /** Lines 153-155: the status badge, then the start of the details table. */
  function Badge(t: Template, v: ExpView): string
  {
    t.badgeOpen + BadgeClass(v.success) + "\">" + BadgeText(v.success) + t.detailsOpen
  }

  /** Lines 157-176: type, column, elements checked, unexpected count and percentage. */
  function DetailRows(t: Template, v: ExpView): string
  {
    Row(t, t.typeHeader, v.expectationType) + Row(t, t.columnHeader, v.column)
    + Row(t, t.elementsHeader, v.elementCount) + Row(t, t.countHeader, v.unexpectedCount)
    + Row(t, t.percentHeader, v.unexpectedPercent + "%")
  }

  /** Lines 149-176: the block up to the percentage row. */
  function BlockHead(t: Template, v: ExpView): string
  {
    Opening(t, v) + Badge(t, v) + DetailRows(t, v)
  }

  function Item(val: Json): string { "<li>" + Show(val) + "</li>" }

  /** The strings of `f` over `xs`, joined in order. */
  function ConcatMap<T>(xs: seq<T>, f: T -> string): string
  {
    if xs == [] then "" else ConcatMap(xs[..|xs| - 1], f) + f(xs[|xs| - 1])
  }

  /** Appending one element appends its string. */
  lemma ConcatMapSnoc<T>(xs: seq<T>, x: T, f: T -> string)
    ensures ConcatMap(xs + [x], f) == ConcatMap(xs, f) + f(x)
  {
    assert (xs + [x])[..|xs|] == xs;
  }

  /** Lines 178-192: the row listing the unexpected values, for failures that have some. */
  function ValuesRow(t: Template, v: ExpView): string
  {
    if !v.success && v.unexpectedValues != [] then
      t.valuesRowOpen + "<ul>" + ConcatMap(v.unexpectedValues, Item) + "</ul>" + t.valuesRowClose
    else ""
  }

  function Block(t: Template, v: ExpView): string
  {
    BlockHead(t, v) + ValuesRow(t, v) + t.blockClose
  }

  function Blocks(t: Template, views: seq<ExpView>): string
  {
    ConcatMap(views, v => Block(t, v))
  }

  /** Lines 11-14 and 118-138: the summary panel of a view, with the failed count and
      the success rate computed from its two counts. */
  function SummaryOf(t: Template, view: ReportView): string
  {
    SummaryPanel(t, view.total, view.successful, view.total - view.successful,
      SuccessRate(view.successful, view.total))
  }

  /** The page for a view, around its rendered summary panel. */
  function Page(t: Template, view: ReportView, panel: string, now: string): string
  {
    PageHead(t, now, panel) + Blocks(t, view.expectations) + t.footerOpen + now + t.footerClose
  }

  /** The page `generate_html_report` writes for the document, given the time. */
  function Render(t: Template, doc: Json, now: string): Result<string>
  {
    var view :- ParseReport(doc);
    Ok(Page(t, view, SummaryOf(t, view), now))
  }

  // ---------------------------------------------------------------------------
  // The generator

  /** `generate_html_report` with the loaded document and the formatted current time as
      inputs; `Ok(html)` is the single write of the page. */
  method GenerateHtmlReport(doc: Json, now: string) returns (r: Result<string>)
    ensures r == Render(Html, doc, now)
  {
    r := BuildPage(Html, doc, now);
  }

  /** The body of `generate_html_report` over any fixed text. */
  method BuildPage(t: Template, doc: Json, now: string) returns (r: Result<string>)
    ensures r == Render(t, doc, now)
  {
    var validation :- Field(doc, "validation_results");
    var statistics :- Field(validation, "statistics");
    var total :- Field(statistics, "evaluated_expectations");
    var successful :- Field(statistics, "successful_expectations");
    if !(total.JInt? && successful.JInt?) {
      return Err(TypeError);
    }
    var failed := total.i - successful.i;
    var successRate := SuccessRate(successful.i, total.i);
    var html := PageHead(t, now, SummaryPanel(t, total.i, successful.i, failed, successRate));

    var expectations :- Field(validation, "expectations");
    var items :- Iterate(expectations);
    var blocks :- RenderBlocks(t, items);
    html := html + blocks;
    html := html + t.footerOpen + now + t.footerClose;
    r := Ok(html);
  }

  /** The blocks of the expectations, in order, or the first error one of them raises. */
  function BlocksOf(t: Template, items: seq<Json>): Result<string>
  {
    var views :- ParseEach(items, ParseExpectation);
    Ok(Blocks(t, views))
  }

  /** The loop over `validation_results["expectations"]`. */
  method RenderBlocks(t: Template, items: seq<Json>) returns (r: Result<string>)
    ensures r == BlocksOf(t, items)
  {
    var html := "";
    ghost var views: seq<ExpView> := [];
    for i := 0 to |items|
      invariant ParseEach(items[..i], ParseExpectation) == Ok(views)
      invariant html == Blocks(t, views)
    {
      var parsed := ParseExpectation(items[i]);
      ParseEachStep(items, i, ParseExpectation);
      if parsed.Err? {
        ParseEachErrorPersists(items, i + 1, ParseExpectation);
        return Err(parsed.error);
      }
      var block := RenderBlock(t, parsed.value);
      ConcatMapSnoc(views, parsed.value, v => Block(t, v));
      html := html + block;
      views := views + [parsed.value];
    }
    assert items[..|items|] == items;
    r := Ok(html);
  }

  /** One iteration's f-strings, with the nested loop over the unexpected values. */
  method RenderBlock(t: Template, exp: ExpView) returns (html: string)
    ensures html == Block(t, exp)
  {
    var row := "";
    if !exp.success && exp.unexpectedValues != [] {
      var values := exp.unexpectedValues;
      var list := "";
      for k := 0 to |values|
        invariant list == ConcatMap(values[..k], Item)
      {
        assert values[..k + 1] == values[..k] + [values[k]];
        ConcatMapSnoc(values[..k], values[k], Item);
        list := list + ("<li>" + Show(values[k]) + "</li>");
      }
      assert values[..|values|] == values;
      row := t.valuesRowOpen + "<ul>" + list + "</ul>" + t.valuesRowClose;
    }
    html := BlockHead(t, exp) + row + t.blockClose;
  }

  /** One more item: its result is appended, or its error is the list's error. */
  lemma ParseEachStep<A, B>(items: seq<A>, i: nat, parse: A -> Result<B>)
    requires i < |items| && ParseEach(items[..i], parse).Ok?
    ensures var parsed := parse(items[i]);
      ParseEach(items[..i + 1], parse)
        == if parsed.Ok? then Ok(ParseEach(items[..i], parse).value + [parsed.value]) else Err(parsed.error)
  {
    assert items[..i + 1][..i] == items[..i];
  }

  /** Once a prefix of the items raises, so does the whole list, with the same error. */
  lemma {:induction false} ParseEachErrorPersists<A, B>(items: seq<A>, j: nat, parse: A -> Result<B>)
    requires j <= |items| && ParseEach(items[..j], parse).Err?
    ensures ParseEach(items, parse) == ParseEach(items[..j], parse)
    decreases |items| - j
  {
    if j < |items| {
      assert items[..j + 1][..j] == items[..j];
      ParseEachErrorPersists(items, j + 1, parse);
    } else {
      assert items[..j] == items;
    }
  }

  /** The list parses exactly when every item does. */
  lemma {:induction false} ParseEachOkIff<A, B>(items: seq<A>, parse: A -> Result<B>)
    ensures ParseEach(items, parse).Ok? <==> forall i :: 0 <= i < |items| ==> parse(items[i]).Ok?
  {
    if items != [] {
      var init := items[..|items| - 1];
      ParseEachOkIff(init, parse);
      assert forall i :: 0 <= i < |init| ==> init[i] == items[i];
    }
  }

  /** A successful parse keeps one result per item, in order. */
  lemma {:induction false} ParseEachOk<A, B>(items: seq<A>, parse: A -> Result<B>)
    requires ParseEach(items, parse).Ok?
    ensures |ParseEach(items, parse).value| == |items|
    ensures forall i :: 0 <= i < |items| ==> parse(items[i]) == Ok(ParseEach(items, parse).value[i])
  {
    if items != [] {
      var init := items[..|items| - 1];
      ParseEachOk(init, parse);
      assert forall i :: 0 <= i < |init| ==> init[i] == items[i];
    }
  }

  /** When each item parses to the matching result, the list parses to the results. */
  lemma ParseEachAll<A, B>(items: seq<A>, parse: A -> Result<B>, results: seq<B>)
    requires |items| == |results|
    requires forall i :: 0 <= i < |items| ==> parse(items[i]) == Ok(results[i])
    ensures ParseEach(items, parse) == Ok(results)
  {
    ParseEachOkIff(items, parse);
    ParseEachOk(items, parse);
    var parsed := ParseEach(items, parse).value;
    assert forall i :: 0 <= i < |items| ==> parsed[i] == results[i];
    assert parsed == results;
  }

  // ---------------------------------------------------------------------------
  // Which documents produce a page

  /** Values `for x in j` accepts. */
  predicate Iterable(j: Json)
  {
    j.JArr? || j.JStr? || (j.JObj? && |j.fields| == 0)
  }

  /** An expectation entry the loop body reads without raising: the keys it looks up,
      a number for the percentage, and for a failure a list it can iterate. */
  ghost predicate WellFormedExpectation(e: Json)
  {
    && e.JObj? && "success" in e.fields && "meta" in e.fields
    && "expectation_type" in e.fields && "result" in e.fields
    && var meta := e.fields["meta"];
    && var result := e.fields["result"];
    && meta.JObj? && "description" in meta.fields && "column" in meta.fields
    && result.JObj? && "element_count" in result.fields && "unexpected_count" in result.fields
    && "unexpected_percent" in result.fields && Formattable(result.fields["unexpected_percent"])
    && (!Truthy(e.fields["success"]) ==>
          && "partial_unexpected_list" in result.fields
          && var list := result.fields["partial_unexpected_list"];
          !Truthy(list) || Iterable(list))
  }

  /** A document the script turns into a page: integer counts, and a list of well-formed
      expectations (or an empty string or object, which iterate to nothing). */
  ghost predicate WellFormedReport(doc: Json)
  {
    && doc.JObj? && "validation_results" in doc.fields
    && var validation := doc.fields["validation_results"];
    && validation.JObj? && "statistics" in validation.fields && "expectations" in validation.fields
    && var statistics := validation.fields["statistics"];
    && statistics.JObj?
    && "evaluated_expectations" in statistics.fields && statistics.fields["evaluated_expectations"].JInt?
    && "successful_expectations" in statistics.fields && statistics.fields["successful_expectations"].JInt?
    && var es := validation.fields["expectations"];
    && ((es.JArr? && forall i :: 0 <= i < |es.items| ==> WellFormedExpectation(es.items[i]))
        || es == JStr("") || (es.JObj? && |es.fields| == 0))
  }

  lemma ParseExpectationOkIff(e: Json)
    ensures ParseExpectation(e).Ok? <==> WellFormedExpectation(e)
  {
  }

  /** The entries of `validation_results["expectations"]` all parse exactly when it is a
      list of well-formed entries, an empty string or an empty object. */
  lemma ExpectationsOkIff(es: Json)
    ensures (Iterate(es).Ok? && ParseEach(Iterate(es).value, ParseExpectation).Ok?)
      <==> ((es.JArr? && forall i :: 0 <= i < |es.items| ==> WellFormedExpectation(es.items[i]))
            || es == JStr("") || (es.JObj? && |es.fields| == 0))
  {
    match es
    case JArr(items) =>
      ParseEachOkIff(items, ParseExpectation);
      forall i | 0 <= i < |items|
        ensures ParseExpectation(items[i]).Ok? <==> WellFormedExpectation(items[i])
      {
        ParseExpectationOkIff(items[i]);
      }
    case JStr(s) =>
      var items := Iterate(es).value;
      ParseEachOkIff(items, ParseExpectation);
      if s != "" {
        assert ParseExpectation(items[0]).Err?;
      }
    case _ =>
  }

  /** The script writes a page exactly for the well-formed documents; for every other
      document it raises before writing anything. */
  lemma RenderOkIff(t: Template, doc: Json, now: string)
    ensures Render(t, doc, now).Ok? <==> WellFormedReport(doc)
  {
    ParseReportOkIff(doc);
  }

  lemma ParseReportOkIff(doc: Json)
    ensures ParseReport(doc).Ok? <==> WellFormedReport(doc)
  {
    if doc.JObj? && "validation_results" in doc.fields {
      var validation := doc.fields["validation_results"];
      if validation.JObj? && "statistics" in validation.fields && "expectations" in validation.fields {
        var statistics := validation.fields["statistics"];
        var es := validation.fields["expectations"];
        assert Field(doc, "validation_results") == Ok(validation);
        assert Field(validation, "statistics") == Ok(statistics);
        assert Field(validation, "expectations") == Ok(es);
        ExpectationsOkIff(es);
      }
    }
  }

  // ---------------------------------------------------------------------------
  // The shape of the page

  /** Joining is homomorphic: the strings of a concatenation are the joined strings. */
  lemma {:induction false} ConcatMapAppend<T>(xs: seq<T>, ys: seq<T>, f: T -> string)
    ensures ConcatMap(xs + ys, f) == ConcatMap(xs, f) + ConcatMap(ys, f)
  {
    if ys == [] {
      assert xs + ys == xs;
    } else {
      var init, last := ys[..|ys| - 1], ys[|ys| - 1];
      var front := xs + init;
      assert ys == init + [last];
      assert xs + ys == front + [last];
      ConcatMapAppend(xs, init, f);
      ConcatMapSnoc(front, last, f);
      ConcatMapSnoc(init, last, f);
      var a, b, c := ConcatMap(xs, f), ConcatMap(init, f), f(last);
      assert (a + b) + c == a + (b + c);
    }
  }

  /** The string of element `i` sits between those of the elements before and after it. */
  lemma {:induction false} ConcatMapAt<T>(xs: seq<T>, i: nat, f: T -> string)
    requires i < |xs|
    ensures ConcatMap(xs, f) == ConcatMap(xs[..i], f) + f(xs[i]) + ConcatMap(xs[i + 1..], f)
  {
    var upto, after := xs[..i + 1], xs[i + 1..];
    assert upto + after == xs;
    ConcatMapAppend(upto, after, f);
    ConcatMapPrefixStep(xs, i, f);
  }

  lemma {:induction false} ConcatMapPrefixStep<T>(xs: seq<T>, i: nat, f: T -> string)
    requires i < |xs|
    ensures ConcatMap(xs[..i + 1], f) == ConcatMap(xs[..i], f) + f(xs[i])
  {
    assert xs[..i + 1][..i] == xs[..i];
  }

  /** Expectations appear in document order, one block each; the same holds for the
      items of an unexpected-values list. */
  lemma BlocksInOrder(t: Template, views: seq<ExpView>, i: nat)
    requires i < |views|
    ensures Blocks(t, views) == Blocks(t, views[..i]) + Block(t, views[i]) + Blocks(t, views[i + 1..])
  {
    ConcatMapAt(views, i, v => Block(t, v));
  }

  /** Every page opens with the header and the generation time and ends with the same time
      in the footer. */
  lemma TimestampInHeaderAndFooter(t: Template, doc: Json, now: string)
    requires Render(t, doc, now).Ok?
    ensures var page := Render(t, doc, now).value;
      && |page| >= |t.head| + |now| + |now| + |t.footerClose|
      && page[..|t.head|] == t.head
      && page[|t.head|..|t.head| + |now|] == now
      && page[|page| - |t.footerClose| - |now|..|page| - |t.footerClose|] == now
      && page[|page| - |t.footerClose|..] == t.footerClose
  {
    var view := ParseReport(doc).value;
    var panel := SummaryOf(t, view);
    assert Render(t, doc, now).value == Page(t, view, panel, now);
    PageTimestamps(t, view, panel, now);
  }

  lemma PageTimestamps(t: Template, view: ReportView, panel: string, now: string)
    ensures var page := Page(t, view, panel, now);
      && |page| >= |t.head| + |now| + |now| + |t.footerClose|
      && page[..|t.head|] == t.head
      && page[|t.head|..|t.head| + |now|] == now
      && page[|page| - |t.footerClose| - |now|..|page| - |t.footerClose|] == now
      && page[|page| - |t.footerClose|..] == t.footerClose
  {
    TimeSlices(t.head, now, panel, Blocks(t, view.expectations), t.footerOpen, t.footerClose);
  }

  /** The layout of any page: a title, the time, the summary and the blocks, then the
      time again and the closing text. */
  lemma TimeSlices(title: string, now: string, panel: string, blocks: string,
                   footerOpen: string, footerClose: string)
    ensures var page := title + now + panel + blocks + footerOpen + now + footerClose;
      && |page| >= |title| + |now| + |now| + |footerClose|
      && page[..|title|] == title
      && page[|title|..|title| + |now|] == now
      && page[|page| - |footerClose| - |now|..|page| - |footerClose|] == now
      && page[|page| - |footerClose|..] == footerClose
  {
    var n := |title| + |now|;
    var head := title + now + panel;
    var body := head + blocks + footerOpen;
    var page := body + now + footerClose;
    SliceOfPrefix(title + now, panel, 0, n);
    SliceOfPrefix(head, blocks, 0, n);
    SliceOfPrefix(head + blocks, footerOpen, 0, n);
    SliceOfPrefix(body, now, 0, n);
    SliceOfPrefix(body + now, footerClose, 0, n);
    assert page[0..n] == title + now;
    SplitThree(title, now, []);
    assert page[..|title|] == (title + now)[..|title|];
    assert page[|title|..n] == (title + now)[|title|..n];
    SplitThree(body, now, footerClose);
  }

  /** Slicing a concatenation of three strings gives back the three parts. */
  lemma SplitThree(x: string, y: string, z: string)
    ensures (x + y + z)[..|x|] == x
    ensures (x + y + z)[|x|..|x| + |y|] == y
    ensures (x + y + z)[|x| + |y|..] == z
  {
  }

  lemma SliceOfPrefix(x: string, y: string, i: nat, j: nat)
    requires i <= j <= |x|
    ensures (x + y)[i..j] == x[i..j]
  {
  }

  /** Each block is marked with the class of its outcome and shows the description
      verbatim right after the heading tag. */
  lemma BlockMarkup(t: Template, v: ExpView)
    ensures var b := Block(t, v);
      var k := |t.blockOpen|;
      var d := k + 6 + |t.headerOpen|;
      && |b| >= d + |v.description|
      && b[k..k + 6] == (if v.success then "passed" else "failed")
      && b[d..d + |v.description|] == v.description
  {
    var k := |t.blockOpen|;
    var d := k + 6 + |t.headerOpen|;
    var open := Opening(t, v);
    var e := d + |v.description|;
    assert |open| == e;
    var status := t.blockOpen + StatusClass(v.success);
    var heading := status + t.headerOpen;
    assert open == heading + v.description;
    SliceOfPrefix(heading, v.description, k, k + 6);
    SliceOfPrefix(status, t.headerOpen, k, k + 6);
    assert status[k..k + 6] == StatusClass(v.success);
    assert open[d..e] == v.description;
    BlockStartsWithOpening(t, v, k, k + 6);
    BlockStartsWithOpening(t, v, d, e);
  }

  /** The badge after the heading carries the outcome's class and text: `passed-badge`
      and `Passed` for a success, `failed-badge` and `Failed` otherwise. */
  lemma BadgeMarkup(t: Template, v: ExpView)
    ensures var b := Block(t, v);
      var c := |Opening(t, v)| + |t.badgeOpen|;
      && |b| >= c + 20
      && b[c..c + 12] == (if v.success then "passed-badge" else "failed-badge")
      && b[c + 14..c + 20] == (if v.success then "Passed" else "Failed")
  {
    var open, badge := Opening(t, v), Badge(t, v);
    var k := |t.badgeOpen|;
    BadgeParts(t, v);
    SliceOfSuffix(open, badge, k, k + 12);
    SliceOfSuffix(open, badge, k + 14, k + 20);
    BlockStartsWithBadge(t, v, |open| + k, |open| + k + 12);
    BlockStartsWithBadge(t, v, |open| + k + 14, |open| + k + 20);
  }

  /** Where the class and the text sit in the badge markup. */
  lemma BadgeParts(t: Template, v: ExpView)
    ensures var badge := Badge(t, v);
      var k := |t.badgeOpen|;
      && |badge| >= k + 20
      && badge[k..k + 12] == BadgeClass(v.success)
      && badge[k + 14..k + 20] == BadgeText(v.success)
  {
    var rest := "\">" + BadgeText(v.success) + t.detailsOpen;
    assert Badge(t, v) == t.badgeOpen + BadgeClass(v.success) + rest;
    SplitThree(t.badgeOpen, BadgeClass(v.success), rest);
    var upto := t.badgeOpen + BadgeClass(v.success) + "\">";
    assert Badge(t, v) == upto + BadgeText(v.success) + t.detailsOpen;
    SplitThree(upto, BadgeText(v.success), t.detailsOpen);
  }

  lemma SliceOfSuffix(x: string, y: string, i: nat, j: nat)
    requires i <= j <= |y|
    ensures (x + y)[|x| + i..|x| + j] == y[i..j]
  {
  }

  /** Slices of the opening and the badge are slices of the block. */
  lemma BlockStartsWithBadge(t: Template, v: ExpView, i: nat, j: nat)
    requires i <= j <= |Opening(t, v) + Badge(t, v)|
    ensures |Block(t, v)| >= j && Block(t, v)[i..j] == (Opening(t, v) + Badge(t, v))[i..j]
  {
    var first := Opening(t, v) + Badge(t, v);
    var head := first + DetailRows(t, v);
    SliceOfPrefix(first, DetailRows(t, v), i, j);
    SliceOfPrefix(head, ValuesRow(t, v), i, j);
    SliceOfPrefix(head + ValuesRow(t, v), t.blockClose, i, j);
  }

  /** Slices of the opening are slices of the block. */
  lemma BlockStartsWithOpening(t: Template, v: ExpView, i: nat, j: nat)
    requires i <= j <= |Opening(t, v)|
    ensures |Block(t, v)| >= j && Block(t, v)[i..j] == Opening(t, v)[i..j]
  {
    var open := Opening(t, v);
    var first := open + Badge(t, v);
    var head := first + DetailRows(t, v);
    SliceOfPrefix(open, Badge(t, v), i, j);
    SliceOfPrefix(first, DetailRows(t, v), i, j);
    SliceOfPrefix(head, ValuesRow(t, v), i, j);
    SliceOfPrefix(head + ValuesRow(t, v), t.blockClose, i, j);
  }

  /** The unexpected-values row is present exactly for failures that list values, and
      then holds one `<li>` per value, in order. */
  lemma ValuesRowShown(t: Template, v: ExpView)
    ensures ValuesRow(t, v) != "" <==> !v.success && v.unexpectedValues != []
    ensures ValuesRow(t, v) != "" ==> forall i :: 0 <= i < |v.unexpectedValues| ==>
      ValuesRow(t, v) == t.valuesRowOpen + "<ul>" + ConcatMap(v.unexpectedValues[..i], Item)
        + Item(v.unexpectedValues[i]) + ConcatMap(v.unexpectedValues[i + 1..], Item) + "</ul>" + t.valuesRowClose
  {
    if ValuesRow(t, v) != "" {
      var vals := v.unexpectedValues;
      assert ValuesRow(t, v) == t.valuesRowOpen + "<ul>" + ConcatMap(vals, Item) + "</ul>" + t.valuesRowClose;
      forall i | 0 <= i < |vals| {
        ListItemAt(t, vals, i);
      }
    }
    if !v.success && v.unexpectedValues != [] {
      assert |ValuesRow(t, v)| >= |"<ul>"|;
    }
  }

  /** Inside the list's markup, item `i` sits between the items before and after it. */
  lemma ListItemAt(t: Template, vals: seq<Json>, i: nat)
    requires i < |vals|
    ensures t.valuesRowOpen + "<ul>" + ConcatMap(vals, Item) + "</ul>" + t.valuesRowClose
      == t.valuesRowOpen + "<ul>" + ConcatMap(vals[..i], Item) + Item(vals[i]) + ConcatMap(vals[i + 1..], Item)
        + "</ul>" + t.valuesRowClose
  {
    ConcatMapAt(vals, i, Item);
    Regroup(t.valuesRowOpen + "<ul>", ConcatMap(vals[..i], Item), Item(vals[i]), ConcatMap(vals[i + 1..], Item),
      t.valuesRowClose);
  }

  /** Regrouping the list's markup around its middle three parts. */
  lemma Regroup(pre: string, a: string, b: string, c: string, close: string)
    ensures pre + (a + b + c) + "</ul>" + close == pre + a + b + c + "</ul>" + close
  {
  }

  /** The summary figures: with 0 <= passed <= total the failed count is non-negative and
      the rate lies in 0..100, reaching 100 exactly when every expectation passed. */
  lemma SuccessRateBounds(successful: int, total: int)
    requires 0 <= successful <= total
    ensures total - successful >= 0
    ensures 0.0 <= SuccessRate(successful, total) <= 100.0
    ensures SuccessRate(successful, total) == 100.0 <==> total > 0 && successful == total
    ensures total == 0 ==> SuccessRate(successful, total) == 0.0
  {
    if total > 0 {
      RatioBounds(successful as real, total as real);
    }
  }

  /** A share of a positive whole lies in 0..1 and is 1 exactly for the whole. */
  lemma RatioBounds(part: real, whole: real)
    requires 0.0 <= part <= whole && whole > 0.0
    ensures 0.0 <= part / whole <= 1.0
    ensures part / whole == 1.0 <==> part == whole
  {
  }
}
