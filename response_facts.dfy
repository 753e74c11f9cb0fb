/** What the post-processing in `run` promises: when the response text
    changes at all, which times drive the re-timing, what happens to the
    plans and to `meta`, and that every answer ends with the summary stored
    in the answered document. */
module ResponseFacts {
  import opened PyJson
  import opened Clock
  import opened Itinerary
  import opened Summary
  import opened Response

  /** Lemma: a plan that is a string (what iterating a dict or a string of
      plans yields) is never validated: the code raises on it. */
  lemma StringPlanFails(s: string, m: Json, b: Json, cal: Calendar)
    ensures ValidatedPlan(JStr(s), m, b, cal).Err?
  {
  }

  /** Lemma: re-timing the plans succeeds on a list by validating every plan
      in place, and on anything else only when there is nothing to iterate,
      in which case the plans stay as they were. */
  lemma ValidatedPlansShape(plans: Json, m: Json, b: Json, cal: Calendar)
    requires ValidatedPlans(plans, m, b, cal).Ok?
    ensures plans.JArr? ==>
      var ys := ValidatedPlans(plans, m, b, cal).value;
      ys.JArr? && |ys.elems| == |plans.elems|
      && forall i :: 0 <= i < |plans.elems| ==>
           ValidatedPlan(plans.elems[i], m, b, cal).Ok? && ys.elems[i] == ValidatedPlan(plans.elems[i], m, b, cal).value
    ensures !plans.JArr? ==> ValidatedPlans(plans, m, b, cal).value == plans && (plans == JObj([]) || plans == JStr([]))
  {
    var xs := Iterate(plans).value;
    MapOkSpec(xs, Validator(m, b, cal));
    if !plans.JArr? && xs != [] {
      assert xs[0].JStr?;
      StringPlanFails(xs[0].s, m, b, cal);
    }
  }

  /** Lemma: times present and truthy in `meta` are the ones the plans are
      re-timed against. */
  lemma TimesFromMeta(doc: Json)
    requires doc.JObj? && MetaOf(doc).JObj?
    requires Truthy(LookupOr(MetaOf(doc).fields, "meetup_time", JNull))
    requires Truthy(LookupOr(MetaOf(doc).fields, "breakup_time", JNull))
    ensures Times(doc) == Ok((Lookup(MetaOf(doc).fields, "meetup_time").value,
                              Lookup(MetaOf(doc).fields, "breakup_time").value))
  {
  }

  /** Lemma: with no times in `meta`, the plans are re-timed against the
      start of the first item and the end of the last item of the first
      plan. */
  lemma TimesFromFirstPlan(doc: Json, first: Json, rest: seq<Json>, items: seq<Json>)
    requires doc.JObj? && MetaOf(doc) == JObj([])
    requires Lookup(doc.fields, "plans") == Some(JArr([first] + rest))
    requires first.JObj? && Lookup(first.fields, "itinerary") == Some(JArr(items))
    requires items != [] && items[0].JObj? && items[|items| - 1].JObj?
    ensures Times(doc) == Ok((LookupOr(items[0].fields, "start", JNull),
                              LookupOr(items[|items| - 1].fields, "end", JNull)))
  {
  }

  /** Lemma: the document `run` answers with, when it re-timed the plans,
      holds every plan validated in place, `meta` with both times filled in
      where absent and every value it had kept, and every other key as it
      was. */
  lemma PreparedRetimesPlans(doc: Json, cal: Calendar, xs: seq<Json>, d: Json)
    requires doc.JObj? && MetaOf(doc).JObj? && Lookup(doc.fields, "plans") == Some(JArr(xs))
    requires Prepared(doc, cal) == Ok(Some(d)) && d != doc
    ensures Times(doc).Ok?
    ensures var m, b := Times(doc).value.0, Times(doc).value.1;
      Truthy(m) && Truthy(b) && d.JObj?
      && (exists ys: seq<Json> ::
            Lookup(d.fields, "plans") == Some(JArr(ys)) && |ys| == |xs|
            && forall i :: 0 <= i < |xs| ==>
                 ValidatedPlan(xs[i], m, b, cal).Ok? && ys[i] == ValidatedPlan(xs[i], m, b, cal).value)
      && Lookup(d.fields, "meta") == Some(JObj(FilledMeta(MetaOf(doc).fields, m, b)))
      && forall k :: k != "plans" && k != "meta" ==> Lookup(d.fields, k) == Lookup(doc.fields, k)
  {
    PreparedCases(doc, cal);
    var m, b := Times(doc).value.0, Times(doc).value.1;
    var plans := LookupOr(doc.fields, "plans", JNull);
    ValidatedPlansShape(plans, m, b, cal);
    var validated := ValidatedPlans(plans, m, b, cal).value;
    StoreTwice(doc.fields, "plans", validated, "meta", JObj(FilledMeta(MetaOf(doc).fields, m, b)));
    assert Lookup(d.fields, "plans") == Some(JArr(validated.elems));
  }

  /** Lemma: a summary the code generates is never empty: it is the
      no-plans notice or starts with the proposals heading. */
  lemma SummaryShape(doc: Json, show: Json -> string, t: string)
    requires Summarizes(doc, show, Ok(t))
    ensures t == NoPlansText || Heading <= t
  {
    match Drafted(doc, show)
    case Ok(Draft(head, cs)) =>
      var order :| Enumerates(order, cs) && Ok(t) == Ok(head + ConstraintLines(cs, order, show));
      assert t[..|Heading|] == head[..|Heading|];
    case _ =>
  }

  /** Lemma: every answer is the dumped document, the rule, and the
      document's own truthy `markdown_summary`, which is the only key the
      rendering may add or change. */
  lemma AnswerCarriesSummary(d: Json, dumps: Json -> string, show: Json -> string, out: Result<string>)
    requires d.JObj? && Rendered(d, dumps, show, out) && out.Ok?
    ensures exists fields ::
      Truthy(LookupOr(fields, "markdown_summary", JNull))
      && out.value == dumps(JObj(fields)) + Separator + Text(LookupOr(fields, "markdown_summary", JNull), show)
      && forall k :: k != "markdown_summary" ==> Lookup(fields, k) == Lookup(d.fields, k)
  {
    var existing := LookupOr(d.fields, "markdown_summary", JNull);
    if Truthy(existing) {
      assert out.value == dumps(JObj(d.fields)) + Separator + Text(LookupOr(d.fields, "markdown_summary", JNull), show);
    } else {
      var md :| Summarizes(d, show, md) && out == WithSummary(d, md, dumps);
      SummaryShape(d, show, md.value);
      var fields := Store(d.fields, "markdown_summary", JStr(md.value));
      StoreSpec(d.fields, "markdown_summary", JStr(md.value));
      assert LookupOr(fields, "markdown_summary", JNull) == JStr(md.value);
      assert out.value == dumps(JObj(fields)) + Separator + Text(LookupOr(fields, "markdown_summary", JNull), show);
    }
  }

  /** Lemma: `run` only changes the response text when it holds a JSON
      object whose `status` is `"ok"` and that has `plans`. */
  lemma TextChangesOnlyForOkPlans(responseText: string, fenced: Option<string>, loads: string -> Option<Json>,
                                  cal: Calendar, dumps: Json -> string, show: Json -> string, t: string)
    requires RunsTo(responseText, fenced, loads, cal, dumps, show, Ok(t)) && t != responseText
    ensures Extracted(responseText, fenced).Some?
    ensures var doc := loads(Extracted(responseText, fenced).value);
      doc.Some? && doc.value.JObj? && Lookup(doc.value.fields, "status") == Some(JStr("ok"))
      && HasKey(doc.value.fields, "plans")
  {
    var doc := loads(Extracted(responseText, fenced).value).value;
    var p :| Processes(doc, cal, dumps, show, p) && Ok(t) == Reply(p, responseText);
    assert p.Ok? && p.value.Some?;
  }

  /** Lemma: the only exceptions that escape `run` are those it does not
      catch: a `TypeError`, a `ValueError` or an `IndexError`. */
  lemma EscapingErrors(responseText: string, fenced: Option<string>, loads: string -> Option<Json>,
                       cal: Calendar, dumps: Json -> string, show: Json -> string, r: Result<string>)
    requires RunsTo(responseText, fenced, loads, cal, dumps, show, r) && r.Err?
    ensures r.error == TypeError || r.error == ValueError || r.error == IndexError
  {
    var doc := loads(Extracted(responseText, fenced).value).value;
    var p :| Processes(doc, cal, dumps, show, p) && r == Reply(p, responseText);
  }

  /** Lemma: a response without a JSON object to extract, or whose JSON does
      not decode, is answered unchanged. */
  lemma NoJsonKeepsText(responseText: string, fenced: Option<string>, loads: string -> Option<Json>,
                        cal: Calendar, dumps: Json -> string, show: Json -> string, r: Result<string>)
    requires RunsTo(responseText, fenced, loads, cal, dumps, show, r)
    requires Extracted(responseText, fenced).None? || loads(Extracted(responseText, fenced).value).None?
    ensures r == Ok(responseText)
  {
  }
}
