/** The post-processing in `run`: find the JSON object in the crew's
    response text, re-time every plan against the meetup and breakup times,
    fill the times into `meta`, add a Markdown summary when there is none,
    and answer with the JSON followed by the summary. A `KeyError`, an
    `AttributeError` or a JSON decode error leaves the response text as it
    was; any other exception escapes.

    The JSON codec and the rendering of non-string values are parameters:
    `loads` returns `None` where `json.loads` raises, `dumps` stands for
    `json.dumps(..., ensure_ascii=False, indent=2)`. */
module Response {
  import opened PyJson
  import opened Clock
  import opened Itinerary
  import opened Summary

  const Separator: string := "\n\n---\n\n"

  /** The position of the first `c` in `s`. */
  function FirstIndex(s: string, c: char): (r: Option<nat>)
    ensures r.Some? ==> r.value < |s| && s[r.value] == c && c !in s[..r.value]
    ensures r.None? ==> c !in s
  {
    if s == [] then None
    else if s[0] == c then Some(0)
    else match FirstIndex(s[1..], c)
      case Some(i) => assert s[..i + 1] == [s[0]] + s[1..][..i]; Some(i + 1)
      case None => None
  }

  /** The position of the last `c` in `s`. */
  function LastIndex(s: string, c: char): (r: Option<nat>)
    ensures r.Some? ==> r.value < |s| && s[r.value] == c && c !in s[r.value + 1..]
    ensures r.None? ==> c !in s
  {
    if s == [] then None
    else if s[|s| - 1] == c then Some(|s| - 1)
    else match LastIndex(s[..|s| - 1], c)
      case Some(i) => assert s[i + 1..] == s[..|s| - 1][i + 1..] + [s[|s| - 1]]; Some(i)
      case None => assert s == s[..|s| - 1] + [s[|s| - 1]]; None
  }

  /** What `re.search(r'\{.*\}', text, re.DOTALL)` matches: from the first
      `{` to the last `}`, when that `}` comes after the `{`. */
  function BraceSpan(text: string): Option<string> {
    match (FirstIndex(text, '{'), LastIndex(text, '}'))
    case (Some(i), Some(j)) => if i < j then Some(text[i..j + 1]) else None
    case _ => None
  }

  /** Lemma: the brace span exists exactly when some `{` comes before some
      `}`. */
  lemma BraceSpanSpec(text: string)
    ensures BraceSpan(text).Some?
        <==> exists i, j :: 0 <= i < j < |text| && text[i] == '{' && text[j] == '}'
  {
    if exists i, j :: 0 <= i < j < |text| && text[i] == '{' && text[j] == '}' {
      var i, j :| 0 <= i < j < |text| && text[i] == '{' && text[j] == '}';
      assert text[i] in text && text[j] in text;
      var fi, lj := FirstIndex(text, '{').value, LastIndex(text, '}').value;
      assert fi <= i && j <= lj;
    } else {
      var f, l := FirstIndex(text, '{'), LastIndex(text, '}');
      if f.Some? && l.Some? {
        assert text[f.value] == '{' && text[l.value] == '}';
      }
    }
  }

  /** Lemma: the brace span starts with the first `{` of the text and ends
      with its last `}`. */
  lemma BraceSpanBounds(text: string)
    requires BraceSpan(text).Some?
    ensures exists i, j ::
              0 <= i < j < |text| && BraceSpan(text).value == text[i..j + 1]
              && text[i] == '{' && '{' !in text[..i] && text[j] == '}' && '}' !in text[j + 1..]
  {
    var i, j := FirstIndex(text, '{').value, LastIndex(text, '}').value;
    assert BraceSpan(text).value == text[i..j + 1];
  }

  /** The JSON text `run` hands to `json.loads`: the fenced block's capture
      when the fenced pattern matched, the brace span otherwise. */
  function Extracted(responseText: string, fenced: Option<string>): Option<string> {
    if fenced.Some? then fenced else BraceSpan(responseText)
  }

  /** `first_plan = plans[0]`, then, when `first_plan.get("itinerary")` is
      truthy, `first_plan["itinerary"][0 or -1].get(key)`; otherwise the
      time stays `current`. */
  function FromFirstPlan(plans: Json, last: bool, key: string, current: Json): Result<Json> {
    var first :- Index(plans, false);
    var itinerary :- GetOr(first, "itinerary", JNull);
    if !Truthy(itinerary) then Ok(current)
    else
      var item :- Index(itinerary, last);
      GetOr(item, key, JNull)
  }

  /** Lines 580-589: a time missing from `meta` is read from the first plan
      when there are plans. */
  function FillTime(current: Json, plans: Json, last: bool, key: string): Result<Json> {
    if !Truthy(current) && Truthy(plans) then FromFirstPlan(plans, last, key, current) else Ok(current)
  }

  /** `f` applied to each of `xs` in turn; the first failure is the
      outcome. */
  function MapOk(xs: seq<Json>, f: Json -> Result<Json>): Result<seq<Json>> {
    if xs == [] then Ok([])
    else
      var init :- MapOk(xs[..|xs| - 1], f);
      var y :- f(xs[|xs| - 1]);
      Ok(init + [y])
  }

  /** `_validate_itinerary` against the times `m` and `b`. */
  function Validator(m: Json, b: Json, cal: Calendar): Json -> Result<Json> {
    plan => ValidatedPlan(plan, m, b, cal)
  }

  /** Lines 591-593. A list of plans is updated in place; iterating a dict
      or a string visits strings, which the validation never accepts, and
      nothing is written back. */
  function ValidatedPlans(plans: Json, m: Json, b: Json, cal: Calendar): Result<Json> {
    var xs :- Iterate(plans);
    var ys :- MapOk(xs, Validator(m, b, cal));
    if plans.JArr? then Ok(JArr(ys)) else Ok(plans)
  }

  /** `if k not in meta: meta[k] = v`. */
  function FillKey(meta: seq<(string, Json)>, k: string, v: Json): seq<(string, Json)> {
    if HasKey(meta, k) then meta else Store(meta, k, v)
  }

  /** `meta` as `run` reads it. */
  function MetaOf(doc: Json): Json
    requires doc.JObj?
  {
    LookupOr(doc.fields, "meta", JObj([]))
  }

  /** The meetup and breakup times `run` settles on: those in `meta`, or
      else those of the first plan. */
  function Times(doc: Json): Result<(Json, Json)>
    requires doc.JObj? && MetaOf(doc).JObj?
  {
    var meta := MetaOf(doc).fields;
    var plans := LookupOr(doc.fields, "plans", JNull);
    var m :- FillTime(LookupOr(meta, "meetup_time", JNull), plans, false, "start");
    var b :- FillTime(LookupOr(meta, "breakup_time", JNull), plans, true, "end");
    Ok((m, b))
  }

  /** Lines 596-600: `meta` with both times filled in where absent. */
  function FilledMeta(meta: seq<(string, Json)>, m: Json, b: Json): seq<(string, Json)> {
    FillKey(FillKey(meta, "meetup_time", m), "breakup_time", b)
  }

  /** The document with its re-timed plans and its filled `meta`. */
  function Updated(doc: Json, validated: Json, m: Json, b: Json): Json
    requires doc.JObj? && MetaOf(doc).JObj?
  {
    JObj(Store(Store(doc.fields, "plans", validated), "meta", JObj(FilledMeta(MetaOf(doc).fields, m, b))))
  }

  /** Lines 574-600: the document once the plans are re-timed and `meta`
      filled in; `None` when `status` is not `"ok"` or there is no `plans`
      key, and the response text stays as it was. */
  function Prepared(doc: Json, cal: Calendar): (r: Result<Option<Json>>)
    ensures r.Ok? && r.value.Some? ==> r.value.value.JObj?
  {
    var status :- GetOr(doc, "status", JNull);
    if !doc.JObj? || status != JStr("ok") || !HasKey(doc.fields, "plans") then Ok(None)
    else if !MetaOf(doc).JObj? then Err(AttributeError)
    else
      var times :- Times(doc);
      var m, b := times.0, times.1;
      if !(Truthy(m) && Truthy(b)) then Ok(Some(doc))
      else
        var validated :- ValidatedPlans(LookupOr(doc.fields, "plans", JNull), m, b, cal);
        Ok(Some(Updated(doc, validated, m, b)))
  }

  /** Lines 603-612: `out` is a possible answer for the prepared document
      `d`: an existing truthy `markdown_summary` is kept, otherwise one is
      generated and stored; the answer is the dumped document, a rule, and
      the summary. */
  ghost predicate Rendered(d: Json, dumps: Json -> string, show: Json -> string, out: Result<string>)
    requires d.JObj?
  {
    var existing := LookupOr(d.fields, "markdown_summary", JNull);
    if Truthy(existing) then out == Ok(dumps(d) + Separator + Text(existing, show))
    else exists md :: Summarizes(d, show, md) && out == WithSummary(d, md, dumps)
  }

  /** The answer once the summary `md` is generated and stored. */
  function WithSummary(d: Json, md: Result<string>, dumps: Json -> string): Result<string>
    requires d.JObj?
  {
    match md
    case Ok(t) => Ok(dumps(JObj(Store(d.fields, "markdown_summary", JStr(t)))) + Separator + t)
    case Err(e) => Err(e)
  }

  /** The post-processing of a parsed document: `Ok(None)` leaves the
      response text alone. */
  ghost predicate Processes(doc: Json, cal: Calendar, dumps: Json -> string, show: Json -> string,
                            r: Result<Option<string>>) {
    match Prepared(doc, cal)
    case Err(e) => r == Err(e)
    case Ok(None) => r == Ok(None)
    case Ok(Some(d)) => exists out :: Rendered(d, dumps, show, out) && r == Answered(out)
  }

  function Answered(out: Result<string>): Result<Option<string>> {
    match out
    case Ok(t) => Ok(Some(t))
    case Err(e) => Err(e)
  }

  /** The `except (json.JSONDecodeError, KeyError, AttributeError)` clause. */
  predicate Caught(e: PyError) {
    e == KeyError || e == AttributeError
  }

  /** `r` is a possible outcome of the post-processing in `run` on the
      crew's `responseText`: the text to answer with, or the exception that
      escapes. */
  ghost predicate RunsTo(responseText: string, fenced: Option<string>, loads: string -> Option<Json>,
                         cal: Calendar, dumps: Json -> string, show: Json -> string, r: Result<string>) {
    match Extracted(responseText, fenced)
    case None => r == Ok(responseText)
    case Some(jsonText) =>
      match loads(jsonText)
      case None => r == Ok(responseText)
      case Some(doc) =>
        exists p :: Processes(doc, cal, dumps, show, p) && r == Reply(p, responseText)
  }

  /** The text `run` answers with, or the exception that escapes it. */
  function Reply(p: Result<Option<string>>, responseText: string): Result<string> {
    match p
    case Ok(None) => Ok(responseText)
    case Ok(Some(t)) => Ok(t)
    case Err(e) => if Caught(e) then Ok(responseText) else Err(e)
  }

  /** Lemma: the mapping succeeds exactly when `f` succeeds on each
      element, and then holds each result, in order. */
  lemma {:induction false} MapOkSpec(xs: seq<Json>, f: Json -> Result<Json>)
    ensures MapOk(xs, f).Ok? <==> forall i :: 0 <= i < |xs| ==> f(xs[i]).Ok?
    ensures MapOk(xs, f).Ok? ==>
      |MapOk(xs, f).value| == |xs| && forall i :: 0 <= i < |xs| ==> MapOk(xs, f).value[i] == f(xs[i]).value
  {
    if xs != [] {
      var init := xs[..|xs| - 1];
      MapOkSpec(init, f);
      assert forall i :: 0 <= i < |init| ==> init[i] == xs[i];
    }
  }

  /** Lemma: one more success extends the mapped prefix. */
  lemma MapOkGrows(xs: seq<Json>, i: nat, f: Json -> Result<Json>)
    requires i < |xs| && MapOk(xs[..i], f).Ok? && f(xs[i]).Ok?
    ensures MapOk(xs[..i + 1], f) == Ok(MapOk(xs[..i], f).value + [f(xs[i]).value])
  {
    assert xs[..i + 1][..i] == xs[..i];
  }

  /** Lemma: the first failure decides the outcome, whatever follows it. */
  lemma {:induction false} MapOkStops(xs: seq<Json>, i: nat, f: Json -> Result<Json>)
    requires i < |xs| && MapOk(xs[..i], f).Ok? && f(xs[i]).Err?
    ensures MapOk(xs, f) == Err(f(xs[i]).error)
    decreases |xs|
  {
    var init := xs[..|xs| - 1];
    if i == |xs| - 1 {
      assert init == xs[..i];
    } else {
      assert init[..i] == xs[..i] && init[i] == xs[i];
      MapOkStops(init, i, f);
    }
  }

  /** Lemma: `if k not in meta: meta[k] = v` leaves `k` present and every
      key already present with its value. */
  lemma FillKeySpec(meta: seq<(string, Json)>, k: string, v: Json)
    ensures HasKey(FillKey(meta, k, v), k)
    ensures forall k' :: HasKey(meta, k') ==> Lookup(FillKey(meta, k, v), k') == Lookup(meta, k')
    ensures !HasKey(meta, k) ==> Lookup(FillKey(meta, k, v), k) == Some(v)
    ensures forall k' :: k' != k ==> Lookup(FillKey(meta, k, v), k') == Lookup(meta, k')
  {
    StoreSpec(meta, k, v);
  }

  /** Lemma: the updated document's `meta` is the filled one. */
  lemma UpdatedMeta(doc: Json, validated: Json, m: Json, b: Json)
    requires doc.JObj? && MetaOf(doc).JObj?
    ensures MetaOf(Updated(doc, validated, m, b)) == JObj(FilledMeta(MetaOf(doc).fields, m, b))
  {
    StoreSpec(Store(doc.fields, "plans", validated), "meta", JObj(FilledMeta(MetaOf(doc).fields, m, b)));
  }

  /** Lemma: the filled `meta` holds both times, and every value it already
      held, even a falsy one that the first plan's time replaced for the
      validation, is kept. */
  lemma FilledMetaKeeps(meta: seq<(string, Json)>, m: Json, b: Json)
    ensures var meta' := FilledMeta(meta, m, b);
      HasKey(meta', "meetup_time") && HasKey(meta', "breakup_time")
      && (forall k :: HasKey(meta, k) ==> Lookup(meta', k) == Lookup(meta, k))
      && (!HasKey(meta, "meetup_time") ==> Lookup(meta', "meetup_time") == Some(m))
      && (!HasKey(meta, "breakup_time") ==> Lookup(meta', "breakup_time") == Some(b))
  {
    var meta1 := FillKey(meta, "meetup_time", m);
    FillKeySpec(meta, "meetup_time", m);
    FillKeySpec(meta1, "breakup_time", b);
    assert "breakup_time" != "meetup_time" by {
      assert "breakup_time"[0] != "meetup_time"[0];
    }
    assert Lookup(meta1, "breakup_time") == Lookup(meta, "breakup_time");
  }

  /** Lemma: the document `run` goes on with is either the parsed one,
      untouched, or the parsed one with re-timed plans and filled `meta`. */
  lemma PreparedCases(doc: Json, cal: Calendar)
    requires Prepared(doc, cal).Ok? && Prepared(doc, cal).value.Some?
    ensures doc.JObj? && MetaOf(doc).JObj? && Times(doc).Ok?
    ensures var d, m, b := Prepared(doc, cal).value.value, Times(doc).value.0, Times(doc).value.1;
      d == doc || (Truthy(m) && Truthy(b) && ValidatedPlans(LookupOr(doc.fields, "plans", JNull), m, b, cal).Ok?
                   && d == Updated(doc, ValidatedPlans(LookupOr(doc.fields, "plans", JNull), m, b, cal).value, m, b))
  {
  }

  /** Lines 592-593: `_validate_itinerary` on each plan in turn. */
  method ValidateAll(plans: Json, m: Json, b: Json, cal: Calendar) returns (r: Result<Json>)
    ensures r == ValidatedPlans(plans, m, b, cal)
  {
    var iterated := Iterate(plans);
    if iterated.Err? {
      return Err(iterated.error);
    }
    var ys := ValidateEach(iterated.value, m, b, cal);
    if ys.Err? {
      return Err(ys.error);
    }
    r := if plans.JArr? then Ok(JArr(ys.value)) else Ok(plans);
  }

  /** The loop of lines 590-591 over the plans `xs`. */
  method ValidateEach(xs: seq<Json>, m: Json, b: Json, cal: Calendar) returns (r: Result<seq<Json>>)
    ensures r == MapOk(xs, Validator(m, b, cal))
  {
    var ys: seq<Json> := [];
    var i := 0;
    while i < |xs|
      invariant 0 <= i <= |xs|
      invariant MapOk(xs[..i], Validator(m, b, cal)) == Ok(ys)
    {
      var plan := ValidateItinerary(xs[i], m, b, cal);
      assert Validator(m, b, cal)(xs[i]) == plan;
      if plan.Err? {
        MapOkStops(xs, i, Validator(m, b, cal));
        return Err(plan.error);
      }
      MapOkGrows(xs, i, Validator(m, b, cal));
      ys := ys + [plan.value];
      i := i + 1;
    }
    assert xs[..i] == xs;
    r := Ok(ys);
  }

  /** Lines 603-612: the answer for the prepared document `d`. */
  method Render(d: Json, dumps: Json -> string, show: Json -> string) returns (out: Result<string>)
    requires d.JObj?
    ensures Rendered(d, dumps, show, out)
  {
    var jsonOutput := dumps(d);
    var fields := d.fields;
    if !HasKey(fields, "markdown_summary") || !Truthy(Lookup(fields, "markdown_summary").value) {
      var md := GenerateMarkdownSummary(d, show);
      if md.Err? {
        return Err(md.error);
      }
      fields := Store(fields, "markdown_summary", JStr(md.value));
      jsonOutput := dumps(JObj(fields));
      StoreSpec(d.fields, "markdown_summary", JStr(md.value));
      out := Ok(jsonOutput + Separator + Text(LookupOr(fields, "markdown_summary", JStr("")), show));
      assert Summarizes(d, show, md) && out == WithSummary(d, md, dumps);
    } else {
      out := Ok(jsonOutput + Separator + Text(LookupOr(fields, "markdown_summary", JStr("")), show));
    }
  }

  /** Lines 574-612, after `json.loads`: `Ok(None)` when the response text
      stays as it was. */
  method PostProcess(doc: Json, cal: Calendar, dumps: Json -> string, show: Json -> string)
    returns (r: Result<Option<string>>)
    ensures Processes(doc, cal, dumps, show, r)
  {
    var status := GetOr(doc, "status", JNull);
    if status.Err? {
      return Err(status.error);
    }
    if status.value != JStr("ok") || !HasKey(doc.fields, "plans") {
      return Ok(None);
    }
    var meta := LookupOr(doc.fields, "meta", JObj([]));
    if !meta.JObj? {
      return Err(AttributeError);
    }
    var plans := Lookup(doc.fields, "plans").value;
    var meetup := LookupOr(meta.fields, "meetup_time", JNull);
    var breakup := LookupOr(meta.fields, "breakup_time", JNull);
    if !Truthy(meetup) && Truthy(plans) {
      var got := FromFirstPlan(plans, false, "start", meetup);
      if got.Err? {
        return Err(got.error);
      }
      meetup := got.value;
    }
    if !Truthy(breakup) && Truthy(plans) {
      var got := FromFirstPlan(plans, true, "end", breakup);
      if got.Err? {
        return Err(got.error);
      }
      breakup := got.value;
    }
    var d := doc;
    if Truthy(meetup) && Truthy(breakup) {
      var validated := ValidateAll(plans, meetup, breakup, cal);
      if validated.Err? {
        return Err(validated.error);
      }
      var filled := meta.fields;
      if !HasKey(filled, "meetup_time") {
        filled := Store(filled, "meetup_time", meetup);
      }
      if !HasKey(filled, "breakup_time") {
        filled := Store(filled, "breakup_time", breakup);
      }
      d := JObj(Store(Store(doc.fields, "plans", validated.value), "meta", JObj(filled)));
    }
    assert Prepared(doc, cal) == Ok(Some(d));
    var out := Render(d, dumps, show);
    r := Answered(out);
    assert Rendered(d, dumps, show, out) && r == Answered(out);
  }

  /** Lines 560-616: the text `run` answers with, or the exception that
      escapes. `fenced` is the capture of the fenced-block pattern, when it
      matched. */
  method Run(responseText: string, fenced: Option<string>, loads: string -> Option<Json>,
             cal: Calendar, dumps: Json -> string, show: Json -> string) returns (r: Result<string>)
    ensures RunsTo(responseText, fenced, loads, cal, dumps, show, r)
  {
    r := Ok(responseText);
    var jsonText := if fenced.Some? then fenced else BraceSpan(responseText);
    if jsonText.None? {
      return;
    }
    var parsed := loads(jsonText.value);
    if parsed.None? {
      return;
    }
    var p := PostProcess(parsed.value, cal, dumps, show);
    match p {
      case Ok(Some(t)) => r := Ok(t);
      case Ok(None) =>
      case Err(e) =>
        if !Caught(e) {
          r := Err(e);
        }
    }
    assert Processes(parsed.value, cal, dumps, show, p) && r == Reply(p, responseText);
  }
}
