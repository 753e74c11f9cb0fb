/** `_generate_markdown_summary`: a Markdown digest of the plans, one section
    per plan followed by fixed comparison and caution headings and one
    bullet per distinct constraint. The constraints are listed in the
    iteration order of a Python set, which the code does not fix, so the
    specification `Summarizes` admits every order that lists each distinct
    constraint once. */
module Summary {
  import opened PyJson

  const Heading: string := "## 3つの提案\n\n"
  const Comparison: string :=
    "## 比較（どれがおすすめ？）\n\n各プランの特徴を比較して、あなたの好みに合ったものを選んでください。\n\n"
  const CautionHeading: string := "## 注意点（制約・禁止事項・確認事項）\n\n"
  const NoConstraints: string := "- 特に制約はありません。\n"
  const NoPlansText: string := "## エラー\nプランが生成されませんでした。"

  /** `plan.get("title", plan.get("plan_id", "プラン"))`. */
  function Title(plan: Json): Json
    requires plan.JObj?
  {
    LookupOr(plan.fields, "title", LookupOr(plan.fields, "plan_id", JStr("プラン")))
  }

  /** The section of one plan: its title, then its theme and its summary
      when they are truthy. */
  function Section(plan: Json, show: Json -> string): string
    requires plan.JObj?
  {
    var theme := LookupOr(plan.fields, "theme", JStr(""));
    var summary := LookupOr(plan.fields, "summary", JStr(""));
    "### " + Text(Title(plan), show) + "\n"
    + (if Truthy(theme) then "**テーマ**: " + Text(theme, show) + "\n\n" else "")
    + (if Truthy(summary) then Text(summary, show) + "\n\n" else "")
  }

  /** The sections of the plans in order; a plan that is not a dict has no
      `get`. */
  function Sections(plans: seq<Json>, show: Json -> string): Result<string> {
    if plans == [] then Ok("")
    else
      var init :- Sections(plans[..|plans| - 1], show);
      var last := plans[|plans| - 1];
      if last.JObj? then Ok(init + Section(last, show)) else Err(AttributeError)
  }

  /** Lemma: the sections are built exactly when every plan is a dict, and
      otherwise fail with `AttributeError`. */
  lemma {:induction false} SectionsOk(plans: seq<Json>, show: Json -> string)
    ensures Sections(plans, show).Ok? <==> forall i :: 0 <= i < |plans| ==> plans[i].JObj?
    ensures Sections(plans, show).Err? ==> Sections(plans, show).error == AttributeError
  {
    if plans != [] {
      var init := plans[..|plans| - 1];
      SectionsOk(init, show);
      assert forall i :: 0 <= i < |init| ==> init[i] == plans[i];
    }
  }

  /** `plan.get("constraints_respected", [])`. */
  function Respected(plan: Json): Json
    requires plan.JObj?
  {
    LookupOr(plan.fields, "constraints_respected", JArr([]))
  }

  /** `constraints.extend(...)` over the plans; a value that is not
      iterable is a `TypeError`. */
  function Collected(plans: seq<Json>): Result<seq<Json>>
    requires forall i :: 0 <= i < |plans| ==> plans[i].JObj?
  {
    if plans == [] then Ok([])
    else
      var init :- Collected(plans[..|plans| - 1]);
      var more :- Iterate(Respected(plans[|plans| - 1]));
      Ok(init + more)
  }

  /** What the summary is made of before the constraint bullets. */
  datatype Draft = NoPlans | Draft(head: string, constraints: seq<Json>)

  function Drafted(doc: Json, show: Json -> string): Result<Draft> {
    var plans :- GetOr(doc, "plans", JArr([]));
    if !Truthy(plans) then Ok(NoPlans)
    else
      var xs :- Iterate(plans);
      var body :- Sections(xs, show);
      SectionsOk(xs, show);
      var cs :- Collected(xs);
      Ok(Draft(Heading + body + Comparison + CautionHeading, cs))
  }

  /** `f"- {constraint}\n"`. */
  function Bullet(c: Json, show: Json -> string): string {
    "- " + Text(c, show) + "\n"
  }

  /** One bullet per constraint, in the given order. */
  function Bullets(order: seq<Json>, show: Json -> string): string {
    if order == [] then ""
    else Bullets(order[..|order| - 1], show) + Bullet(order[|order| - 1], show)
  }

  predicate NoDup(s: seq<Json>) {
    forall i, j :: 0 <= i < j < |s| ==> s[i] != s[j]
  }

  /** An iteration order of `set(cs)`: every distinct element once. */
  predicate Enumerates(order: seq<Json>, cs: seq<Json>) {
    NoDup(order) && (forall x :: x in order ==> x in cs) && (forall x :: x in cs ==> x in order)
  }

  function ConstraintLines(cs: seq<Json>, order: seq<Json>, show: Json -> string): string {
    if cs == [] then NoConstraints else Bullets(order, show)
  }

  /** `r` is a possible outcome of `_generate_markdown_summary(doc)`. */
  ghost predicate Summarizes(doc: Json, show: Json -> string, r: Result<string>) {
    match Drafted(doc, show)
    case Err(e) => r == Err(e)
    case Ok(NoPlans) => r == Ok(NoPlansText)
    case Ok(Draft(head, cs)) =>
      if forall i :: 0 <= i < |cs| ==> Hashable(cs[i]) then
        exists order :: Enumerates(order, cs) && r == Ok(head + ConstraintLines(cs, order, show))
      else r == Err(TypeError)
  }

  /** Lemma: in a sequence without repeats every element occurs once. */
  lemma {:induction false} NoDupCounts(s: seq<Json>)
    requires NoDup(s)
    ensures forall x :: multiset(s)[x] == if x in s then 1 else 0
  {
    if s != [] {
      var init := s[..|s| - 1];
      NoDupCounts(init);
      assert s == init + [s[|s| - 1]];
      assert s[|s| - 1] !in init;
    }
  }

  /** Lemma: the constraint bullets list every collected constraint exactly
      once, and nothing else. */
  lemma EachConstraintOnce(order: seq<Json>, cs: seq<Json>)
    requires Enumerates(order, cs)
    ensures forall x :: multiset(order)[x] == if x in cs then 1 else 0
    ensures cs == [] <==> order == []
  {
    NoDupCounts(order);
    if cs != [] {
      assert cs[0] in order;
    }
  }

  /** Lemma: the bullets of two orders one after the other. */
  lemma {:induction false} BulletsAppend(a: seq<Json>, b: seq<Json>, show: Json -> string)
    ensures Bullets(a + b, show) == Bullets(a, show) + Bullets(b, show)
  {
    if b != [] {
      var init := b[..|b| - 1];
      BulletsAppend(a, init, show);
      assert (a + b)[..|a + b| - 1] == a + init && (a + b)[|a + b| - 1] == b[|b| - 1];
      assert Bullets(a + b, show) == Bullets(a + init, show) + Bullet(b[|b| - 1], show);
    } else {
      assert a + b == a;
    }
  }

  /** Lemma: a plan's constraint is collected exactly when some plan lists
      it. */
  lemma {:induction false} CollectedFrom(plans: seq<Json>, x: Json)
    requires forall i :: 0 <= i < |plans| ==> plans[i].JObj?
    requires Collected(plans).Ok?
    ensures x in Collected(plans).value
       <==> exists i :: 0 <= i < |plans| && Iterate(Respected(plans[i])).Ok? && x in Iterate(Respected(plans[i])).value
  {
    if plans != [] {
      var init := plans[..|plans| - 1];
      CollectedFrom(init, x);
      var last := |plans| - 1;
      if x in Iterate(Respected(plans[last])).value {
        assert x in Collected(plans).value;
      }
      if exists i :: 0 <= i < |init| && Iterate(Respected(init[i])).Ok? && x in Iterate(Respected(init[i])).value {
        var i :| 0 <= i < |init| && Iterate(Respected(init[i])).Ok? && x in Iterate(Respected(init[i])).value;
        assert plans[i] == init[i];
      }
    }
  }

  /** The code of `_generate_markdown_summary`, loop by loop. */
  method GenerateMarkdownSummary(doc: Json, show: Json -> string) returns (r: Result<string>)
    ensures Summarizes(doc, show, r)
  {
    var plansGot := GetOr(doc, "plans", JArr([]));
    if plansGot.Err? {
      return Err(plansGot.error);
    }
    var plans := plansGot.value;
    if !Truthy(plans) {
      return Ok(NoPlansText);
    }
    var iterated := Iterate(plans);
    if iterated.Err? {
      return Err(iterated.error);
    }
    var xs := iterated.value;
    var body := WriteSections(xs, show);
    if body.Err? {
      return Err(body.error);
    }
    SectionsOk(xs, show);
    var markdown := Heading + body.value;
    markdown := markdown + Comparison;
    markdown := markdown + CautionHeading;
    var constraints := CollectConstraints(xs);
    if constraints.Err? {
      return Err(constraints.error);
    }
    assert Drafted(doc, show) == Ok(Draft(markdown, constraints.value));
    if constraints.value != [] {
      if !(forall k :: 0 <= k < |constraints.value| ==> Hashable(constraints.value[k])) {
        return Err(TypeError);
      }
      var bullets := WriteBullets(constraints.value, show);
      markdown := markdown + bullets;
    } else {
      markdown := markdown + NoConstraints;
      assert Enumerates([], constraints.value);
    }
    return Ok(markdown);
  }

  /** Lines 639-648: the section of each plan in turn. */
  method WriteSections(xs: seq<Json>, show: Json -> string) returns (r: Result<string>)
    ensures r == Sections(xs, show)
  {
    var markdown := "";
    var i := 0;
    while i < |xs|
      invariant 0 <= i <= |xs|
      invariant Sections(xs[..i], show) == Ok(markdown)
    {
      assert xs[..i + 1][..i] == xs[..i];
      var plan := xs[i];
      if !plan.JObj? {
        SectionsOk(xs, show);
        return Err(AttributeError);
      }
      var title := LookupOr(plan.fields, "title", LookupOr(plan.fields, "plan_id", JStr("プラン")));
      var theme := LookupOr(plan.fields, "theme", JStr(""));
      var summary := LookupOr(plan.fields, "summary", JStr(""));
      var section := "### " + Text(title, show) + "\n";
      if Truthy(theme) {
        section := section + "**テーマ**: " + Text(theme, show) + "\n\n";
      }
      if Truthy(summary) {
        section := section + Text(summary, show) + "\n\n";
      }
      assert section == Section(plan, show);
      markdown := markdown + section;
      i := i + 1;
    }
    assert xs[..|xs|] == xs;
    return Ok(markdown);
  }

  /** Lines 654-657: gather the constraints of every plan. */
  method CollectConstraints(xs: seq<Json>) returns (r: Result<seq<Json>>)
    requires forall i :: 0 <= i < |xs| ==> xs[i].JObj?
    ensures r == Collected(xs)
  {
    var constraints: seq<Json> := [];
    var i := 0;
    while i < |xs|
      invariant 0 <= i <= |xs|
      invariant Collected(xs[..i]) == Ok(constraints)
    {
      assert xs[..i + 1][..i] == xs[..i];
      var planConstraints := Iterate(LookupOr(xs[i].fields, "constraints_respected", JArr([])));
      if planConstraints.Err? {
        assert Collected(xs[..i + 1]) == Err(TypeError);
        CollectedErrSticks(xs, i + 1);
        return Err(planConstraints.error);
      }
      constraints := constraints + planConstraints.value;
      i := i + 1;
    }
    assert xs[..|xs|] == xs;
    return Ok(constraints);
  }

  /** Lines 659-661: one bullet for each element of `set(constraints)`, in
      whatever order the set yields them. */
  method WriteBullets(cs: seq<Json>, show: Json -> string) returns (markdown: string)
    ensures exists order :: Enumerates(order, cs) && markdown == Bullets(order, show)
  {
    markdown := "";
    var remaining := set c | c in cs;
    ghost var order: seq<Json> := [];
    while remaining != {}
      invariant NoDup(order)
      invariant forall x :: x in cs <==> x in order || x in remaining
      invariant forall x :: x in order ==> x !in remaining
      invariant markdown == Bullets(order, show)
      decreases remaining
    {
      var constraint :| constraint in remaining;
      markdown := markdown + Bullet(constraint, show);
      assert (order + [constraint])[..|order|] == order;
      order := order + [constraint];
      remaining := remaining - {constraint};
    }
    assert Enumerates(order, cs);
  }

  /** Lemma: once the constraints of a prefix of the plans fail to collect,
      those of all of them do. */
  lemma {:induction false} CollectedErrSticks(plans: seq<Json>, i: nat)
    requires forall k :: 0 <= k < |plans| ==> plans[k].JObj?
    requires i <= |plans| && Collected(plans[..i]) == Err(TypeError)
    ensures Collected(plans) == Err(TypeError)
    decreases |plans| - i
  {
    if i < |plans| {
      assert plans[..i + 1][..i] == plans[..i];
      CollectedErrSticks(plans, i + 1);
    } else {
      assert plans[..i] == plans;
    }
  }
}
