/** What `_validate_itinerary` promises about the plan it leaves behind: the
    re-timed items run back to back from the meetup string to the breakup
    string, keep everything but their times, and the flags say so; and the
    inputs on which it gives up or raises instead. */
module ItineraryFacts {
  import opened PyJson
  import opened Clock
  import opened Itinerary

  /** `item.get(k)` of a dict; nothing for any other value. */
  function Field(item: Json, k: string): Option<Json> {
    if item.JObj? then Lookup(item.fields, k) else None
  }

  /** `plan.get("itinerary", [])`. */
  function ItemsOf(plan: Json): Json
    requires plan.JObj?
  {
    LookupOr(plan.fields, "itinerary", JArr([]))
  }

  /** Both times parse, the plan is a dict and its itinerary a non-empty
      list of dicts: the inputs on which every line of the method runs. */
  predicate Timed(plan: Json, m: Json, b: Json, cal: Calendar) {
    ParseStamp(m, cal).Ok? && ParseStamp(b, cal).Ok? && plan.JObj?
    && ItemsOf(plan).JArr? && ItemsOf(plan).elems != []
    && forall i :: 0 <= i < |ItemsOf(plan).elems| ==> ItemsOf(plan).elems[i].JObj?
  }

  /** `item[k] = v` on a dict. */
  function Pin(item: Json, k: string, v: Json): Json
    requires item.JObj?
  {
    JObj(Store(item.fields, k, v))
  }

  /** `items[0]["start"] = m` then `items[-1]["end"] = b`. */
  function PinEnds(xs: seq<Json>, m: Json, b: Json): (ys: seq<Json>)
    requires xs != [] && xs[0].JObj? && xs[|xs| - 1].JObj?
    ensures |ys| == |xs|
  {
    var first := xs[0 := Pin(xs[0], "start", m)];
    first[|first| - 1 := Pin(first[|first| - 1], "end", b)]
  }

  /** The items after `itinerary[0]["start"] = meetup_time` and
      `itinerary[-1]["end"] = breakup_time`. */
  function Pinned(plan: Json, m: Json, b: Json, cal: Calendar): (ys: seq<Json>)
    requires Timed(plan, m, b, cal)
    ensures |ys| == |ItemsOf(plan).elems|
  {
    PinEnds(ItemsOf(plan).elems, m, b)
  }

  /** The minute every item but the last ends. */
  function PlanEnds(plan: Json, m: Json, b: Json, cal: Calendar): (ends: seq<int>)
    requires Timed(plan, m, b, cal)
    ensures |ends| == |ItemsOf(plan).elems| - 1
  {
    Schedule(TypesOf(ItemsOf(plan).elems), ParseStamp(m, cal).value, ParseStamp(b, cal).value)
  }

  /** The re-timed itinerary stored back into the plan. */
  function Output(plan: Json, m: Json, b: Json, cal: Calendar): (out: seq<Json>)
    requires Timed(plan, m, b, cal)
    ensures |out| == |ItemsOf(plan).elems|
  {
    Retimes(Pinned(plan, m, b, cal), PlanEnds(plan, m, b, cal), m.s, b.s, cal)
  }

  /** Lemma: setting an item's start and end changes those two fields and
      no other. */
  lemma RestampSpec(item: Json, s: string, e: string)
    requires item.JObj?
    ensures Field(Restamp(item, s, e), "start") == Some(JStr(s))
    ensures Field(Restamp(item, s, e), "end") == Some(JStr(e))
    ensures forall k :: k != "start" && k != "end" ==> Field(Restamp(item, s, e), k) == Field(item, k)
  {
    StoreSpec(item.fields, "start", JStr(s));
    StoreSpec(Store(item.fields, "start", JStr(s)), "end", JStr(e));
  }

  /** Lemma: `item[k] = v` leaves every other field, and so the type unless
      `k` is `"type"`, as it was. */
  lemma PinSpec(item: Json, k: string, v: Json)
    requires item.JObj?
    ensures Field(Pin(item, k, v), k) == Some(v)
    ensures forall k' :: k' != k ==> Field(Pin(item, k, v), k') == Field(item, k')
    ensures k != "type" ==> TypeOf(Pin(item, k, v)) == TypeOf(item)
  {
    StoreSpec(item.fields, k, v);
  }

  /** Lemma: pinning the two ends touches only the first item's start and
      the last item's end; in particular every item keeps its type. */
  lemma PinEndsSpec(xs: seq<Json>, m: Json, b: Json)
    requires xs != [] && forall i :: 0 <= i < |xs| ==> xs[i].JObj?
    ensures forall i :: 0 <= i < |xs| ==> PinEnds(xs, m, b)[i].JObj?
    ensures Field(PinEnds(xs, m, b)[0], "start") == Some(m)
    ensures Field(PinEnds(xs, m, b)[|xs| - 1], "end") == Some(b)
    ensures forall i, k :: 0 <= i < |xs| && k != "start" && k != "end" ==>
      Field(PinEnds(xs, m, b)[i], k) == Field(xs[i], k)
    ensures TypesOf(PinEnds(xs, m, b)) == TypesOf(xs)
  {
    var n := |xs|;
    var first := xs[0 := Pin(xs[0], "start", m)];
    var ys := PinEnds(xs, m, b);
    PinSpec(xs[0], "start", m);
    PinSpec(first[n - 1], "end", b);
    forall i | 0 <= i < n
      ensures ys[i].JObj? && TypeOf(ys[i]) == TypeOf(xs[i])
      ensures forall k :: k != "start" && k != "end" ==> Field(ys[i], k) == Field(xs[i], k)
    {
    }
    assert TypesOf(ys) == TypesOf(xs) by {
      assert forall i :: 0 <= i < n ==> TypesOf(ys)[i] == TypesOf(xs)[i];
    }
  }

  /** Lemma: on these inputs the method gets as far as the flags: the plan is
      the pinned items re-timed, then checked. */
  lemma ReachesChecks(plan: Json, m: Json, b: Json, cal: Calendar)
    requires Timed(plan, m, b, cal)
    ensures ValidatedPlan(plan, m, b, cal) == Checked(plan.fields, Output(plan, m, b, cal), m.s, b.s, cal)
  {
    var xs := ItemsOf(plan).elems;
    var n := |xs|;
    var first := xs[0 := Pin(xs[0], "start", m)];
    assert SetInItem(ItemsOf(plan), false, "start", m) == Ok(JArr(first));
    assert SetInItem(JArr(first), true, "end", b) == Ok(JArr(Pinned(plan, m, b, cal)));
    PinEndsSpec(xs, m, b);
    KindsOfDicts(Pinned(plan, m, b, cal));
  }

  /** Lemma: the shape of the re-timed itinerary. It has as many items as
      before; the first starts with the meetup string and the last ends
      with the breakup string, both as given; each other end is the
      rendered schedule time and the next item starts with that very
      string; no field but `start` and `end` changes. */
  lemma OutputSpec(plan: Json, m: Json, b: Json, cal: Calendar)
    requires Timed(plan, m, b, cal)
    ensures var out, n := Output(plan, m, b, cal), |ItemsOf(plan).elems|;
      Field(out[0], "start") == Some(m) && Field(out[n - 1], "end") == Some(b)
    ensures var out, ends := Output(plan, m, b, cal), PlanEnds(plan, m, b, cal);
      forall i :: 0 <= i < |ends| ==>
        Field(out[i], "end") == Some(JStr(cal.format(ends[i]))) && Field(out[i + 1], "start") == Field(out[i], "end")
    ensures var out := Output(plan, m, b, cal);
      forall i, k :: 0 <= i < |out| && k != "start" && k != "end" ==> Field(out[i], k) == Field(ItemsOf(plan).elems[i], k)
  {
    PinEndsSpec(ItemsOf(plan).elems, m, b);
    var ys := Pinned(plan, m, b, cal);
    var ends := PlanEnds(plan, m, b, cal);
    forall i | 0 <= i < |ys|
      ensures Field(Output(plan, m, b, cal)[i], "start") == Some(JStr(StartText(i, ends, m.s, cal)))
      ensures Field(Output(plan, m, b, cal)[i], "end") == Some(JStr(EndText(i, ends, b.s, cal)))
      ensures forall k :: k != "start" && k != "end" ==> Field(Output(plan, m, b, cal)[i], k) == Field(ys[i], k)
    {
      RestampSpec(ys[i], StartText(i, ends, m.s, cal), EndText(i, ends, b.s, cal));
    }
  }
}

module ItineraryChecks {
  import opened PyJson
  import opened Clock
  import opened Itinerary
  import opened ItineraryFacts

  /** Item `i` has an `end` and item `i + 1` a `start`, both parse, and they
      name the same minute. */
  predicate Meets(items: seq<Json>, i: nat, cal: Calendar)
    requires i + 1 < |items|
  {
    var e := Subscript(items[i], "end");
    var s := Subscript(items[i + 1], "start");
    e.Ok? && s.Ok? && ParseStamp(e.value, cal).Ok? && ParseStamp(s.value, cal).Ok?
    && ParseStamp(e.value, cal).value == ParseStamp(s.value, cal).value
  }

  /** Both parse, and they name different minutes. */
  predicate Mismatch(items: seq<Json>, i: nat, cal: Calendar)
    requires i + 1 < |items|
  {
    var e := Subscript(items[i], "end");
    var s := Subscript(items[i + 1], "start");
    e.Ok? && s.Ok? && ParseStamp(e.value, cal).Ok? && ParseStamp(s.value, cal).Ok?
    && ParseStamp(e.value, cal).value != ParseStamp(s.value, cal).value
  }

  /** Lemma: one step of the gap check: a matching first pair defers to the
      rest, a mismatching one answers `False`, anything else raises. */
  lemma GapFreeStep(items: seq<Json>, cal: Calendar)
    requires |items| >= 2
    ensures Meets(items, 0, cal) ==> GapFree(items, cal) == GapFree(items[1..], cal)
    ensures Mismatch(items, 0, cal) ==> GapFree(items, cal) == Ok(false)
    ensures !Meets(items, 0, cal) && !Mismatch(items, 0, cal) ==> GapFree(items, cal).Err?
  {
  }

  /** Lemma: the gap check answers `True` exactly when every item ends at
      the minute the next one starts. */
  lemma {:induction false} GapFreeExact(items: seq<Json>, cal: Calendar)
    ensures GapFree(items, cal) == Ok(true) <==> forall i :: 0 <= i < |items| - 1 ==> Meets(items, i, cal)
  {
    if |items| >= 2 {
      var rest := items[1..];
      GapFreeStep(items, cal);
      GapFreeExact(rest, cal);
      assert forall i :: 0 <= i < |rest| - 1 ==> (Meets(rest, i, cal) <==> Meets(items, i + 1, cal));
      if forall i :: 0 <= i < |items| - 1 ==> Meets(items, i, cal) {
        assert Meets(items, 0, cal);
      } else {
        var i :| 0 <= i < |items| - 1 && !Meets(items, i, cal);
        if i > 0 {
          assert !Meets(rest, i - 1, cal);
        }
      }
    }
  }

  /** Lemma: the gap check answers `False` only after finding an item that
      ends at another minute than the next one starts. */
  lemma {:induction false} GapFreeFalse(items: seq<Json>, cal: Calendar)
    requires GapFree(items, cal) == Ok(false)
    ensures exists i :: 0 <= i < |items| - 1 && Mismatch(items, i, cal)
  {
    var rest := items[1..];
    GapFreeStep(items, cal);
    if !Mismatch(items, 0, cal) {
      GapFreeFalse(rest, cal);
      var j :| 0 <= j < |rest| - 1 && Mismatch(rest, j, cal);
      assert Mismatch(items, j + 1, cal);
    }
  }

  /** Lemma: under a calendar that reads back what it writes, every item of
      the re-timed itinerary ends at the minute the next one starts. */
  lemma OutputMeets(plan: Json, m: Json, b: Json, cal: Calendar)
    requires Canonical(cal) && Timed(plan, m, b, cal)
    ensures var out := Output(plan, m, b, cal);
      Subscript(out[0], "start") == Ok(m) && Subscript(out[|out| - 1], "end") == Ok(b)
      && forall i :: 0 <= i < |out| - 1 ==> Meets(out, i, cal)
  {
    OutputSpec(plan, m, b, cal);
    var out := Output(plan, m, b, cal);
    var ends := PlanEnds(plan, m, b, cal);
    forall i | 0 <= i < |out| - 1
      ensures Meets(out, i, cal)
    {
      MeetsAt(out, i, cal, ends[i]);
    }
    FieldSubscript(out[0], "start");
    FieldSubscript(out[|out| - 1], "end");
  }

  /** Lemma: an item whose end string is the next item's start string, and
      parses, meets the next one. */
  lemma MeetsAt(items: seq<Json>, i: nat, cal: Calendar, t: int)
    requires i + 1 < |items| && cal.parse(cal.format(t)) == Some(t)
    requires Field(items[i], "end") == Some(JStr(cal.format(t)))
    requires Field(items[i + 1], "start") == Some(JStr(cal.format(t)))
    ensures Meets(items, i, cal)
  {
    FieldSubscript(items[i], "end");
    FieldSubscript(items[i + 1], "start");
  }

  /** Lemma: `d[k]` finds what `d.get(k)` finds. */
  lemma FieldSubscript(item: Json, k: string)
    ensures Field(item, k).Some? ==> Subscript(item, k) == Ok(Field(item, k).value)
  {
  }

  /** Lemma: the flags once the itinerary is re-timed: no gaps when every
      pair meets; the window is met exactly when both given strings are
      in the calendar's own format; `rounded_to_30min` is `True` whatever
      the times are. */
  lemma CheckedFlags(fields: seq<(string, Json)>, out: seq<Json>, m: Json, b: Json, cal: Calendar)
    requires |out| > 0 && ParseStamp(m, cal).Ok? && ParseStamp(b, cal).Ok?
    requires Subscript(out[0], "start") == Ok(m) && Subscript(out[|out| - 1], "end") == Ok(b)
    requires forall i :: 0 <= i < |out| - 1 ==> Meets(out, i, cal)
    ensures Checked(fields, out, m.s, b.s, cal)
         == Ok(JObj(Store(Store(fields, "itinerary", JArr(out)), "checks",
                          ChecksValue(IsCanonicalStamp(cal, m.s) && IsCanonicalStamp(cal, b.s), true, true))))
  {
    GapFreeExact(out, cal);
  }

  /** Lemma: the plan a well-formed input leaves behind: the itinerary is
      replaced by the re-timed one, the flags are added (no gaps, window
      met exactly when both strings are canonical, rounded), and every
      other key keeps its value. */
  lemma SuccessPath(plan: Json, m: Json, b: Json, cal: Calendar)
    requires Canonical(cal) && Timed(plan, m, b, cal)
    ensures ValidatedPlan(plan, m, b, cal).Ok?
    ensures var p := ValidatedPlan(plan, m, b, cal).value;
      p.JObj?
      && Lookup(p.fields, "itinerary") == Some(JArr(Output(plan, m, b, cal)))
      && Lookup(p.fields, "checks")
         == Some(ChecksValue(IsCanonicalStamp(cal, m.s) && IsCanonicalStamp(cal, b.s), true, true))
      && forall k :: k != "itinerary" && k != "checks" ==> Lookup(p.fields, k) == Lookup(plan.fields, k)
  {
    ReachesChecks(plan, m, b, cal);
    OutputMeets(plan, m, b, cal);
    var out := Output(plan, m, b, cal);
    var checks := ChecksValue(IsCanonicalStamp(cal, m.s) && IsCanonicalStamp(cal, b.s), true, true);
    CheckedFlags(plan.fields, out, m, b, cal);
    assert ValidatedPlan(plan, m, b, cal)
        == Ok(JObj(Store(Store(plan.fields, "itinerary", JArr(out)), "checks", checks)));
    StoreTwice(plan.fields, "itinerary", JArr(out), "checks", checks);
  }

  /** Lemma: a time string that does not parse, or a plan without
      itinerary items, gives all three flags `False` and changes nothing
      else. */
  lemma FailedChecksPath(plan: Json, m: Json, b: Json, cal: Calendar)
    requires plan.JObj?
    requires (m.JStr? && cal.parse(m.s).None?)
          || (ParseStamp(m, cal).Ok? && b.JStr? && cal.parse(b.s).None?)
          || (ParseStamp(m, cal).Ok? && ParseStamp(b, cal).Ok? && !Truthy(ItemsOf(plan)))
    ensures ValidatedPlan(plan, m, b, cal).Ok?
    ensures var p := ValidatedPlan(plan, m, b, cal).value;
      p.JObj? && Lookup(p.fields, "checks") == Some(FailedChecks)
      && forall k :: k != "checks" ==> Lookup(p.fields, k) == Lookup(plan.fields, k)
  {
    StoreSpec(plan.fields, "checks", FailedChecks);
  }

  /** Lemma: a time that is not a string is a `TypeError` from `strptime`,
      which the `except ValueError` does not catch. */
  lemma NonStringTimeRaises(plan: Json, m: Json, b: Json, cal: Calendar)
    requires !m.JStr? || (ParseStamp(m, cal).Ok? && !b.JStr?)
    ensures ValidatedPlan(plan, m, b, cal) == Err(TypeError)
  {
  }

  /** Lemma: a plan that is not a dict fails at `plan["checks"] = ...` when a
      time does not parse, and at `plan.get` otherwise. */
  lemma NonDictPlanRaises(plan: Json, m: Json, b: Json, cal: Calendar)
    requires !plan.JObj? && m.JStr? && b.JStr?
    ensures ValidatedPlan(plan, m, b, cal)
         == Err(if cal.parse(m.s).Some? && cal.parse(b.s).Some? then AttributeError else TypeError)
  {
  }

  /** Lemma: an itinerary that is truthy but not a list of dicts raises:
      a dict has no key `0`; any other non-list, or a first or last item
      that is not a dict, refuses the string subscript; an inner item that
      is not a dict has no `get`. */
  lemma MalformedItineraryRaises(plan: Json, m: Json, b: Json, cal: Calendar)
    requires plan.JObj? && ParseStamp(m, cal).Ok? && ParseStamp(b, cal).Ok? && Truthy(ItemsOf(plan))
    requires !Timed(plan, m, b, cal)
    ensures var items := ItemsOf(plan);
      ValidatedPlan(plan, m, b, cal)
      == Err(if items.JObj? then KeyError
             else if !items.JArr? || !items.elems[0].JObj? || !items.elems[|items.elems| - 1].JObj? then TypeError
             else AttributeError)
  {
    var items := ItemsOf(plan);
    if items.JArr? && items.elems[0].JObj? && items.elems[|items.elems| - 1].JObj? {
      var xs := items.elems;
      var first := xs[0 := Pin(xs[0], "start", m)];
      assert SetInItem(items, false, "start", m) == Ok(JArr(first));
      assert SetInItem(JArr(first), true, "end", b) == Ok(JArr(PinEnds(xs, m, b)));
      var j :| 0 <= j < |xs| && !xs[j].JObj?;
      assert PinEnds(xs, m, b)[j] == xs[j];
      assert Kinds(PinEnds(xs, m, b)) == Err(AttributeError);
    }
  }
}

/** How the schedule spaces the items: each item but the last lasts what its
    type asks for, so the times never run backwards, but nothing keeps the
    last item from starting after the breakup time. */
module ScheduleFacts {
  import opened PyJson
  import opened Clock
  import opened Itinerary

  predicate IsMarker(kind: Json) {
    kind == JStr("meetup") || kind == JStr("breakup")
  }

  /** Lemma: item `i` (not the last) starts where the one before it ended
      and lasts by its type: a meetup or breakup marker nothing, a move 15
      minutes, anything else the allocation, its end rounded to the half
      hour, so at least 16 minutes. */
  lemma ScheduleStep(kinds: seq<Json>, meetup: int, breakup: int, i: nat)
    requires i < |kinds| - 1
    ensures var ends := Schedule(kinds, meetup, breakup);
      var start := StartAt(i, ends, meetup);
      var alloc := Allocation(Available(kinds, meetup, breakup), |kinds|);
      (IsMarker(kinds[i]) ==> ends[i] == start)
      && (kinds[i] == JStr("move") ==> ends[i] == start + 15)
      && (!IsMarker(kinds[i]) && kinds[i] != JStr("move") ==>
            ends[i] == RoundTo30(start + alloc) && ends[i] % 30 == 0 && ends[i] >= start + 16)
  {
    var alloc := Allocation(Available(kinds, meetup, breakup), |kinds|);
    EndsChain(kinds[..|kinds| - 1], meetup, alloc, i);
  }

  /** Lemma: the times never run backwards: every end is at or after the
      meetup time and at or after every earlier end. */
  lemma {:induction false} ScheduleOrdered(kinds: seq<Json>, meetup: int, breakup: int, j: nat)
    requires j < |kinds| - 1
    ensures var ends := Schedule(kinds, meetup, breakup);
      forall i :: 0 <= i <= j ==> meetup <= ends[i] <= ends[j]
  {
    ScheduleStep(kinds, meetup, breakup, j);
    if j > 0 {
      ScheduleOrdered(kinds, meetup, breakup, j - 1);
    }
  }

  /** Lemma: a first item that is a move ends a quarter past the half
      hour, though `rounded_to_30min` is still set. */
  lemma MoveEndsOffGrid(kinds: seq<Json>, meetup: int, breakup: int)
    requires |kinds| >= 2 && kinds[0] == JStr("move") && meetup % 30 == 0
    ensures Schedule(kinds, meetup, breakup)[0] % 30 == 15
  {
    ScheduleStep(kinds, meetup, breakup, 0);
  }

  /** Two activities between the meetup and breakup markers. */
  const Sample: seq<Json> := [JStr("meetup"), JStr("activity"), JStr("activity"), JStr("breakup")]

  lemma SampleAllocation()
    ensures Allocation(Available(Sample, 600, 630), 4) == 30
  {
    var mins := MinDurations(Sample);
    assert mins == [0, 30, 30, 0];
    assert Sum([0]) == 0 by { assert [0][..0] == []; }
    assert Sum([0, 30]) == 30 by { assert [0, 30][..1] == [0]; }
    assert Sum([0, 30, 30]) == 60 by { assert [0, 30, 30][..2] == [0, 30]; }
    assert Sum(mins) == 60 by { assert mins[..3] == [0, 30, 30]; }
  }

  lemma SampleEnds()
    ensures Ends(Sample[..3], 600, 30) == [600, 630, 660]
  {
    var inner := Sample[..3];
    EndsChain(inner, 600, 30, 0);
    EndsChain(inner, 600, 30, 1);
    EndsChain(inner, 600, 30, 2);
    HourAndMinute(10, 30);
    HourAndMinute(11, 0);
    assert RoundTo30(630) == 630 && RoundTo30(660) == 660;
  }

  /** Lemma: the window is not enforced: with a 30-minute window and two
      activities between the markers, the breakup marker starts 30 minutes
      after the breakup time it also ends at. */
  lemma LastItemCanStartAfterBreakup()
    ensures var ends := Schedule(Sample, 600, 630);
      ends == [600, 630, 660] && StartAt(3, ends, 600) == 660 > 630
  {
    SampleAllocation();
    SampleEnds();
  }
}
