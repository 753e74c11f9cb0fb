/** `_validate_itinerary`: re-time the items of one plan so that they run back
    to back from the meetup time to the breakup time, then record three
    check flags in the plan.

    `ValidatedPlan` is the specification: the plan the code leaves behind,
    or the exception it raises. `ValidateItinerary` is the code, loop by
    loop, proved to compute it. The lemmas state what the code promises. */
module Itinerary {
  import opened PyJson
  import opened Clock

  function Max(a: int, b: int): int {
    if a >= b then a else b
  }

  /** The `checks` object written into the plan. */
  function ChecksValue(meets: bool, noGaps: bool, rounded: bool): Json {
    JObj([("meets_exact_time_window", JBool(meets)),
          ("no_gaps_or_overlaps", JBool(noGaps)),
          ("rounded_to_30min", JBool(rounded))])
  }

  const FailedChecks: Json := ChecksValue(false, false, false)

  /** `datetime.strptime(v, "%Y-%m-%d %H:%M")`: a non-string argument is a
      `TypeError`, a string that does not parse a `ValueError`. */
  function ParseStamp(v: Json, cal: Calendar): Result<int> {
    if !v.JStr? then Err(TypeError)
    else match cal.parse(v.s)
      case Some(t) => Ok(t)
      case None => Err(ValueError)
  }

  /** `item.get("type", "other")` of a dict. */
  function TypeOf(item: Json): Json
    requires item.JObj?
  {
    LookupOr(item.fields, "type", JStr("other"))
  }

  /** The types of the items, read in order; an item that is not a dict has
      no `get`. */
  function Kinds(items: seq<Json>): (r: Result<seq<Json>>)
    ensures r.Ok? <==> forall i :: 0 <= i < |items| ==> items[i].JObj?
    ensures r.Ok? ==> |r.value| == |items| && forall i :: 0 <= i < |items| ==> r.value[i] == TypeOf(items[i])
    ensures r.Err? ==> r.error == AttributeError
  {
    if items == [] then Ok([])
    else
      var ks :- Kinds(items[..|items| - 1]);
      var k :- GetOr(items[|items| - 1], "type", JStr("other"));
      Ok(ks + [k])
  }

  /** The least minutes an item takes: a move 15, the meetup and breakup
      markers nothing, anything else 30. */
  function MinDuration(kind: Json): nat {
    if kind == JStr("move") then 15
    else if kind == JStr("meetup") || kind == JStr("breakup") then 0
    else 30
  }

  function MinDurations(kinds: seq<Json>): (ds: seq<int>)
    ensures |ds| == |kinds|
  {
    seq(|kinds|, i requires 0 <= i < |kinds| => MinDuration(kinds[i]))
  }

  /** Python's `sum`. */
  function Sum(xs: seq<int>): int {
    if xs == [] then 0 else Sum(xs[..|xs| - 1]) + xs[|xs| - 1]
  }

  /** The minutes of the window left once every item has its minimum. */
  function Available(kinds: seq<Json>, meetup: int, breakup: int): nat {
    Max(0, (breakup - meetup) - Sum(MinDurations(kinds)))
  }

  /** The minutes given to an item that is neither a move nor a marker: the
      left-over time shared equally among the `n - 2` items between the
      first and the last, but never less than the 30-minute minimum. The
      share is a whole number of minutes (`int()` of a non-negative
      quotient). */
  function Allocation(available: nat, n: nat): (minutes: int)
    ensures minutes >= 30
    ensures available == 0 || n <= 2 ==> minutes == 30
  {
    if available > 0 && n > 2 then Max(30, available / (n - 2)) else 30
  }

  /** Lemma: an allocation above the minimum is an equal share of the
      left-over time: the `n - 2` inner items together never get more than
      is available. */
  lemma AllocationIsShare(available: nat, n: nat)
    ensures Allocation(available, n) > 30 ==>
      n > 2 && Allocation(available, n) * (n - 2) <= available < (Allocation(available, n) + 1) * (n - 2)
  {
    if available > 0 && n > 2 {
      var share := available / (n - 2);
      assert share * (n - 2) <= available < (share + 1) * (n - 2);
    }
  }

  /** Where an item that starts at `start` ends, by its type. */
  function ItemEnd(kind: Json, start: int, alloc: int): int {
    if kind == JStr("meetup") || kind == JStr("breakup") then start
    else if kind == JStr("move") then start + 15
    else RoundTo30(start + alloc)
  }

  /** The end of each item in turn, each starting where the one before it
      ended. */
  function Ends(kinds: seq<Json>, start: int, alloc: int): (ends: seq<int>)
    ensures |ends| == |kinds|
  {
    if kinds == [] then []
    else
      var e := ItemEnd(kinds[0], start, alloc);
      [e] + Ends(kinds[1..], e, alloc)
  }

  /** The ends of all items but the last, which ends at the breakup time. */
  function Schedule(kinds: seq<Json>, meetup: int, breakup: int): (ends: seq<int>)
    requires |kinds| > 0
    ensures |ends| == |kinds| - 1
  {
    Ends(kinds[..|kinds| - 1], meetup, Allocation(Available(kinds, meetup, breakup), |kinds|))
  }

  /** The `start` string item `i` receives: the meetup string itself for the
      first item, the previous item's end for the others. */
  function StartText(i: nat, ends: seq<int>, meetup: string, cal: Calendar): string
    requires i <= |ends|
  {
    if i == 0 then meetup else cal.format(ends[i - 1])
  }

  /** The `end` string item `i` receives: the breakup string itself for the
      last item. */
  function EndText(i: nat, ends: seq<int>, breakup: string, cal: Calendar): string
    requires i <= |ends|
  {
    if i == |ends| then breakup else cal.format(ends[i])
  }

  /** The minute item `i` starts. */
  function StartAt(i: nat, ends: seq<int>, meetup: int): int
    requires i <= |ends|
  {
    if i == 0 then meetup else ends[i - 1]
  }

  /** `item["start"] = start` then `item["end"] = end`. */
  function Restamp(item: Json, start: string, end: string): Json
    requires item.JObj?
  {
    JObj(Store(Store(item.fields, "start", JStr(start)), "end", JStr(end)))
  }

  /** Every item re-stamped along the schedule. */
  function Retimes(items: seq<Json>, ends: seq<int>, meetup: string, breakup: string, cal: Calendar): (out: seq<Json>)
    requires |items| == |ends| + 1
    requires forall i :: 0 <= i < |items| ==> items[i].JObj?
  {
    seq(|items|, i requires 0 <= i < |items| =>
      Restamp(items[i], StartText(i, ends, meetup, cal), EndText(i, ends, breakup, cal)))
  }

  /** `itinerary[0][k] = v` (or `itinerary[-1][k] = v` when `last`). */
  function SetInItem(container: Json, last: bool, k: string, v: Json): (r: Result<Json>)
    ensures r.Ok? <==> container.JArr? && container.elems != []
                       && container.elems[if last then |container.elems| - 1 else 0].JObj?
    ensures r.Ok? ==>
      var at := if last then |container.elems| - 1 else 0;
      r.value == JArr(container.elems[at := JObj(Store(container.elems[at].fields, k, v))])
  {
    var item :- Index(container, last);
    var stored :- StoreKey(item, k, v);
    match container
    case JArr(xs) => Ok(JArr(xs[if last then |xs| - 1 else 0 := stored]))
    case _ => assert false; Err(TypeError)
  }

  /** The gap check of lines 521-526: compare each item's end with the next
      item's start, stopping at the first mismatch. */
  function GapFree(items: seq<Json>, cal: Calendar): Result<bool>
  {
    if |items| < 2 then Ok(true)
    else
      var e :- Subscript(items[0], "end");
      var currentEnd :- ParseStamp(e, cal);
      var s :- Subscript(items[1], "start");
      var nextStart :- ParseStamp(s, cal);
      if currentEnd != nextStart then Ok(false) else GapFree(items[1..], cal)
  }

  /** Lines 463-537, once both times parsed and both ends of the itinerary
      are pinned. */
  function Retimed(fields: seq<(string, Json)>, items: seq<Json>, meetup: string, breakup: string,
                   meetupT: int, breakupT: int, cal: Calendar): Result<Json>
    requires |items| > 0
  {
    var kinds :- Kinds(items);
    var out := Retimes(items, Schedule(kinds, meetupT, breakupT), meetup, breakup, cal);
    Checked(fields, out, meetup, breakup, cal)
  }

  /** Lines 515-537: read back the first start and the last end, run the gap
      check, and store the re-timed itinerary and the flags in the plan. */
  function Checked(fields: seq<(string, Json)>, out: seq<Json>, meetup: string, breakup: string,
                   cal: Calendar): Result<Json>
    requires |out| > 0
  {
    var firstStart :- Subscript(out[0], "start");
    var finalStart :- ParseStamp(firstStart, cal);
    var lastEnd :- Subscript(out[|out| - 1], "end");
    var finalEnd :- ParseStamp(lastEnd, cal);
    var noGaps :- GapFree(out, cal);
    var meets := cal.format(finalStart) == meetup && cal.format(finalEnd) == breakup;
    Ok(JObj(Store(Store(fields, "itinerary", JArr(out)), "checks", ChecksValue(meets, noGaps, true))))
  }

  /** `_validate_itinerary(plan, meetup_time, breakup_time)`: the plan it
      leaves behind, or the exception it raises. */
  function ValidatedPlan(plan: Json, meetupTime: Json, breakupTime: Json, cal: Calendar): Result<Json>
  {
    var meetupDt := ParseStamp(meetupTime, cal);
    if meetupDt == Err(ValueError) then StoreKey(plan, "checks", FailedChecks)
    else
      var meetupT :- meetupDt;
      var breakupDt := ParseStamp(breakupTime, cal);
      if breakupDt == Err(ValueError) then StoreKey(plan, "checks", FailedChecks)
      else
        var breakupT :- breakupDt;
        var itinerary :- GetOr(plan, "itinerary", JArr([]));
        if !Truthy(itinerary) then StoreKey(plan, "checks", FailedChecks)
        else
          var pinned :- SetInItem(itinerary, false, "start", meetupTime);
          var pinned' :- SetInItem(pinned, true, "end", breakupTime);
          Retimed(plan.fields, pinned'.elems, meetupTime.s, breakupTime.s, meetupT, breakupT, cal)
  }

  /** Lemma: item `i` of the chain ends where its type takes it from the end
      of item `i - 1` (from `start` for the first). */
  lemma {:induction false} EndsChain(kinds: seq<Json>, start: int, alloc: int, i: nat)
    requires i < |kinds|
    ensures Ends(kinds, start, alloc)[i]
         == ItemEnd(kinds[i], if i == 0 then start else Ends(kinds, start, alloc)[i - 1], alloc)
  {
    if i > 0 {
      var e := ItemEnd(kinds[0], start, alloc);
      EndsChain(kinds[1..], e, alloc, i - 1);
    }
  }

  /** Lines 463-473: the minimum duration of every item, in order. */
  method CollectMinDurations(items: seq<Json>) returns (r: Result<seq<int>>)
    ensures r == match Kinds(items) { case Ok(kinds) => Ok(MinDurations(kinds)) case Err(e) => Err(e) }
  {
    var minDurations: seq<int> := [];
    var i := 0;
    while i < |items|
      invariant 0 <= i <= |items| && |minDurations| == i
      invariant forall j :: 0 <= j < i ==> items[j].JObj? && minDurations[j] == MinDuration(TypeOf(items[j]))
    {
      var itemType := GetOr(items[i], "type", JStr("other"));
      if itemType.Err? {
        assert Kinds(items).Err?;
        return Err(itemType.error);
      }
      minDurations := minDurations + [MinDuration(itemType.value)];
      i := i + 1;
    }
    assert minDurations == MinDurations(Kinds(items).value);
    return Ok(minDurations);
  }

  /** Lines 483-513 for item `i` of `n`: its start and end strings and
      the time the next item starts. */
  method TimeItem(i: nat, n: nat, itemType: Json, minDur: int, current: int, availableTime: nat,
                  meetup: string, breakup: string, meetupT: int, breakupT: int, cal: Calendar)
    returns (start: string, end: string, next: int)
    requires i < n && minDur == MinDuration(itemType)
    ensures start == if i == 0 then meetup else cal.format(current)
    ensures i == n - 1 ==> end == breakup && next == breakupT
    ensures i < n - 1 ==>
      next == ItemEnd(itemType, if i == 0 then meetupT else current, Allocation(availableTime, n))
      && end == cal.format(next)
  {
    var itemStart;
    if i == 0 {
      start, itemStart := meetup, meetupT;
    } else {
      start, itemStart := cal.format(current), current;
    }
    if i == n - 1 {
      end, next := breakup, breakupT;
    } else {
      var itemEnd;
      if itemType == JStr("meetup") || itemType == JStr("breakup") {
        itemEnd := itemStart;
      } else if itemType == JStr("move") {
        itemEnd := itemStart + minDur;
      } else {
        var allocatedTime := if availableTime > 0 && n > 2
          then Max(minDur, availableTime / (n - 2)) else minDur;
        itemEnd := RoundTo30(itemStart + allocatedTime);
      }
      end, next := cal.format(itemEnd), itemEnd;
    }
  }

  /** The type of every item (all of them dicts). */
  function TypesOf(items: seq<Json>): (kinds: seq<Json>)
    requires forall i :: 0 <= i < |items| ==> items[i].JObj?
    ensures |kinds| == |items|
  {
    seq(|items|, i requires 0 <= i < |items| => TypeOf(items[i]))
  }

  /** Lemma: when every item is a dict, the types are read without error. */
  lemma {:induction false} KindsOfDicts(items: seq<Json>)
    requires forall i :: 0 <= i < |items| ==> items[i].JObj?
    ensures Kinds(items) == Ok(TypesOf(items))
  {
    if items != [] {
      var init := items[..|items| - 1];
      KindsOfDicts(init);
      assert TypesOf(items) == TypesOf(init) + [TypeOf(items[|items| - 1])];
    }
  }

  /** Lines 480-513: give every item its start and end, back to back from
      the meetup time; the last item ends at the breakup time. */
  method AssignTimes(items: seq<Json>, minDurations: seq<int>, availableTime: nat,
                     meetup: string, breakup: string, meetupT: int, breakupT: int, cal: Calendar)
    returns (out: seq<Json>)
    requires |items| > 0 && forall i :: 0 <= i < |items| ==> items[i].JObj?
    requires minDurations == MinDurations(TypesOf(items))
    requires availableTime == Available(TypesOf(items), meetupT, breakupT)
    ensures out == Retimes(items, Schedule(TypesOf(items), meetupT, breakupT), meetup, breakup, cal)
  {
    var n := |items|;
    ghost var kinds := TypesOf(items);
    ghost var alloc := Allocation(availableTime, n);
    ghost var ends := Schedule(kinds, meetupT, breakupT);
    assert ends == Ends(kinds[..n - 1], meetupT, alloc);
    ghost var target := Retimes(items, ends, meetup, breakup, cal);
    var current := meetupT;
    out := items;
    var i := 0;
    while i < n
      invariant 0 <= i <= n && |out| == n
      invariant i < n ==> current == StartAt(i, ends, meetupT)
      invariant forall j :: 0 <= j < i ==> out[j] == target[j]
      invariant forall j :: i <= j < n ==> out[j] == items[j]
    {
      var itemType := TypeOf(out[i]);
      var start, end, next := TimeItem(i, n, itemType, minDurations[i], current, availableTime,
                                       meetup, breakup, meetupT, breakupT, cal);
      if i < n - 1 {
        EndsChain(kinds[..n - 1], meetupT, alloc, i);
        assert next == ends[i];
      }
      assert out[i] == items[i];
      assert target[i] == Restamp(items[i], start, end);
      // item["start"] = start; item["end"] = end
      out := out[i := Restamp(out[i], start, end)];
      current := next;
      i := i + 1;
    }
  }

  /** Lines 520-526: compare each item's end with the next item's start and
      stop at the first mismatch. */
  method CheckGaps(items: seq<Json>, cal: Calendar) returns (r: Result<bool>)
    ensures r == GapFree(items, cal)
  {
    var noGaps := true;
    var i := 0;
    while i < |items| - 1 && noGaps
      invariant 0 <= i <= |items|
      invariant noGaps ==> GapFree(items, cal) == GapFree(items[i..], cal)
      invariant !noGaps ==> GapFree(items, cal) == Ok(false)
      decreases |items| - i - (if noGaps then 0 else 1)
    {
      assert items[i..][1..] == items[i + 1..];
      var e := Subscript(items[i], "end");
      if e.Err? {
        return Err(e.error);
      }
      var currentEnd := ParseStamp(e.value, cal);
      if currentEnd.Err? {
        return Err(currentEnd.error);
      }
      var s := Subscript(items[i + 1], "start");
      if s.Err? {
        return Err(s.error);
      }
      var nextStart := ParseStamp(s.value, cal);
      if nextStart.Err? {
        return Err(nextStart.error);
      }
      if currentEnd.value != nextStart.value {
        noGaps := false;
      } else {
        i := i + 1;
      }
    }
    return Ok(noGaps);
  }

  /** The code of `_validate_itinerary`, step by step. */
  method ValidateItinerary(plan: Json, meetupTime: Json, breakupTime: Json, cal: Calendar) returns (r: Result<Json>)
    ensures r == ValidatedPlan(plan, meetupTime, breakupTime, cal)
  {
    var meetupDt := ParseStamp(meetupTime, cal);
    if meetupDt == Err(ValueError) {
      return StoreKey(plan, "checks", FailedChecks);
    }
    if meetupDt.Err? {
      return Err(meetupDt.error);
    }
    var breakupDt := ParseStamp(breakupTime, cal);
    if breakupDt == Err(ValueError) {
      return StoreKey(plan, "checks", FailedChecks);
    }
    if breakupDt.Err? {
      return Err(breakupDt.error);
    }
    var meetupT, breakupT := meetupDt.value, breakupDt.value;

    var itinerary := GetOr(plan, "itinerary", JArr([]));
    if itinerary.Err? {
      return Err(itinerary.error);
    }
    if !Truthy(itinerary.value) {
      return StoreKey(plan, "checks", FailedChecks);
    }
    var pinned := SetInItem(itinerary.value, false, "start", meetupTime);
    if pinned.Err? {
      return Err(pinned.error);
    }
    pinned := SetInItem(pinned.value, true, "end", breakupTime);
    if pinned.Err? {
      return Err(pinned.error);
    }
    var items := pinned.value.elems;

    var minDurations := CollectMinDurations(items);
    if minDurations.Err? {
      return Err(minDurations.error);
    }
    KindsOfDicts(items);
    var totalDuration := breakupT - meetupT;
    var availableTime := Max(0, totalDuration - Sum(minDurations.value));
    var out := AssignTimes(items, minDurations.value, availableTime,
                           meetupTime.s, breakupTime.s, meetupT, breakupT, cal);

    r := RecordChecks(plan.fields, out, meetupTime.s, breakupTime.s, cal);
  }

  /** Lines 515-537. */
  method RecordChecks(fields: seq<(string, Json)>, out: seq<Json>, meetup: string, breakup: string,
                      cal: Calendar) returns (r: Result<Json>)
    requires |out| > 0
    ensures r == Checked(fields, out, meetup, breakup, cal)
  {
    var firstStart := Subscript(out[0], "start");
    if firstStart.Err? {
      return Err(firstStart.error);
    }
    var finalStart := ParseStamp(firstStart.value, cal);
    if finalStart.Err? {
      return Err(finalStart.error);
    }
    var lastEnd := Subscript(out[|out| - 1], "end");
    if lastEnd.Err? {
      return Err(lastEnd.error);
    }
    var finalEnd := ParseStamp(lastEnd.value, cal);
    if finalEnd.Err? {
      return Err(finalEnd.error);
    }
    var noGaps := CheckGaps(out, cal);
    if noGaps.Err? {
      return Err(noGaps.error);
    }
    var meets := cal.format(finalStart.value) == meetup && cal.format(finalEnd.value) == breakup;
    r := Ok(JObj(Store(Store(fields, "itinerary", JArr(out)), "checks", ChecksValue(meets, noGaps.value, true))));
  }
}
