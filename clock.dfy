/** Timestamps of the date plan. A time is a whole number of minutes since an
    epoch that falls on the hour, so its minute of the hour is `t % 60`
    (times parsed with the `"%Y-%m-%d %H:%M"` format have no seconds). */
module Clock {
  import opened PyJson

  /** The start of the hour that contains `t`. */
  function HourStart(t: int): int {
    t - t % 60
  }

  /** `_round_to_30min`: minutes below 15 go down to the hour, 15 to 44 go to
      half past, 45 and above go up to the next hour. */
  function RoundTo30(t: int): (r: int)
    ensures r % 30 == 0
    ensures t - 14 <= r <= t + 15
  {
    var minute := t % 60;
    if minute < 15 then HourStart(t)
    else if minute < 45 then HourStart(t) + 30
    else HourStart(t) + 60
  }

  /** Lemma: the rounded time is on the hour or at half past. */
  lemma RoundedMinute(t: int)
    ensures RoundTo30(t) % 60 == 0 || RoundTo30(t) % 60 == 30
  {
  }

  /** Lemma: the three cases of the rounding rule, the last one possibly
      rolling over into the next hour (and so the next day). */
  lemma RoundingRule(t: int)
    ensures t % 60 < 15 ==> RoundTo30(t) == HourStart(t)
    ensures 15 <= t % 60 < 45 ==> RoundTo30(t) == HourStart(t) + 30
    ensures 45 <= t % 60 ==> RoundTo30(t) == HourStart(t) + 60 && RoundTo30(t) / 60 == t / 60 + 1
  {
  }

  /** Lemma: the hour and the minute of the hour of `60 * q + c`. */
  lemma HourAndMinute(q: int, c: int)
    requires 0 <= c < 60
    ensures (60 * q + c) / 60 == q && (60 * q + c) % 60 == c
  {
  }

  /** Lemma: the rounded time is the start of the hour plus 0, 30 or 60
      minutes, by the minute of the hour. */
  lemma RoundedOffset(t: int)
    ensures t == 60 * (t / 60) + t % 60
    ensures RoundTo30(t) == 60 * (t / 60) + (if t % 60 < 15 then 0 else if t % 60 < 45 then 30 else 60)
  {
  }

  /** Lemma: rounding a rounded time changes nothing. */
  lemma RoundIdempotent(t: int)
    ensures RoundTo30(RoundTo30(t)) == RoundTo30(t)
  {
    var q, r := t / 60, RoundTo30(t);
    RoundedOffset(t);
    if r == 60 * q + 30 {
      HourAndMinute(q, 30);
    } else if r == 60 * q {
      HourAndMinute(q, 0);
    } else {
      assert r == 60 * (q + 1) + 0;
      HourAndMinute(q + 1, 0);
    }
  }

  /** Lemma: no half-hour mark is closer to `t` than the rounded time; of two
      equally close marks the later one is chosen. */
  lemma RoundIsNearest(t: int, g: int)
    requires g % 30 == 0
    ensures g <= t ==> t - g >= RoundTo30(t) - t || g == RoundTo30(t)
    ensures g >= t ==> g - t >= t - RoundTo30(t)
    ensures g < t && t - g == RoundTo30(t) - t ==> g < RoundTo30(t)
  {
  }

  /** Lemma: rounding never moves a later time before an earlier one. */
  lemma RoundMonotonic(t: int, u: int)
    requires t <= u
    ensures RoundTo30(t) <= RoundTo30(u)
  {
    RoundedOffset(t);
    RoundedOffset(u);
  }

  /** `strftime` and `strptime` with the format `"%Y-%m-%d %H:%M"`:
      `format` renders a time, `parse` reads one back or fails (`None`, the
      `ValueError` case). `strptime` also accepts strings that are not in
      the canonical form, e.g. without zero padding. */
  datatype Calendar = Calendar(format: int -> string, parse: string -> Option<int>)

  /** Reading back a rendered time gives that time. */
  ghost predicate Canonical(cal: Calendar) {
    forall t :: cal.parse(cal.format(t)) == Some(t)
  }

  /** A string that `format` itself produces. */
  predicate IsCanonicalStamp(cal: Calendar, s: string) {
    match cal.parse(s)
    case Some(t) => cal.format(t) == s
    case None => false
  }
}
