/** The time calculator of tq/utils.py: lateness, hourly catch-up, weekday
    wrap-around, timeslot parsing and sorting, and the first-run and
    next-run instants of a schedule.

    Calendar model: a date is a day number (day 0 is 1970-01-01, a
    Thursday), a time of day is a number of seconds, a timezone is a fixed
    offset from UTC in seconds, and "now" is an explicit epoch-seconds
    parameter. */
module Utils {
  import opened Types

  const LatencyThreshold: int := 60 * 5
  const Hour: int := 60 * 60
  const DaySecs: int := Hour * 24

  /** The `weekdays` dictionary. */
  const WeekdayNames: map<string, int> :=
    map["mon" := 0, "tue" := 1, "wed" := 2, "thu" := 3, "fri" := 4, "sat" := 5, "sun" := 6]

  // ---------------------------------------------------------------------
  // Calendar arithmetic

  /** `date.weekday()`, Monday = 0. */
  function Weekday(day: int): (w: int)
    ensures 0 <= w < 7
  {
    (day + 3) % 7
  }

  /** `timegm` of a date and a time of day. */
  function Ts(day: int, secs: int): int {
    day * DaySecs + secs
  }

  /** The local date of the instant `now` in the zone `offset`. */
  function LocalDay(now: int, offset: int): int {
    (now + offset) / DaySecs
  }

  /** The local time of day of the instant `now` in the zone `offset`. */
  function LocalSecs(now: int, offset: int): (s: int)
    ensures 0 <= s < DaySecs
  {
    (now + offset) % DaySecs
  }

  /** `dt_to_utc`: a local date and time in zone `offset`, as epoch seconds. */
  function DtToUtc(day: int, secs: int, offset: int): int {
    Ts(day, secs) - offset
  }

  /** Splitting an instant into local date and time of day is undone by `Ts`. */
  lemma LocalClockSplit(now: int, offset: int)
    ensures DtToUtc(LocalDay(now, offset), LocalSecs(now, offset), offset) == now
  {
  }

  /** `Ts` is injective on times of day: date and time are recovered from it. */
  lemma {:induction false} TsDecompose(day: int, secs: int)
    requires 0 <= secs < DaySecs
    ensures Ts(day, secs) / DaySecs == day && Ts(day, secs) % DaySecs == secs
  {
    var t := Ts(day, secs);
    assert t == DaySecs * day + secs;
    DivModUnique(t, DaySecs, day, secs);
  }

  lemma DivModUnique(t: int, n: int, q: int, r: int)
    requires n > 0 && 0 <= r < n && t == n * q + r
    ensures t / n == q && t % n == r
  {
    var q', r' := t / n, t % n;
    assert t == n * q' + r';
    if q' > q {
      assert n * q' >= n * (q + 1) by { MulMonotone(n, q + 1, q'); }
    } else if q' < q {
      assert n * q >= n * (q' + 1) by { MulMonotone(n, q' + 1, q); }
    }
  }

  lemma MulMonotone(n: int, a: int, b: int)
    requires n > 0 && a <= b
    ensures n * a <= n * b
  {
  }

  /** Moving `k` days forward moves the weekday by `k` modulo 7. */
  lemma {:induction false} WeekdayShift(day: int, k: int)
    ensures Weekday(day + k) == (Weekday(day) + k) % 7
  {
    var q := (day + 3) / 7;
    var w := Weekday(day);
    assert day + 3 == 7 * q + w;
    var q2 := (w + k) / 7;
    var r2 := (w + k) % 7;
    assert w + k == 7 * q2 + r2;
    assert day + k + 3 == 7 * (q + q2) + r2;
    DivModUnique(day + k + 3, 7, q + q2, r2);
  }

  // ---------------------------------------------------------------------
  // Lateness and the hourly catch-up offset

  /** `should_run_fallback(ts_now, job)`: `ts_now - job.scheduled_at` exceeds
      the threshold; a job without `scheduled_at` makes the subtraction
      raise. */
  function ShouldRunFallback(tsNow: int, info: ExecInfo): (r: Result<bool>)
    ensures r.Err? <==> info.scheduledAt.None?
    ensures r.Err? ==> r.error == TypeError
    ensures r == Ok(true) <==> info.scheduledAt.Some? && tsNow > info.scheduledAt.value + LatencyThreshold
  {
    match info.scheduledAt
    case None => Err(TypeError)
    case Some(due) => Ok(tsNow - due > LatencyThreshold)
  }

  /** Exactly five minutes late is not late; one second more is. */
  lemma FallbackThresholdIsStrict(due: int, info: ExecInfo)
    requires info.scheduledAt == Some(due)
    ensures ShouldRunFallback(due + 300, info) == Ok(false)
    ensures ShouldRunFallback(due + 301, info) == Ok(true)
  {
  }

  /** The number of hourly intervals to move on: `every_hour`, plus the
      whole hours of lateness when the run was more than five minutes late.
      (`int(latency / hour)` truncates; the lateness is positive there, so
      it is Dafny's floor division. Python 3 divides in floating point
      first; that quotient truncates to the same whole number for every
      lateness below 2^53 seconds, and larger ones are not modelled.) */
  function CatchUpHours(everyHour: int, lateness: int): int {
    if lateness > LatencyThreshold then everyHour + lateness / Hour else everyHour
  }

  /** `get_hour_offset(job)`: `ran_at - scheduled_at` raises when either is
      missing, and so does `hour_count * hour` when `every_hour` is. */
  function GetHourOffset(info: ExecInfo): (r: Result<int>)
    ensures r.Err? <==> info.everyHour.None? || info.ranAt.None? || info.scheduledAt.None?
    ensures r.Err? ==> r.error == TypeError
  {
    if info.ranAt.None? || info.scheduledAt.None? || info.everyHour.None? then Err(TypeError)
    else Ok(CatchUpHours(info.everyHour.value, info.ranAt.value - info.scheduledAt.value) * Hour)
  }

  /** The offset is a whole number of hours, never less than `every_hour`
      hours, exactly that many when the run was at most five minutes late,
      and one more hour per full hour of lateness otherwise. */
  lemma {:induction false} HourOffsetShape(info: ExecInfo)
    requires info.everyHour.Some? && info.ranAt.Some? && info.scheduledAt.Some?
    ensures var r := GetHourOffset(info);
      var e, late := info.everyHour.value, info.ranAt.value - info.scheduledAt.value;
      && r.Ok?
      && r.value % Hour == 0
      && r.value >= e * Hour
      && (late <= LatencyThreshold ==> r.value == e * Hour)
      && (late > LatencyThreshold ==> r.value == (e + late / Hour) * Hour)
  {
    var e, late := info.everyHour.value, info.ranAt.value - info.scheduledAt.value;
    var c := CatchUpHours(e, late);
    assert c * Hour % Hour == 0 by { DivModUnique(c * Hour, Hour, c, 0); }
    if late > LatencyThreshold {
      assert late / Hour >= 0;
      assert c >= e;
      MulMonotone(Hour, e, c);
    }
  }

  /** Every two hours, run 3h10m (11400 s) late: three whole hours of lateness
      are added, so the offset is five hours (18000 s). */
  lemma HourOffsetExample(due: int)
    ensures GetHourOffset(EmptyInfo.(everyHour := Some(2), scheduledAt := Some(due), ranAt := Some(due + 11400)))
         == Ok(18000)
  {
  }

  // ---------------------------------------------------------------------
  // Weekday names

  /** `to_weekdays(days)`: each name looked up in `weekdays`; an unknown
      name raises KeyError. */
  function ToWeekdays(days: seq<string>): (r: Result<seq<int>>)
    ensures r.Ok? <==> forall i :: 0 <= i < |days| ==> days[i] in WeekdayNames
    ensures r.Err? ==> r.error == KeyError
    ensures r.Ok? ==> |r.value| == |days|
    ensures r.Ok? ==> forall i :: 0 <= i < |days| ==> r.value[i] == WeekdayNames[days[i]]
  {
    if |days| == 0 then Ok([])
    else if days[0] !in WeekdayNames then Err(KeyError)
    else
      match ToWeekdays(days[1..])
      case Err(e) => Err(e)
      case Ok(rest) => Ok([WeekdayNames[days[0]]] + rest)
  }

  /** Converted names are weekday numbers. */
  lemma ToWeekdaysInRange(days: seq<string>)
    requires ToWeekdays(days).Ok?
    ensures forall i :: 0 <= i < |days| ==> 0 <= ToWeekdays(days).value[i] < 7
  {
    forall i | 0 <= i < |days| ensures 0 <= ToWeekdays(days).value[i] < 7 {
      assert days[i] in WeekdayNames;
    }
  }

  // ---------------------------------------------------------------------
  // Timeslot strings

  /** `s.split(':')` */
  function Split(s: string): (r: seq<string>)
    ensures |r| >= 1
  {
    if |s| == 0 then [""]
    else
      var rest := Split(s[1..]);
      if s[0] == ':' then [""] + rest else [[s[0]] + rest[0]] + rest[1..]
  }

  /** `':'.join(fields)` */
  function Join(fields: seq<string>): string
    requires |fields| >= 1
  {
    if |fields| == 1 then fields[0] else fields[0] + ":" + Join(fields[1..])
  }

  /** Splitting loses nothing: joining the fields gives the string back,
      and no field contains the separator. */
  lemma {:induction false} SplitJoin(s: string)
    ensures Join(Split(s)) == s
    ensures forall i :: 0 <= i < |Split(s)| ==> ':' !in Split(s)[i]
  {
    if |s| > 0 {
      SplitJoin(s[1..]);
      var rest := Split(s[1..]);
      if s[0] == ':' {
        assert Split(s) == [""] + rest;
        assert Join(Split(s)) == "" + ":" + Join(rest);
        assert s == [':'] + s[1..];
      } else {
        var r := Split(s);
        assert r == [[s[0]] + rest[0]] + rest[1..];
        if |rest| == 1 {
          assert Join(r) == [s[0]] + rest[0];
        } else {
          assert Join(rest) == rest[0] + ":" + Join(rest[1..]);
          assert r[1..] == rest[1..];
          assert Join(r) == [s[0]] + rest[0] + ":" + Join(rest[1..]);
        }
        assert s == [s[0]] + s[1..];
        forall i | 0 <= i < |r| ensures ':' !in r[i] {
          if i > 0 { assert r[i] == rest[i]; }
        }
      }
    }
  }

  /** A field without ':' followed by ':' and more text splits there. */
  lemma {:induction false} SplitAtColon(a: string, b: string)
    requires ':' !in a
    ensures Split(a + ":" + b) == [a] + Split(b)
  {
    if |a| == 0 {
      assert a + ":" + b == [':'] + b;
      assert (a + ":" + b)[1..] == b;
    } else {
      var s := a + ":" + b;
      assert s[0] == a[0] && s[1..] == a[1..] + ":" + b;
      SplitAtColon(a[1..], b);
      assert [a[0]] + a[1..] == a;
    }
  }

  /** A string without ':' is one field. */
  lemma {:induction false} SplitNoColon(a: string)
    requires ':' !in a
    ensures Split(a) == [a]
  {
    if |a| > 0 {
      SplitNoColon(a[1..]);
      assert [a[0]] + a[1..] == a;
    }
  }

  predicate IsDigit(c: char) {
    '0' <= c <= '9'
  }

  predicate AllDigits(s: string) {
    forall i :: 0 <= i < |s| ==> IsDigit(s[i])
  }

  function DigitsValue(s: string): nat
    requires AllDigits(s)
  {
    if |s| == 0 then 0
    else
      assert IsDigit(s[|s| - 1]);
      DigitsValue(s[..|s| - 1]) * 10 + (s[|s| - 1] as int - '0' as int)
  }

  /** `int(field)` for a field of ASCII digits with an optional sign;
      anything else raises ValueError. */
  function ParseInt(f: string): Option<int> {
    if |f| > 0 && (f[0] == '+' || f[0] == '-') then
      var d := f[1..];
      if |d| > 0 && AllDigits(d) then
        var v: int := DigitsValue(d);
        Some(if f[0] == '-' then -v else v)
      else None
    else if |f| > 0 && AllDigits(f) then Some(DigitsValue(f))
    else None
  }

  /** `[int(_time) for _time in fields]`: the first field that is not an
      integer raises ValueError. */
  function ParseFields(fields: seq<string>): (r: Result<seq<int>>)
    ensures r.Ok? <==> forall i :: 0 <= i < |fields| ==> ParseInt(fields[i]).Some?
    ensures r.Err? ==> r.error == ValueError
    ensures r.Ok? ==> |r.value| == |fields|
    ensures r.Ok? ==> forall i :: 0 <= i < |fields| ==> ParseInt(fields[i]) == Some(r.value[i])
  {
    if |fields| == 0 then Ok([])
    else
      match ParseInt(fields[0])
      case None => Err(ValueError)
      case Some(x) =>
        match ParseFields(fields[1..])
        case Err(e) => Err(e)
        case Ok(rest) => Ok([x] + rest)
  }

  /** `make_time(t)`: every ':'-separated field must be an integer, the
      first two are the hour and the minute (`time(hour=, minute=)` checks
      their ranges), any further field is ignored. The result is the time of
      day in seconds. */
  function MakeTime(t: string): (r: Result<int>)
    ensures r.Ok? ==> 0 <= r.value < DaySecs && r.value % 60 == 0
  {
    match ParseFields(Split(t))
    case Err(e) => Err(e)
    case Ok(xs) =>
      if |xs| < 2 then Err(IndexError)
      else if !(0 <= xs[0] < 24) || !(0 <= xs[1] < 60) then Err(ValueError)
      else
        assert xs[0] * Hour + xs[1] * 60 == 60 * (xs[0] * 60 + xs[1]);
        Ok(xs[0] * Hour + xs[1] * 60)
  }

  function DigitChar(n: int): char
    requires 0 <= n < 10
  {
    ('0' as int + n) as char
  }

  /** A number below 100 as two digits, as in '09'. */
  function TwoDigits(n: int): string
    requires 0 <= n < 100
  {
    [DigitChar(n / 10), DigitChar(n % 10)]
  }

  lemma TwoDigitsParse(n: int)
    requires 0 <= n < 100
    ensures ':' !in TwoDigits(n)
    ensures AllDigits(TwoDigits(n)) && ParseInt(TwoDigits(n)) == Some(n)
  {
    var s := TwoDigits(n);
    assert s[..1] == [DigitChar(n / 10)];
    assert s[..1][..0] == [];
    assert DigitsValue(s[..1]) == n / 10;
  }

  /** 'HH:MM' parses back to H hours and M minutes. */
  lemma {:induction false} MakeTimeOfHourMinute(h: int, m: int)
    requires 0 <= h < 24 && 0 <= m < 60
    ensures MakeTime(TwoDigits(h) + ":" + TwoDigits(m)) == Ok(h * Hour + m * 60)
  {
    TwoDigitsParse(h);
    TwoDigitsParse(m);
    SplitAtColon(TwoDigits(h), TwoDigits(m));
    SplitNoColon(TwoDigits(m));
    var fs := Split(TwoDigits(h) + ":" + TwoDigits(m));
    assert fs == [TwoDigits(h), TwoDigits(m)];
    assert ParseInt(fs[0]) == Some(h) && ParseInt(fs[1]) == Some(m);
    var v := ParseFields(fs).value;
    assert v == [h, m];
  }

  /** Further integer fields, such as seconds, do not change the time. */
  lemma {:induction false} MakeTimeIgnoresExtraFields(h: int, m: int, rest: string)
    requires 0 <= h < 24 && 0 <= m < 60
    requires ParseFields(Split(rest)).Ok?
    ensures MakeTime(TwoDigits(h) + ":" + TwoDigits(m) + ":" + rest) == Ok(h * Hour + m * 60)
  {
    TwoDigitsParse(h);
    TwoDigitsParse(m);
    var a, b := TwoDigits(h), TwoDigits(m);
    assert a + ":" + b + ":" + rest == a + ":" + (b + ":" + rest);
    SplitAtColon(a, b + ":" + rest);
    SplitAtColon(b, rest);
    var fs := Split(a + ":" + b + ":" + rest);
    assert fs == [a, b] + Split(rest);
    var tail := ParseFields(Split(rest)).value;
    assert fs[1..] == [b] + Split(rest);
    assert fs[1..][1..] == Split(rest);
    assert ParseFields(fs[1..]) == Ok([m] + tail);
    assert ParseFields(fs) == Ok([h] + ([m] + tail));
  }

  /** A field that is not an integer, in any position, makes `make_time`
      raise ValueError: the list comprehension converts every field before
      the hour and the minute are read. */
  lemma MakeTimeRejectsNonIntegerField(t: string, i: int)
    requires 0 <= i < |Split(t)| && ParseInt(Split(t)[i]).None?
    ensures MakeTime(t) == Err(ValueError)
  {
  }

  /** The cases of `make_time(t)` for any string: a non-integer field
      raises ValueError, fewer than two fields raise IndexError (`t[1]`),
      an hour outside 0..23 or a minute outside 0..59 raises ValueError
      (`time(hour=, minute=)`), and otherwise the time is the first field
      in hours plus the second in minutes, whatever their digits look like
      ("9:05" as well as "09:05"). */
  lemma MakeTimeCases(t: string)
    ensures ParseFields(Split(t)).Err? ==> MakeTime(t) == Err(ValueError)
    ensures var f := ParseFields(Split(t));
      f.Ok? && |f.value| < 2 ==> MakeTime(t) == Err(IndexError)
    ensures var f := ParseFields(Split(t));
      f.Ok? && |f.value| >= 2 && !(0 <= f.value[0] < 24 && 0 <= f.value[1] < 60) ==> MakeTime(t) == Err(ValueError)
    ensures var f := ParseFields(Split(t));
      f.Ok? && |f.value| >= 2 && 0 <= f.value[0] < 24 && 0 <= f.value[1] < 60 ==>
        MakeTime(t) == Ok(f.value[0] * Hour + f.value[1] * 60)
  {
  }

  /** A one-digit hour parses like a two-digit one. */
  lemma MakeTimeOneDigitHour()
    ensures MakeTime("9:05") == Ok(9 * Hour + 5 * 60)
  {
    SplitAtColon("9", "05");
    SplitNoColon("05");
    assert "9:05" == "9" + ":" + "05";
    assert Split("9:05") == ["9", "05"];
    assert "05"[..1] == "0" && "05"[..1][..0] == [];
    assert ParseInt("9") == Some(9);
    assert ParseInt("05") == Some(5);
    var fs := ["9", "05"];
    assert ParseInt(fs[0]) == Some(9) && ParseInt(fs[1]) == Some(5);
    var v := ParseFields(fs).value;
    assert v == [9, 5];
  }

  // ---------------------------------------------------------------------
  // Sorting slots

  predicate SortedAsc(s: seq<int>) {
    forall i, j :: 0 <= i < j < |s| ==> s[i] <= s[j]
  }

  function Insert(x: int, s: seq<int>): (r: seq<int>)
    requires SortedAsc(s)
    ensures SortedAsc(r) && multiset(r) == multiset(s) + multiset{x}
  {
    if |s| == 0 then [x]
    else if x <= s[0] then [x] + s
    else
      var rest := Insert(x, s[1..]);
      assert multiset(rest) == multiset(s[1..]) + multiset{x};
      assert s == [s[0]] + s[1..];
      assert forall k :: 0 <= k < |rest| ==> s[0] <= rest[k] by {
        forall k | 0 <= k < |rest| ensures s[0] <= rest[k] {
          assert rest[k] in multiset(rest);
        }
      }
      [s[0]] + rest
  }

  /** `sorted(xs)` */
  function Sort(s: seq<int>): (r: seq<int>)
    ensures SortedAsc(r) && multiset(r) == multiset(s)
  {
    if |s| == 0 then []
    else
      assert s == [s[0]] + s[1..];
      Insert(s[0], Sort(s[1..]))
  }

  /** An ascending permutation is unique, so `Sort` is Python's `sorted`. */
  lemma {:induction false} SortedPermutationUnique(a: seq<int>, b: seq<int>)
    requires SortedAsc(a) && SortedAsc(b) && multiset(a) == multiset(b)
    ensures a == b
  {
    if |a| == 0 {
      assert |b| == |multiset(b)| == 0;
    } else {
      assert |b| == |multiset(b)| == |multiset(a)| == |a|;
      assert b[0] in multiset(b) && a[0] in multiset(a);
      HeadIsLeast(a, b[0]);
      HeadIsLeast(b, a[0]);
      assert a[0] == b[0];
      var a', b' := a[1..], b[1..];
      TailOfSorted(a);
      TailOfSorted(b);
      assert multiset(a') == multiset(b');
      SortedPermutationUnique(a', b');
      assert a == [a[0]] + a' && b == [b[0]] + b';
    }
  }

  lemma TailOfSorted(a: seq<int>)
    requires SortedAsc(a) && |a| > 0
    ensures SortedAsc(a[1..]) && multiset(a[1..]) == multiset(a) - multiset{a[0]}
  {
    assert a == [a[0]] + a[1..];
  }

  lemma HeadIsLeast(a: seq<int>, x: int)
    requires SortedAsc(a) && x in multiset(a)
    ensures |a| > 0 && a[0] <= x
  {
    assert x in a;
  }

  /** `list(map(make_time, timeslots))`: the first slot that does not parse
      raises. */
  function MakeTimes(slots: seq<string>): (r: Result<seq<int>>)
    ensures r.Ok? <==> forall i :: 0 <= i < |slots| ==> MakeTime(slots[i]).Ok?
    ensures r.Ok? ==> |r.value| == |slots|
    ensures r.Ok? ==> forall i :: 0 <= i < |slots| ==> MakeTime(slots[i]) == Ok(r.value[i])
    ensures r.Err? ==> exists i :: 0 <= i < |slots| && MakeTime(slots[i]) == Err(r.error)
  {
    if |slots| == 0 then Ok([])
    else
      match MakeTime(slots[0])
      case Err(e) => Err(e)
      case Ok(x) =>
        match MakeTimes(slots[1..])
        case Err(e) =>
          var i :| 0 <= i < |slots[1..]| && MakeTime(slots[1..][i]) == Err(e);
          assert MakeTime(slots[i + 1]) == Err(e);
          Err(e)
        case Ok(rest) => Ok([x] + rest)
  }

  /** `sorted_slots(timeslots)`: the parsed slots in ascending order. */
  function SortedSlots(slots: seq<string>): (r: Result<seq<int>>)
    ensures r.Ok? <==> MakeTimes(slots).Ok?
    ensures r.Ok? ==> SortedAsc(r.value) && multiset(r.value) == multiset(MakeTimes(slots).value)
  {
    match MakeTimes(slots)
    case Err(e) => Err(e)
    case Ok(xs) => Ok(Sort(xs))
  }

  // ---------------------------------------------------------------------
  // Weekday wrap-around

  function IndexOf(s: seq<int>, x: int): (i: int)
    requires x in s
    ensures 0 <= i < |s| && s[i] == x && x !in s[..i]
  {
    if s[0] == x then 0
    else
      var k := IndexOf(s[1..], x);
      assert s[..k + 1] == [s[0]] + s[1..][..k];
      k + 1
  }

  /** The index into `days` of the day to run next after weekday `lw`. */
  function NextDayIndex(days: seq<int>, lw: int): int {
    var i := if lw !in days then 0 else IndexOf(days, lw) + 1;
    if i == |days| then 0 else i
  }

  /** `get_next_day(last_date, days)`: the date of the next entry of `days`
      after the weekday of `last_date` (the first entry when that weekday is
      not listed, or after the last entry). */
  function GetNextDay(lastDate: int, days: seq<int>): (r: Result<int>)
    ensures r.Err? <==> days == []
    ensures r.Err? ==> r.error == IndexError
  {
    var lw := Weekday(lastDate);
    var i := NextDayIndex(days, lw);
    if i >= |days| then Err(IndexError)
    else
      var next := days[i];
      var diff := if next > lw then next - lw else (7 - lw) + next;
      Ok(lastDate + diff)
  }

  predicate AreWeekdays(days: seq<int>) {
    forall i :: 0 <= i < |days| ==> 0 <= days[i] < 7
  }

  /** For weekday lists, the next date is 1 to 7 days later and falls on
      the listed weekday that follows the current one, wrapping round. */
  lemma {:induction false} GetNextDayAdvances(lastDate: int, days: seq<int>)
    requires days != [] && AreWeekdays(days)
    ensures var r := GetNextDay(lastDate, days);
      && r.Ok?
      && 1 <= r.value - lastDate <= 7
      && Weekday(r.value) == days[NextDayIndex(days, Weekday(lastDate))]
  {
    var lw := Weekday(lastDate);
    var i := NextDayIndex(days, lw);
    var next := days[i];
    var diff := if next > lw then next - lw else (7 - lw) + next;
    WeekdayShift(lastDate, diff);
    assert (lw + diff) % 7 == next by {
      if next > lw {
        assert lw + diff == next;
      } else {
        assert lw + diff == 7 + next;
        DivModUnique(7 + next, 7, 1, next);
      }
    }
  }

  /** `IndexOf` finds the first occurrence. */
  lemma {:induction false} IndexOfFirst(s: seq<int>, x: int, i: int)
    requires 0 <= i < |s| && s[i] == x && x !in s[..i]
    ensures IndexOf(s, x) == i
  {
    if i > 0 {
      assert s[..i][0] == s[0];
      assert s[0] != x;
      assert s[1..][..i - 1] == s[..i][1..];
      IndexOfFirst(s[1..], x, i - 1);
    }
  }

  /** The index chosen: the entry after the first occurrence of today's
      weekday, wrapping to 0; and 0 when today's weekday is not listed. */
  lemma NextDayIndexCases(days: seq<int>, lw: int)
    requires days != []
    ensures lw !in days ==> NextDayIndex(days, lw) == 0
    ensures forall i :: 0 <= i < |days| && days[i] == lw && lw !in days[..i] ==>
      NextDayIndex(days, lw) == (i + 1) % |days|
  {
    forall i | 0 <= i < |days| && days[i] == lw && lw !in days[..i]
      ensures NextDayIndex(days, lw) == (i + 1) % |days|
    {
      IndexOfFirst(days, lw, i);
    }
  }

  /** A single-day schedule on today's weekday moves a week on. */
  lemma SingleDayNextWeek(lastDate: int)
    ensures GetNextDay(lastDate, [Weekday(lastDate)]) == Ok(lastDate + 7)
  {
  }

  // ---------------------------------------------------------------------
  // Today's next slot, and the next run

  /** The loop of `next_timeslot`: the first slot strictly later than `now`. */
  function FirstSlotAfter(slots: seq<int>, now: int): (r: Option<int>)
    ensures r.Some? <==> exists i :: 0 <= i < |slots| && now < slots[i]
    ensures r.Some? ==> r.value in slots && now < r.value
  {
    if |slots| == 0 then None
    else if now < slots[0] then Some(slots[0])
    else
      var r := FirstSlotAfter(slots[1..], now);
      assert forall i :: 1 <= i < |slots| ==> slots[i] == slots[1..][i - 1];
      r
  }

  /** On ascending slots the first later slot is the smallest later one. */
  lemma {:induction false} FirstSlotAfterIsLeast(slots: seq<int>, now: int)
    requires SortedAsc(slots) && FirstSlotAfter(slots, now).Some?
    ensures forall i :: 0 <= i < |slots| && now < slots[i] ==> FirstSlotAfter(slots, now).value <= slots[i]
  {
    if now >= slots[0] {
      FirstSlotAfterIsLeast(slots[1..], now);
      forall i | 0 <= i < |slots| && now < slots[i] ensures FirstSlotAfter(slots, now).value <= slots[i] {
        assert slots[i] == slots[1..][i - 1];
      }
    }
  }

  /** `next_timeslot(timeslots, tz)`: today's date (in zone `offset`) at the
      earliest slot later than the current local time of day, or None. */
  function NextTimeslot(slots: seq<string>, offset: int, now: int): Result<Option<int>> {
    match SortedSlots(slots)
    case Err(e) => Err(e)
    case Ok(sorted) =>
      match FirstSlotAfter(sorted, LocalSecs(now, offset))
      case None => Ok(None)
      case Some(slot) => Ok(Some(DtToUtc(LocalDay(now, offset), slot, offset)))
  }

  /** Sorting keeps the set of parsed slots. */
  lemma SortedSlotsSameElements(slots: seq<string>)
    requires MakeTimes(slots).Ok?
    ensures forall x :: x in MakeTimes(slots).value <==> x in SortedSlots(slots).value
  {
    var parsed, sorted := MakeTimes(slots).value, SortedSlots(slots).value;
    forall x ensures x in parsed <==> x in sorted {
      assert x in parsed <==> x in multiset(parsed);
      assert x in sorted <==> x in multiset(sorted);
    }
  }

  /** None exactly when no parsed slot is later than the local time. */
  lemma NextTimeslotNone(slots: seq<string>, offset: int, now: int)
    requires MakeTimes(slots).Ok?
    ensures NextTimeslot(slots, offset, now).Ok?
    ensures NextTimeslot(slots, offset, now).value.None? <==>
      forall i :: 0 <= i < |MakeTimes(slots).value| ==> MakeTimes(slots).value[i] <= LocalSecs(now, offset)
  {
    var parsed, t := MakeTimes(slots).value, LocalSecs(now, offset);
    var sorted := SortedSlots(slots).value;
    SortedSlotsSameElements(slots);
    if FirstSlotAfter(sorted, t).None? {
      forall i | 0 <= i < |parsed| ensures parsed[i] <= t {
        assert parsed[i] in sorted;
      }
    } else {
      var slot := FirstSlotAfter(sorted, t).value;
      assert slot in parsed;
    }
  }

  /** Otherwise it is today's occurrence of the least parsed slot later than
      the local time, strictly after `now` and less than a day after it. */
  lemma {:induction false} NextTimeslotSome(slots: seq<string>, offset: int, now: int)
    requires MakeTimes(slots).Ok? && NextTimeslot(slots, offset, now).Ok?
    requires NextTimeslot(slots, offset, now).value.Some?
    ensures var parsed, t, x := MakeTimes(slots).value, LocalSecs(now, offset), NextTimeslot(slots, offset, now).value.value;
      && (exists i :: 0 <= i < |parsed| && t < parsed[i] && x == DtToUtc(LocalDay(now, offset), parsed[i], offset)
            && forall j :: 0 <= j < |parsed| && t < parsed[j] ==> parsed[i] <= parsed[j])
      && now < x < now + DaySecs
  {
    var parsed, t := MakeTimes(slots).value, LocalSecs(now, offset);
    var sorted := SortedSlots(slots).value;
    SortedSlotsSameElements(slots);
    var slot := FirstSlotAfter(sorted, t).value;
    FirstSlotAfterIsLeast(sorted, t);
    assert slot in parsed;
    var i :| 0 <= i < |parsed| && parsed[i] == slot;
    forall j | 0 <= j < |parsed| && t < parsed[j] ensures slot <= parsed[j] {
      assert parsed[j] in sorted;
    }
    assert 0 <= slot < DaySecs by { assert MakeTime(slots[i]) == Ok(slot); }
    LocalClockSplit(now, offset);
  }

  /** `_get_next_ts(days, timeslots, tz)`: the next scheduled day (from
      today's local date) at `timeslots[0]`, the first slot AS GIVEN, not
      the smallest one. */
  function NextDayAtFirstSlot(days: Option<seq<int>>, slots: Option<seq<string>>, offset: int, now: int)
    : (r: Result<int>)
    ensures days.None? ==> r == Err(TypeError)
    ensures days.Some? && days.value == [] ==> r == Err(IndexError)
    ensures days.Some? && days.value != [] && slots.None? ==> r == Err(TypeError)
    ensures days.Some? && days.value != [] && slots == Some([]) ==> r == Err(IndexError)
    ensures days.Some? && days.value != [] && slots.Some? && slots.value != [] && MakeTime(slots.value[0]).Err? ==>
      r == Err(MakeTime(slots.value[0]).error)
    ensures r.Ok? ==> days.Some? && slots.Some? && slots.value != [] && MakeTime(slots.value[0]).Ok?
    ensures r.Ok? ==>
      && LocalDay(r.value, offset) == GetNextDay(LocalDay(now, offset), days.value).value
      && LocalSecs(r.value, offset) == MakeTime(slots.value[0]).value
  {
    if days.None? then Err(TypeError)
    else
      match GetNextDay(LocalDay(now, offset), days.value)
      case Err(e) => Err(e)
      case Ok(nextDate) =>
        if slots.None? then Err(TypeError)
        else if |slots.value| == 0 then Err(IndexError)
        else
          match MakeTime(slots.value[0])
          case Err(e) => Err(e)
          case Ok(first) =>
            TsDecompose(nextDate, first);
            Ok(DtToUtc(nextDate, first, offset))
  }

  /** `if today_slot_ts:` — a slot at epoch 0 counts as none. */
  predicate TruthyTs(x: Option<int>) {
    x.Some? && x.value != 0
  }

  /** `get_scheduled_at(exec_info)`: the first run of a schedule. */
  function GetScheduledAt(info: ExecInfo, now: int): Result<int> {
    if info.timezone.None? then Err(UnknownTimeZone)
    else
      var offset := info.timezone.value;
      if info.date.Some? then
        if info.timeslots.None? then Err(TypeError)
        else
          match SortedSlots(info.timeslots.value)
          case Err(e) => Err(e)
          case Ok(sorted) =>
            if |sorted| == 0 then Err(IndexError)
            else Ok(DtToUtc(info.date.value, sorted[0], offset))
      else if info.days.None? then Err(TypeError)
      else
        var today := if Weekday(LocalDay(now, offset)) in info.days.value then
            (if info.timeslots.None? then Err(TypeError) else NextTimeslot(info.timeslots.value, offset, now))
          else Ok(None);
        match today
        case Err(e) => Err(e)
        case Ok(t) =>
          if TruthyTs(t) then Ok(t.value)
          else NextDayAtFirstSlot(info.days, info.timeslots, offset, now)
  }

  /** A one-shot date runs on that date at its smallest slot. */
  lemma {:induction false} ScheduledAtOnDate(info: ExecInfo, now: int)
    requires info.timezone.Some? && info.date.Some? && info.timeslots.Some?
    requires MakeTimes(info.timeslots.value).Ok? && |info.timeslots.value| > 0
    ensures var parsed := MakeTimes(info.timeslots.value).value;
      exists i :: 0 <= i < |parsed|
        && GetScheduledAt(info, now) == Ok(DtToUtc(info.date.value, parsed[i], info.timezone.value))
        && (forall j :: 0 <= j < |parsed| ==> parsed[i] <= parsed[j])
  {
    var parsed := MakeTimes(info.timeslots.value).value;
    var sorted := SortedSlots(info.timeslots.value).value;
    assert |sorted| == |multiset(sorted)| == |multiset(parsed)| == |parsed|;
    assert sorted[0] in multiset(parsed);
    var i :| 0 <= i < |parsed| && parsed[i] == sorted[0];
    forall j | 0 <= j < |parsed| ensures parsed[i] <= parsed[j] {
      assert parsed[j] in multiset(sorted);
      var k :| 0 <= k < |sorted| && sorted[k] == parsed[j];
    }
  }

  /** Without a date: today's next slot if today is a scheduled weekday and
      one remains, else the next scheduled day at `timeslots[0]`. */
  lemma ScheduledAtWithoutDate(info: ExecInfo, now: int)
    requires info.timezone.Some? && info.date.None? && info.days.Some? && info.timeslots.Some?
    requires MakeTimes(info.timeslots.value).Ok?
    ensures var offset := info.timezone.value;
      var today := NextTimeslot(info.timeslots.value, offset, now);
      var onDay := Weekday(LocalDay(now, offset)) in info.days.value;
      && (onDay && TruthyTs(today.value) ==> GetScheduledAt(info, now) == Ok(today.value.value))
      && (!(onDay && TruthyTs(today.value)) ==>
            GetScheduledAt(info, now) == NextDayAtFirstSlot(info.days, info.timeslots, offset, now))
  {
    NextTimeslotNone(info.timeslots.value, info.timezone.value, now);
  }

  /** The fallback to the next day takes the first slot as given, not the
      smallest: a job on Mondays and Wednesdays at ["17:00", "09:00"],
      asked on a Monday at 18:00 UTC when both slots have passed, first
      runs on Wednesday at 17:00, not 09:00. (Day 4 is a Monday.) */
  lemma FirstGivenSlotNotSmallest()
    ensures var info := EmptyInfo.(timezone := Some(0), days := Some([0, 2]), timeslots := Some(["17:00", "09:00"]));
      GetScheduledAt(info, 4 * DaySecs + 18 * Hour) == Ok(6 * DaySecs + 17 * Hour)
  {
    var now := 4 * DaySecs + 18 * Hour;
    assert Weekday(LocalDay(now, 0)) == 0;
    ExampleSlotsPassed();
    ExampleNextDay();
  }

  /** In the example, both slots have passed by Monday 18:00. */
  lemma ExampleSlotsPassed()
    ensures NextTimeslot(["17:00", "09:00"], 0, 4 * DaySecs + 18 * Hour) == Ok(None)
  {
    var now := 4 * DaySecs + 18 * Hour;
    var slots := ["17:00", "09:00"];
    assert LocalSecs(now, 0) == 18 * Hour by {
      DivModUnique(now, DaySecs, 4, 18 * Hour);
    }
    SlotsExampleParse();
    var parsed := MakeTimes(slots).value;
    assert forall i :: 0 <= i < |parsed| ==> parsed[i] <= LocalSecs(now, 0);
    NextTimeslotNone(slots, 0, now);
  }

  /** In the example, the next listed day is Wednesday (day 6), at 17:00. */
  lemma ExampleNextDay()
    ensures NextDayAtFirstSlot(Some([0, 2]), Some(["17:00", "09:00"]), 0, 4 * DaySecs + 18 * Hour)
      == Ok(6 * DaySecs + 17 * Hour)
  {
    var now := 4 * DaySecs + 18 * Hour;
    assert LocalDay(now, 0) == 4;
    SlotsExampleParse();
    assert IndexOf([0, 2], 0) == 0;
    assert GetNextDay(4, [0, 2]) == Ok(6);
  }

  /** The two slots of the example above parse to 17:00 and 09:00. */
  lemma SlotsExampleParse()
    ensures MakeTime("17:00") == Ok(17 * Hour) && MakeTime("09:00") == Ok(9 * Hour)
    ensures MakeTimes(["17:00", "09:00"]) == Ok([17 * Hour, 9 * Hour])
  {
    MakeTimeOfHourMinute(17, 0);
    MakeTimeOfHourMinute(9, 0);
    assert TwoDigits(17) + ":" + TwoDigits(0) == "17:00";
    assert TwoDigits(9) + ":" + TwoDigits(0) == "09:00";
    assert MakeTimes(["17:00", "09:00"]).value == [17 * Hour, 9 * Hour];
  }

  /** `get_next_ts(job)`: the run after this one. Hourly jobs move on from
      `scheduled_at`; others take today's next slot (today's weekday is not
      checked) and, failing that, the next scheduled day unless the job has
      a date. `job.timezone` indexes the dictionary (KeyError), and
      `datetime.fromtimestamp(scheduled_at)` raises on a missing
      `scheduled_at` although its value is unused. */
  function GetNextTs(info: ExecInfo, now: int): Result<Option<int>> {
    if TruthyInt(info.everyHour) then
      match GetHourOffset(info)
      case Err(e) => Err(e)
      case Ok(offset) => Ok(Some(info.scheduledAt.value + offset))
    else if info.timezone.None? then Err(KeyError)
    else if info.scheduledAt.None? then Err(TypeError)
    else if info.timeslots.None? then Err(TypeError)
    else
      match NextTimeslot(info.timeslots.value, info.timezone.value, now)
      case Err(e) => Err(e)
      case Ok(next) =>
        if !TruthyTs(next) && info.date.None? then
          match NextDayAtFirstSlot(info.days, info.timeslots, info.timezone.value, now)
          case Err(e) => Err(e)
          case Ok(t) => Ok(Some(t))
        else Ok(next)
  }

  /** An hourly job's next run is `scheduled_at` plus the catch-up offset. */
  lemma NextTsHourly(info: ExecInfo, now: int)
    requires TruthyInt(info.everyHour) && info.ranAt.Some? && info.scheduledAt.Some?
    ensures GetNextTs(info, now) == Ok(Some(info.scheduledAt.value + GetHourOffset(info).value))
  {
  }

  /** The first run of an hourly job, before any `ran_at` was stored, raises. */
  lemma NextTsHourlyWithoutRanAt(info: ExecInfo, now: int)
    requires TruthyInt(info.everyHour) && info.ranAt.None?
    ensures GetNextTs(info, now) == Err(TypeError)
  {
  }

  /** A slot left today is taken whatever today's weekday is; with none
      left a dated job gets no further run, an undated one the next day. */
  lemma NextTsBySlots(info: ExecInfo, now: int)
    requires !TruthyInt(info.everyHour) && info.timezone.Some? && info.scheduledAt.Some? && info.timeslots.Some?
    requires NextTimeslot(info.timeslots.value, info.timezone.value, now).Ok?
    ensures var today := NextTimeslot(info.timeslots.value, info.timezone.value, now).value;
      && (TruthyTs(today) ==> GetNextTs(info, now) == Ok(today))
      && (!TruthyTs(today) && info.date.Some? ==> GetNextTs(info, now) == Ok(today))
      && (today.None? && info.date.Some? ==> GetNextTs(info, now) == Ok(None))
      && (!TruthyTs(today) && info.date.None? ==>
            GetNextTs(info, now) == match NextDayAtFirstSlot(info.days, info.timeslots, info.timezone.value, now)
              case Err(e) => Err(e)
              case Ok(t) => Ok(Some(t)))
  {
  }
}
