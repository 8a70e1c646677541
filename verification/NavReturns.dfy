// Mutual-fund NAV history: how much of it is kept (mutualfunds/nav_capping.py),
// how it is stored (mutualfunds/nav_history_storage.py), and the trailing
// returns computed from it (mutualfunds/returns_calculator.py).
module NavReturns {
  import opened Wrappers

  // ----- Calendar ------------------------------------------------------------------------------

  datatype Date = Date(year: int, month: int, day: int)
  {
    predicate Valid() { 1 <= month <= 12 && 1 <= day <= DaysIn(year, month) }
  }

  predicate Leap(year: int) { year % 4 == 0 && (year % 100 != 0 || year % 400 == 0) }

  function DaysIn(year: int, month: int): (d: int)
    ensures 28 <= d <= 31
  {
    if month == 2 then if Leap(year) then 29 else 28
    else if month == 4 || month == 6 || month == 9 || month == 11 then 30
    else 31
  }

  // Chronological position; strictly increasing in the date.
  function Key(d: Date): int { (d.year * 12 + d.month) * 32 + d.day }

  lemma KeyIsInjective(a: Date, b: Date)
    requires a.Valid() && b.Valid() && Key(a) == Key(b)
    ensures a == b
  {}

  // date - relativedelta(months=n): the day is clipped to the target month.
  function MinusMonths(d: Date, n: nat): Date
    requires d.Valid()
  {
    var index := d.year * 12 + (d.month - 1) - n;
    var year, month := index / 12, index % 12 + 1;
    Date(year, month, if d.day < DaysIn(year, month) then d.day else DaysIn(year, month))
  }

  lemma MonthsBack(d: Date, n: nat)
    requires d.Valid()
    ensures var e := MinusMonths(d, n);
      && e.Valid() && e.year * 12 + e.month == d.year * 12 + d.month - n
      && (e.day == d.day || (e.day < d.day && PreviousDay(FirstOfNext(e)) == e))
  {}

  function FirstOfNext(d: Date): Date
  {
    if d.month == 12 then Date(d.year + 1, 1, 1) else Date(d.year, d.month + 1, 1)
  }

  // date - relativedelta(years=n)
  function MinusYears(d: Date, n: nat): Date
    requires d.Valid()
  {
    Date(d.year - n, d.month, if d.day < DaysIn(d.year - n, d.month) then d.day else DaysIn(d.year - n, d.month))
  }

  function PreviousDay(d: Date): Date
  {
    if d.day > 1 then d.(day := d.day - 1)
    else if d.month > 1 then Date(d.year, d.month - 1, DaysIn(d.year, d.month - 1))
    else Date(d.year - 1, 12, 31)
  }

  function MinusDays(d: Date, n: nat): Date { if n == 0 then d else PreviousDay(MinusDays(d, n - 1)) }

  lemma {:induction false} DaysBack(d: Date, n: nat)
    requires d.Valid()
    ensures MinusDays(d, n).Valid() && Key(MinusDays(d, n)) <= Key(d)
  {
    if n > 0 { DaysBack(d, n - 1); }
  }

  // The day number of the proleptic Gregorian calendar, with leap days counted by
  // whole years and not month by month.
  ghost function DaysBefore(year: int): int
  {
    365 * (year - 1) + (year - 1) / 4 - (year - 1) / 100 + (year - 1) / 400
  }

  // Days of a common year before the month.
  ghost function BeforeMonth(month: int): int
  {
    match month
    case 1 => 0 case 2 => 31 case 3 => 59 case 4 => 90 case 5 => 120 case 6 => 151
    case 7 => 181 case 8 => 212 case 9 => 243 case 10 => 273 case 11 => 304 case _ => 334
  }

  ghost function Ordinal(d: Date): int
  {
    DaysBefore(d.year) + BeforeMonth(d.month) + d.day
    + if d.month > 2 then DaysBefore(d.year + 1) - DaysBefore(d.year) - 365 else 0
  }

  lemma Multiples(year: int)
    ensures year / 4 - (year - 1) / 4 == if year % 4 == 0 then 1 else 0
    ensures year / 100 - (year - 1) / 100 == if year % 100 == 0 then 1 else 0
    ensures year / 400 - (year - 1) / 400 == if year % 400 == 0 then 1 else 0
  {}

  lemma HundredsAreFours(year: int, c: int)
    requires year == 100 * c
    ensures year % 4 == 0
  {
    assert year == 4 * (25 * c);
  }

  lemma FourHundredsAreHundreds(year: int, c: int)
    requires year == 400 * c
    ensures year % 100 == 0
  {
    assert year == 100 * (4 * c);
  }

  lemma LeapDay(year: int)
    ensures DaysBefore(year + 1) - DaysBefore(year) == 365 + if Leap(year) then 1 else 0
  {
    Multiples(year);
    if year % 100 == 0 { HundredsAreFours(year, year / 100); }
    if year % 400 == 0 { FourHundredsAreHundreds(year, year / 400); }
  }

  lemma DayBefore(d: Date)
    requires d.Valid()
    ensures PreviousDay(d).Valid() && Ordinal(PreviousDay(d)) == Ordinal(d) - 1
  {
    hide DaysBefore, Leap;
    LeapDay(d.year);
    LeapDay(d.year - 1);
  }

  // Going back n days goes back n days: no leap day is missed or invented.
  lemma {:induction false} MinusDaysCountsDays(d: Date, n: nat)
    requires d.Valid()
    ensures MinusDays(d, n).Valid() && Ordinal(MinusDays(d, n)) == Ordinal(d) - n
  {
    hide PreviousDay, Ordinal;
    if n > 0 {
      MinusDaysCountsDays(d, n - 1);
      DayBefore(MinusDays(d, n - 1));
    }
  }

  // ----- Series ------------------------------------------------------------------------------------

  datatype Point = Point(date: Date, nav: real)

  ghost predicate Dated(points: seq<Point>) { forall i :: 0 <= i < |points| ==> points[i].date.Valid() }

  ghost predicate Sorted(points: seq<Point>)
  {
    forall i, j :: 0 <= i < j < |points| ==> Key(points[i].date) <= Key(points[j].date)
  }

  const CAP_YEARS := 5
  const BUFFER_DAYS := 15

  // What five-year figures look back to, and the cutoff a little before it.
  function FiveYearsBefore(latest: Date): Date requires latest.Valid() { MinusYears(latest, CAP_YEARS) }

  function Cutoff(latest: Date): Date requires latest.Valid() { MinusDays(FiveYearsBefore(latest), BUFFER_DAYS) }

  function KeepFrom(points: seq<Point>, cutoff: Date): seq<Point>
  {
    if |points| == 0 then []
    else
      var last := points[|points| - 1];
      KeepFrom(points[..|points| - 1], cutoff) + if Key(last.date) >= Key(cutoff) then [last] else []
  }

  // MFNavHistoryCapper.cap
  function Cap(points: seq<Point>): seq<Point>
    requires |points| > 0 ==> points[|points| - 1].date.Valid()
  {
    if |points| == 0 then points else KeepFrom(points, Cutoff(points[|points| - 1].date))
  }

  // ----- Returns ------------------------------------------------------------------------------------

  // sorted(..., key=nav_date): stable.
  function Insert(ordered: seq<Point>, p: Point): seq<Point>
  {
    if |ordered| == 0 || Key(ordered[|ordered| - 1].date) <= Key(p.date) then ordered + [p]
    else Insert(ordered[..|ordered| - 1], p) + [ordered[|ordered| - 1]]
  }

  function Ordered(points: seq<Point>): seq<Point>
  {
    if |points| == 0 then [] else Insert(Ordered(points[..|points| - 1]), points[|points| - 1])
  }

  // _find_on_or_before: the latest point dated no later than the target.
  function FindOnOrBefore(ordered: seq<Point>, target: Date): Option<Point>
  {
    if |ordered| == 0 then None
    else if Key(ordered[|ordered| - 1].date) <= Key(target) then Some(ordered[|ordered| - 1])
    else FindOnOrBefore(ordered[..|ordered| - 1], target)
  }

  const PERIODS: seq<nat> := [1, 6, 12, 36, 60]

  // `figure(latest, reference, months)`: the rounded percentage, plain or
  // annualised; None when there is nothing usable to compare with.
  function PeriodReturn(ordered: seq<Point>, months: nat, figure: (real, real, nat) -> real): Option<real>
    requires |ordered| > 0 && ordered[|ordered| - 1].date.Valid()
  {
    var latest := ordered[|ordered| - 1];
    var reference := FindOnOrBefore(ordered, MinusMonths(latest.date, months));
    if reference.None? || reference.value.nav <= 0.0 then None
    else Some(figure(latest.nav, reference.value.nav, months))
  }

  function DayChange(ordered: seq<Point>, figure: (real, real, nat) -> real): Option<real>
  {
    if |ordered| < 2 || ordered[|ordered| - 2].nav <= 0.0 then None
    else Some(figure(ordered[|ordered| - 1].nav, ordered[|ordered| - 2].nav, 0))
  }

  datatype Returns = Returns(latestNav: Option<real>, trailing: seq<Option<real>>, dayChange: Option<real>)

  function TrailingReturns(points: seq<Point>, figure: (real, real, nat) -> real): Returns
    requires Dated(points)
  {
    if |points| == 0 then Returns(None, seq(|PERIODS|, i => None), None)
    else
      var ordered := Ordered(points);
      OrderedKeeps(points);
      Returns(Some(ordered[|ordered| - 1].nav),
              seq(|PERIODS|, i requires 0 <= i < |PERIODS| => PeriodReturn(ordered, PERIODS[i], figure)),
              DayChange(ordered, figure))
  }

  lemma {:induction false} InsertPermutes(ordered: seq<Point>, p: Point)
    ensures multiset(Insert(ordered, p)) == multiset(ordered) + multiset{p}
  {
    if |ordered| > 0 && Key(ordered[|ordered| - 1].date) > Key(p.date) {
      InsertPermutes(ordered[..|ordered| - 1], p);
      assert ordered == ordered[..|ordered| - 1] + [ordered[|ordered| - 1]];
    }
  }

  ghost predicate AllUpTo(points: seq<Point>, k: int) { forall i :: 0 <= i < |points| ==> Key(points[i].date) <= k }

  lemma {:induction false} InsertKeeps(ordered: seq<Point>, p: Point, k: int)
    requires Sorted(ordered) && Dated(ordered) && p.date.Valid()
    ensures Sorted(Insert(ordered, p)) && Dated(Insert(ordered, p)) && |Insert(ordered, p)| == |ordered| + 1
    ensures AllUpTo(ordered, k) && Key(p.date) <= k ==> AllUpTo(Insert(ordered, p), k)
  {
    hide Key;
    if |ordered| > 0 && Key(ordered[|ordered| - 1].date) > Key(p.date) {
      var init, last := ordered[..|ordered| - 1], ordered[|ordered| - 1];
      InsertKeeps(init, p, Key(last.date));
      InsertKeeps(init, p, k);
    }
  }

  lemma {:induction false} OrderedKeeps(points: seq<Point>)
    requires Dated(points)
    ensures Sorted(Ordered(points)) && Dated(Ordered(points)) && |Ordered(points)| == |points|
    ensures multiset(Ordered(points)) == multiset(points)
  {
    if |points| > 0 {
      OrderedKeeps(points[..|points| - 1]);
      InsertKeeps(Ordered(points[..|points| - 1]), points[|points| - 1], 0);
      InsertPermutes(Ordered(points[..|points| - 1]), points[|points| - 1]);
      assert points == points[..|points| - 1] + [points[|points| - 1]];
    }
  }

  lemma {:induction false} OrderedIsIdentity(points: seq<Point>)
    requires Sorted(points)
    ensures Ordered(points) == points
  {
    hide Key, Insert;
    if |points| > 0 {
      var init, last := points[..|points| - 1], points[|points| - 1];
      OrderedIsIdentity(init);
      InsertLast(init, last);
      assert points == init + [last];
    }
  }

  lemma InsertLast(ordered: seq<Point>, p: Point)
    requires |ordered| > 0 ==> Key(ordered[|ordered| - 1].date) <= Key(p.date)
    ensures Insert(ordered, p) == ordered + [p]
  {}

  // ----- Capping --------------------------------------------------------------------------------------

  // Five years back is sixty months back, and every period's target is no
  // earlier than it, which is no earlier than the cutoff.
  lemma TargetsAreKept(latest: Date, months: nat)
    requires latest.Valid() && months <= 60
    ensures FiveYearsBefore(latest) == MinusMonths(latest, 60)
    ensures Key(Cutoff(latest)) <= Key(FiveYearsBefore(latest)) <= Key(MinusMonths(latest, months)) &&
      Cutoff(latest).Valid()
  {
    hide MinusDays;
    MonthsBack(latest, 60);
    MonthsBack(latest, months);
    assert (latest.year * 12 + (latest.month - 1) - 60) / 12 == latest.year - 5;
    DaysBack(FiveYearsBefore(latest), BUFFER_DAYS);
  }

  // On a sorted series, capping drops a prefix: `older`, everything before the
  // cutoff.
  lemma {:induction false} CapDropsPrefix(points: seq<Point>, cutoff: Date) returns (n: nat)
    requires Sorted(points)
    ensures n <= |points| && KeepFrom(points, cutoff) == points[n..]
    ensures forall i :: 0 <= i < |points| ==> (i < n <==> Key(points[i].date) < Key(cutoff))
  {
    if |points| == 0 { return 0; }
    var init, last := points[..|points| - 1], points[|points| - 1];
    n := CapDropsPrefix(init, cutoff);
    assert forall i :: 0 <= i < |init| ==> init[i] == points[i];
    if Key(last.date) >= Key(cutoff) {
      assert points[n..] == init[n..] + [last];
    } else {
      assert n == |init|;
      n := |points|;
      assert points[n..] == [];
    }
  }

  // Looking up a target in the kept part finds the same point, if the kept part
  // has one; otherwise the full series finds the last dropped point.
  lemma {:induction false} FindInKept(points: seq<Point>, n: nat, target: Date)
    requires Sorted(points) && n <= |points|
    requires forall i :: 0 <= i < n ==> Key(points[i].date) <= Key(target)
    ensures FindOnOrBefore(points[n..], target).Some? ==>
      FindOnOrBefore(points, target) == FindOnOrBefore(points[n..], target)
    ensures FindOnOrBefore(points[n..], target).None? ==>
      FindOnOrBefore(points, target) == if n == 0 then None else Some(points[n - 1])
    ensures FindOnOrBefore(points[n..], target).None? <==>
      forall i :: n <= i < |points| ==> Key(points[i].date) > Key(target)
    decreases |points|
  {
    if n < |points| {
      var init := points[..|points| - 1];
      assert points[n..][..|points[n..]| - 1] == init[n..];
      assert points[n..][|points[n..]| - 1] == points[|points| - 1];
      FindInKept(init, n, target);
    } else {
      assert points[n..] == [];
    }
  }

  // What the caller can look at before capping: nothing is older than the
  // cutoff, or a kept point is at least five years old, or the newest point to
  // be dropped has no usable NAV.
  ghost predicate CapIsSafe(points: seq<Point>)
    requires |points| > 0 && points[|points| - 1].date.Valid()
  {
    var latest := points[|points| - 1].date;
    || (forall i :: 0 <= i < |points| ==> Key(points[i].date) >= Key(Cutoff(latest)))
    || (exists i :: 0 <= i < |points| && Key(Cutoff(latest)) <= Key(points[i].date) <= Key(FiveYearsBefore(latest)))
    || (exists i :: 0 <= i < |points| - 1 && points[i].nav <= 0.0
          && Key(points[i].date) < Key(Cutoff(latest)) <= Key(points[i + 1].date))
  }

  lemma LatestIsKept(points: seq<Point>, n: nat)
    requires |points| > 0 && points[|points| - 1].date.Valid() && n <= |points|
    requires forall i :: 0 <= i < |points| ==> (i < n <==> Key(points[i].date) < Key(Cutoff(points[|points| - 1].date)))
    ensures n < |points| && points[n..][|points[n..]| - 1] == points[|points| - 1]
    ensures Key(FiveYearsBefore(points[|points| - 1].date)) < Key(points[|points| - 1].date)
  {
    hide Cutoff, FiveYearsBefore;
    var latest := points[|points| - 1].date;
    TargetsAreKept(latest, 60);
    TargetsAreKept(latest, 1);
    MonthsBack(latest, 60);
  }

  // One period: capped and full agree unless only a dropped point can answer.
  lemma PeriodAgrees(points: seq<Point>, n: nat, months: nat, figure: (real, real, nat) -> real)
    requires Sorted(points) && |points| > 0 && points[|points| - 1].date.Valid() && months <= 60 && n < |points|
    requires forall i :: 0 <= i < |points| ==> (i < n <==> Key(points[i].date) < Key(Cutoff(points[|points| - 1].date)))
    requires points[n..][|points[n..]| - 1] == points[|points| - 1]
    ensures var target := MinusMonths(points[|points| - 1].date, months);
      PeriodReturn(points[n..], months, figure) == PeriodReturn(points, months, figure) <==>
        n == 0 || points[n - 1].nav <= 0.0 || exists i :: n <= i < |points| && Key(points[i].date) <= Key(target)
  {
    hide Cutoff, FiveYearsBefore, MinusMonths;
    var latest := points[|points| - 1].date;
    var target := MinusMonths(latest, months);
    TargetsAreKept(latest, months);
    FindInKept(points, n, target);
    if FindOnOrBefore(points[n..], target).None? {
    } else {
      assert exists i :: n <= i < |points| && Key(points[i].date) <= Key(target);
    }
  }

  lemma DayChangeAgrees(points: seq<Point>, n: nat, figure: (real, real, nat) -> real)
    requires n < |points|
    ensures n < |points| - 1 || n == 0 || points[n - 1].nav <= 0.0 ==>
      DayChange(points[n..], figure) == DayChange(points, figure)
  {}

  // Capping leaves every trailing return and the day change as they were
  // exactly when it is safe.
  lemma CapPreservesReturnsIff(points: seq<Point>, figure: (real, real, nat) -> real)
    requires Sorted(points) && Dated(points) && |points| > 0
    ensures Dated(Cap(points))
    ensures TrailingReturns(Cap(points), figure) == TrailingReturns(points, figure) <==> CapIsSafe(points)
  {
    hide Cutoff, FiveYearsBefore, PeriodReturn, DayChange, Ordered, KeepFrom, CapIsSafe, MinusMonths;
    var latest := points[|points| - 1].date;
    var n := CapDropsPrefix(points, Cutoff(latest));
    LatestIsKept(points, n);
    var kept := points[n..];
    OrderedIsIdentity(points);
    OrderedIsIdentity(kept);
    SafeMeans(points, n);
    PeriodAgrees(points, n, 60, figure);
    TargetsAreKept(latest, 60);
    if CapIsSafe(points) {
      forall k | 0 <= k < |PERIODS|
        ensures PeriodReturn(kept, PERIODS[k], figure) == PeriodReturn(points, PERIODS[k], figure)
      {
        PeriodSafe(points, n, PERIODS[k], figure);
      }
      DayChangeSafe(points, n, figure);
    } else {
      assert TrailingReturns(kept, figure).trailing[4] == PeriodReturn(kept, PERIODS[4], figure);
      assert TrailingReturns(points, figure).trailing[4] == PeriodReturn(points, PERIODS[4], figure);
    }
  }

  lemma PeriodSafe(points: seq<Point>, n: nat, months: nat, figure: (real, real, nat) -> real)
    requires Sorted(points) && |points| > 0 && points[|points| - 1].date.Valid() && months <= 60 && n < |points|
    requires forall i :: 0 <= i < |points| ==> (i < n <==> Key(points[i].date) < Key(Cutoff(points[|points| - 1].date)))
    requires points[n..][|points[n..]| - 1] == points[|points| - 1] && CapIsSafe(points)
    ensures PeriodReturn(points[n..], months, figure) == PeriodReturn(points, months, figure)
  {
    hide Cutoff, FiveYearsBefore, MinusMonths, PeriodReturn, CapIsSafe;
    var latest := points[|points| - 1].date;
    PeriodAgrees(points, n, months, figure);
    TargetsAreKept(latest, months);
    SafeMeans(points, n);
    if i :| n <= i < |points| && Key(points[i].date) <= Key(FiveYearsBefore(latest)) {
      assert Key(points[i].date) <= Key(MinusMonths(latest, months));
    }
  }

  lemma DayChangeSafe(points: seq<Point>, n: nat, figure: (real, real, nat) -> real)
    requires Sorted(points) && |points| > 0 && points[|points| - 1].date.Valid() && n < |points|
    requires forall i :: 0 <= i < |points| ==> (i < n <==> Key(points[i].date) < Key(Cutoff(points[|points| - 1].date)))
    requires CapIsSafe(points)
    ensures DayChange(points[n..], figure) == DayChange(points, figure)
  {
    hide Cutoff, FiveYearsBefore, DayChange, CapIsSafe;
    SafeMeans(points, n);
    LatestIsKept(points, n);
    DayChangeAgrees(points, n, figure);
    if i :| n <= i < |points| && Key(points[i].date) <= Key(FiveYearsBefore(points[|points| - 1].date)) {
      assert i != |points| - 1;
    }
  }

  lemma SafeMeans(points: seq<Point>, n: nat)
    requires Sorted(points) && |points| > 0 && points[|points| - 1].date.Valid() && n < |points|
    requires forall i :: 0 <= i < |points| ==> (i < n <==> Key(points[i].date) < Key(Cutoff(points[|points| - 1].date)))
    ensures CapIsSafe(points) <==>
      n == 0 || points[n - 1].nav <= 0.0
      || exists i :: n <= i < |points| && Key(points[i].date) <= Key(FiveYearsBefore(points[|points| - 1].date))
  {
    hide Cutoff, FiveYearsBefore;
    if n > 0 {
      assert Key(points[n - 1].date) < Key(Cutoff(points[|points| - 1].date)) <= Key(points[n - 1 + 1].date);
    }
  }

  // compute_trailing_returns: the fields are set one period at a time.
  method ComputeTrailingReturns(points: seq<Point>, figure: (real, real, nat) -> real) returns (r: Returns)
    requires Dated(points)
    ensures r == TrailingReturns(points, figure)
  {
    hide FindOnOrBefore, MinusMonths;
    if |points| == 0 { return Returns(None, seq(|PERIODS|, i => None), None); }
    var ordered := Ordered(points);
    OrderedKeeps(points);
    var latest := ordered[|ordered| - 1];
    var trailing: seq<Option<real>> := seq(|PERIODS|, i => None);
    var k := 0;
    while k < |PERIODS|
      invariant 0 <= k <= |PERIODS| == |trailing|
      invariant forall i :: 0 <= i < |PERIODS| ==>
        trailing[i] == if i < k then PeriodReturn(ordered, PERIODS[i], figure) else None
    {
      var reference := FindOnOrBefore(ordered, MinusMonths(latest.date, PERIODS[k]));
      if reference.Some? && reference.value.nav > 0.0 {
        trailing := trailing[k := Some(figure(latest.nav, reference.value.nav, PERIODS[k]))];
      }
      k := k + 1;
    }
    assert trailing == seq(|PERIODS|, i requires 0 <= i < |PERIODS| => PeriodReturn(ordered, PERIODS[i], figure));
    return Returns(Some(latest.nav), trailing, DayChange(ordered, figure));
  }

  lemma {:induction false} FoundAt(ordered: seq<Point>, target: Date, k: nat)
    requires k <= |ordered| && forall j :: 0 <= j < |ordered| ==> (Key(ordered[j].date) <= Key(target) <==> j < k)
    ensures FindOnOrBefore(ordered, target) == if k == 0 then None else Some(ordered[k - 1])
  {
    hide Key;
    if |ordered| > k { FoundAt(ordered[..|ordered| - 1], target, k); }
  }

  // A period's figure compares the latest point with the last one dated no later
  // than one, six, twelve, thirty-six or sixty months before it; there is none
  // where every point is younger, or where that point has no usable NAV.
  lemma TrailingReturnMeans(points: seq<Point>, ordered: seq<Point>, figure: (real, real, nat) -> real, i: nat, k: nat)
    requires Dated(points) && |points| > 0 && ordered == Ordered(points) && |ordered| == |points| && Dated(ordered)
    requires i < 5 && k <= |ordered|
    requires var target := MinusMonths(ordered[|ordered| - 1].date, [1, 6, 12, 36, 60][i]);
      forall j :: 0 <= j < |ordered| ==> (Key(ordered[j].date) <= Key(target) <==> j < k)
    ensures var (r, latest) := (TrailingReturns(points, figure), ordered[|ordered| - 1]);
      && |r.trailing| == 5 && r.latestNav == Some(latest.nav)
      && r.trailing[i] == (if k > 0 && ordered[k - 1].nav > 0.0
                           then Some(figure(latest.nav, ordered[k - 1].nav, [1, 6, 12, 36, 60][i])) else None)
      && r.dayChange == (if |ordered| > 1 && ordered[|ordered| - 2].nav > 0.0
                         then Some(figure(latest.nav, ordered[|ordered| - 2].nav, 0)) else None)
  {
    hide Key, MinusMonths, Ordered, FindOnOrBefore;
    FoundAt(ordered, MinusMonths(ordered[|ordered| - 1].date, PERIODS[i]), k);
  }

  // ----- Storage ------------------------------------------------------------------------------------

  // What a series records: for each date the last NAV written.
  function Recorded(points: seq<Point>): map<Date, real>
  {
    if |points| == 0 then map[]
    else Recorded(points[..|points| - 1])[points[|points| - 1].date := points[|points| - 1].nav]
  }

  ghost predicate StrictlySorted(points: seq<Point>)
  {
    forall i, j :: 0 <= i < j < |points| ==> Key(points[i].date) < Key(points[j].date)
  }

  lemma {:induction false} RecordedAppend(a: seq<Point>, b: seq<Point>)
    ensures Recorded(a + b) == Recorded(a) + Recorded(b)
  {
    if |b| == 0 {
      assert a + b == a;
    } else {
      RecordedAppend(a, b[..|b| - 1]);
      assert (a + b)[..|a + b| - 1] == a + b[..|b| - 1];
    }
  }

  // Writing in two goes is writing at once, and writing the same points again
  // changes nothing.
  lemma {:induction false} WritesCompose(stored: seq<Point>, rewritten: seq<Point>, first: seq<Point>,
      second: seq<Point>)
    requires Recorded(rewritten) == Recorded(stored + first)
    ensures Recorded(rewritten + second) == Recorded(stored + (first + second))
    ensures Recorded(rewritten + first) == Recorded(rewritten)
  {
    RecordedAppend(rewritten, second);
    RecordedAppend(rewritten, first);
    RecordedAppend(stored, first);
    RecordedAppend(stored + first, second);
    assert stored + (first + second) == stored + first + second;
  }

  lemma {:induction false} RecordedAt(points: seq<Point>, i: nat)
    requires StrictlySorted(points) && i < |points|
    ensures points[i].date in Recorded(points) && Recorded(points)[points[i].date] == points[i].nav
  {
    hide Key;
    if i < |points| - 1 {
      RecordedAt(points[..|points| - 1], i);
      assert Key(points[i].date) < Key(points[|points| - 1].date);
    }
  }

  lemma {:induction false} IndexOf(points: seq<Point>, d: Date) returns (i: nat)
    requires d in Recorded(points)
    ensures i < |points| && points[i].date == d
  {
    var last := |points| - 1;
    if points[last].date == d { return last; }
    i := IndexOf(points[..last], d);
  }

  lemma LastIsNew(points: seq<Point>)
    requires StrictlySorted(points) && |points| > 0
    ensures points[|points| - 1].date !in Recorded(points[..|points| - 1])
    ensures Recorded(points[..|points| - 1]) == Recorded(points) - {points[|points| - 1].date}
  {
    hide Key;
    var init, last := points[..|points| - 1], points[|points| - 1];
    forall d | d in Recorded(init) ensures d != last.date {
      var i := IndexOf(init, d);
      assert Key(points[i].date) < Key(last.date);
    }
  }

  // The last point is the latest date recorded.
  lemma LastIsLatest(points: seq<Point>, d: Date)
    requires StrictlySorted(points) && |points| > 0 && d in Recorded(points)
    ensures Key(d) <= Key(points[|points| - 1].date)
  {
    hide Key;
    var i := IndexOf(points, d);
    if i < |points| - 1 { assert Key(points[i].date) < Key(points[|points| - 1].date); }
  }

  // The stored form of a record is unique: strictly by date.
  lemma {:induction false} StoredFormIsUnique(a: seq<Point>, b: seq<Point>)
    requires StrictlySorted(a) && StrictlySorted(b) && Dated(a) && Dated(b) && Recorded(a) == Recorded(b)
    ensures a == b
  {
    hide Key;
    if |a| == 0 {
      if |b| > 0 { RecordedAt(b, |b| - 1); }
    } else {
      RecordedAt(a, |a| - 1);
      if |b| > 0 {
        RecordedAt(b, |b| - 1);
        LastIsLatest(a, b[|b| - 1].date);
        LastIsLatest(b, a[|a| - 1].date);
        KeyIsInjective(a[|a| - 1].date, b[|b| - 1].date);
        LastIsNew(a);
        LastIsNew(b);
        StoredFormIsUnique(a[..|a| - 1], b[..|b| - 1]);
        assert a == a[..|a| - 1] + [a[|a| - 1]] && b == b[..|b| - 1] + [b[|b| - 1]];
      }
    }
  }

  // A new date slots into a strictly sorted series and is recorded.
  lemma {:induction false} InsertRecords(ordered: seq<Point>, p: Point, k: int)
    requires StrictlySorted(ordered) && Dated(ordered) && p.date.Valid() && p.date !in Recorded(ordered)
    ensures StrictlySorted(Insert(ordered, p)) && Dated(Insert(ordered, p))
    ensures Recorded(Insert(ordered, p)) == Recorded(ordered)[p.date := p.nav]
    ensures AllBelow(ordered, k) && Key(p.date) < k ==> AllBelow(Insert(ordered, p), k)
    decreases |ordered|, 1
  {
    hide Key;
    if |ordered| == 0 || Key(ordered[|ordered| - 1].date) <= Key(p.date) {
      if |ordered| > 0 { RecordedAt(ordered, |ordered| - 1); }
      if |ordered| > 0 && Key(ordered[|ordered| - 1].date) == Key(p.date) {
        KeyIsInjective(ordered[|ordered| - 1].date, p.date);
      }
      assert (ordered + [p])[..|ordered|] == ordered;
    } else {
      InsertBelowLast(ordered, p, k);
    }
  }

  ghost predicate AllBelow(points: seq<Point>, k: int) { forall i :: 0 <= i < |points| ==> Key(points[i].date) < k }

  lemma {:induction false} InsertBelowLast(ordered: seq<Point>, p: Point, k: int)
    requires StrictlySorted(ordered) && Dated(ordered) && p.date.Valid() && p.date !in Recorded(ordered)
    requires |ordered| > 0 && Key(ordered[|ordered| - 1].date) > Key(p.date)
    ensures StrictlySorted(Insert(ordered, p)) && Dated(Insert(ordered, p))
    ensures Recorded(Insert(ordered, p)) == Recorded(ordered)[p.date := p.nav]
    ensures AllBelow(ordered, k) && Key(p.date) < k ==> AllBelow(Insert(ordered, p), k)
    decreases |ordered|, 0
  {
    hide Key;
    var init, last := ordered[..|ordered| - 1], ordered[|ordered| - 1];
    InsertRecords(init, p, Key(last.date));
    InsertRecords(init, p, k);
    assert Insert(ordered, p) == Insert(init, p) + [last];
    assert (Insert(init, p) + [last])[..|Insert(init, p)|] == Insert(init, p);
    assert Recorded(init)[p.date := p.nav][last.date := last.nav]
      == Recorded(init)[last.date := last.nav][p.date := p.nav];
  }

  method MergedByDate(existing: seq<Point>, newPoints: seq<Point>) returns (merged: map<Date, real>)
    ensures merged == Recorded(existing + newPoints)
  {
    merged := map[];
    var all := existing + newPoints;
    var i := 0;
    while i < |all|
      invariant 0 <= i <= |all| && merged == Recorded(all[..i])
    {
      assert all[..i + 1][..i] == all[..i];
      merged := merged[all[i].date := all[i].nav];
      i := i + 1;
    }
    assert all[..i] == all;
  }

  // sorted(merged.items())
  method SortedItems(merged: map<Date, real>) returns (ordered: seq<Point>)
    requires forall d :: d in merged ==> d.Valid()
    ensures StrictlySorted(ordered) && Dated(ordered) && Recorded(ordered) == merged
  {
    hide StrictlySorted, Dated, Insert, Recorded;
    ordered := [];
    EmptySeries();
    var rest := merged;
    while rest != map[]
      invariant StrictlySorted(ordered) && Dated(ordered)
      invariant forall d :: d in rest ==> d in merged && rest[d] == merged[d] && d !in Recorded(ordered)
      invariant forall d :: d in merged ==> d in rest || (d in Recorded(ordered) && Recorded(ordered)[d] == merged[d])
      invariant forall d :: d in Recorded(ordered) ==> d in merged
      decreases |rest|
    {
      var d :| d in rest;
      InsertRecords(ordered, Point(d, rest[d]), 0);
      ordered := Insert(ordered, Point(d, rest[d]));
      rest := rest - {d};
    }
  }

  lemma EmptySeries()
    ensures StrictlySorted([]) && Dated([]) && Recorded([]) == map[]
  {}

  lemma {:induction false} RecordedDates(points: seq<Point>)
    requires Dated(points)
    ensures forall d :: d in Recorded(points) ==> d.Valid()
  {
    if |points| > 0 { RecordedDates(points[..|points| - 1]); }
  }

  // One file per scheme.
  class NavHistoryStorage {
    var files: map<int, seq<Point>>

    constructor ()
      ensures files == map[]
    {
      files := map[];
    }

    function Series(code: int): seq<Point>
      reads this
    {
      if code in files then files[code] else []
    }

    // Read, merge by date with the last write winning, rewrite in date order.
    method MergeAndWrite(code: int, newPoints: seq<Point>)
      requires Dated(Series(code)) && Dated(newPoints)
      modifies this
      ensures newPoints == [] ==> files == old(files)
      ensures newPoints != [] ==> files == old(files)[code := Series(code)]
      ensures newPoints != [] ==> Recorded(Series(code)) == Recorded(old(Series(code)) + newPoints)
      ensures newPoints != [] ==> StrictlySorted(Series(code)) && Dated(Series(code))
    {
      hide Recorded, StrictlySorted;
      if |newPoints| == 0 { return; }
      var existing := Series(code);
      var merged := MergedByDate(existing, newPoints);
      RecordedDates(existing + newPoints);
      var ordered := SortedItems(merged);
      files := files[code := ordered];
    }
  }
}
