/**
 * The summary statistics of the dashboard, as folds over the rows a query
 * returns.  Averages are exact reals; a NULL among summed or compared values
 * and a zero-day span of launch dates are the errors the source raises.
 */
module Statistics {
  import opened Wrappers
  import opened Models

  /** TypeError (arithmetic or comparison on None) and ZeroDivisionError. */
  datatype StatsError = NullValue | DivisionByZero

  function Sum(xs: seq<real>): real {
    if xs == [] then 0.0 else xs[0] + Sum(xs[1..])
  }

  /** `sum(xs) / len(xs) if xs else 0`. */
  function Average(xs: seq<real>): real {
    if xs == [] then 0.0 else Sum(xs) / |xs| as real
  }

  /** The values of a column when none is NULL; `None` as soon as one is. */
  function NonNull(xs: seq<Option<real>>): (r: Option<seq<real>>)
    ensures r.Some? <==> forall i :: 0 <= i < |xs| ==> xs[i].Some?
    ensures r.Some? ==> |r.value| == |xs| && forall i :: 0 <= i < |xs| ==> r.value[i] == xs[i].value
  {
    if xs == [] then Some([])
    else match NonNull(xs[1..])
      case None => None
      case Some(rest) => if xs[0].None? then None else Some([xs[0].value] + rest)
  }

  lemma {:induction false} SumBounds(xs: seq<real>, lo: real, hi: real)
    requires forall i :: 0 <= i < |xs| ==> lo <= xs[i] <= hi
    ensures |xs| as real * lo <= Sum(xs) <= |xs| as real * hi
  {
    if xs != [] {
      SumBounds(xs[1..], lo, hi);
      assert |xs| as real * lo == lo + |xs[1..]| as real * lo;
      assert |xs| as real * hi == hi + |xs[1..]| as real * hi;
    }
  }

  /** An average lies between the least and the greatest of the averaged values. */
  lemma AverageBetween(xs: seq<real>, lo: real, hi: real)
    requires |xs| > 0
    requires forall i :: 0 <= i < |xs| ==> lo <= xs[i] <= hi
    ensures lo <= Average(xs) <= hi
  {
    SumBounds(xs, lo, hi);
    var n := |xs| as real;
    assert Sum(xs) / n >= lo by {
      assert Sum(xs) >= n * lo;
    }
    assert Sum(xs) / n <= hi by {
      assert Sum(xs) <= n * hi;
    }
  }

  // ---------------------------------------------------------------- rockets

  datatype RocketStats = RocketStats(
    totalRockets: nat,
    avgSuccessRate: real,
    totalCostPerLaunch: real,
    avgHeight: real,
    avgDiameter: real)

  function SuccessRates(rockets: seq<Rocket>): (r: seq<Option<real>>)
    ensures |r| == |rockets| && forall i :: 0 <= i < |r| ==> r[i] == rockets[i].successRatePct
  {
    seq(|rockets|, i requires 0 <= i < |rockets| => rockets[i].successRatePct)
  }

  function Costs(rockets: seq<Rocket>): (r: seq<Option<real>>)
    ensures |r| == |rockets| && forall i :: 0 <= i < |r| ==> r[i] == rockets[i].costPerLaunch
  {
    seq(|rockets|, i requires 0 <= i < |rockets| => rockets[i].costPerLaunch)
  }

  function Heights(rockets: seq<Rocket>): (r: seq<Option<real>>)
    ensures |r| == |rockets| && forall i :: 0 <= i < |r| ==> r[i] == rockets[i].heightMeters
  {
    seq(|rockets|, i requires 0 <= i < |rockets| => rockets[i].heightMeters)
  }

  function Diameters(rockets: seq<Rocket>): (r: seq<Option<real>>)
    ensures |r| == |rockets| && forall i :: 0 <= i < |r| ==> r[i] == rockets[i].diameterMeters
  {
    seq(|rockets|, i requires 0 <= i < |rockets| => rockets[i].diameterMeters)
  }

  /** Every summed column is non-null in every row. */
  predicate RocketsSummable(rockets: seq<Rocket>) {
    forall i :: 0 <= i < |rockets| ==>
      rockets[i].successRatePct.Some? && rockets[i].costPerLaunch.Some?
      && rockets[i].heightMeters.Some? && rockets[i].diameterMeters.Some?
  }

  /**
   * `get_rocket_statistics`: the count of rows, the average success rate,
   * height and diameter (0 with no rows, without dividing), and the total
   * cost per launch; a NULL in a summed column raises.
   */
  function RocketStatistics(rockets: seq<Rocket>): (r: Result<RocketStats, StatsError>)
    ensures r.Success? <==> rockets == [] || RocketsSummable(rockets)
    ensures r.Failure? ==> r.error == NullValue
    ensures r.Success? ==> r.value.totalRockets == |rockets|
    ensures rockets == [] ==> r == Success(RocketStats(0, 0.0, 0.0, 0.0, 0.0))
    ensures r.Success? && rockets != [] ==>
              r.value.avgSuccessRate * |rockets| as real == Sum(NonNull(SuccessRates(rockets)).value)
              && r.value.totalCostPerLaunch == Sum(NonNull(Costs(rockets)).value)
              && r.value.avgHeight * |rockets| as real == Sum(NonNull(Heights(rockets)).value)
              && r.value.avgDiameter * |rockets| as real == Sum(NonNull(Diameters(rockets)).value)
  {
    if rockets == [] then Success(RocketStats(0, 0.0, 0.0, 0.0, 0.0))
    else
      match (NonNull(SuccessRates(rockets)), NonNull(Costs(rockets)), NonNull(Heights(rockets)), NonNull(Diameters(rockets)))
      case (Some(rates), Some(costs), Some(heights), Some(diameters)) =>
        Success(RocketStats(|rockets|, Average(rates), Sum(costs), Average(heights), Average(diameters)))
      case _ =>
        Failure(NullValue)
  }

  /** The average success rate lies between the lowest and the highest rocket's rate. */
  lemma RocketSuccessRateBetween(rockets: seq<Rocket>, lo: real, hi: real)
    requires rockets != [] && RocketsSummable(rockets)
    requires forall i :: 0 <= i < |rockets| ==> lo <= rockets[i].successRatePct.value <= hi
    ensures lo <= RocketStatistics(rockets).value.avgSuccessRate <= hi
  {
    var rates := NonNull(SuccessRates(rockets)).value;
    AverageBetween(rates, lo, hi);
  }

  /** When every rocket has the same success rate, the average is that rate. */
  lemma UniformSuccessRate(rockets: seq<Rocket>, rate: real)
    requires rockets != [] && RocketsSummable(rockets)
    requires forall i :: 0 <= i < |rockets| ==> rockets[i].successRatePct == Some(rate)
    ensures RocketStatistics(rockets).value.avgSuccessRate == rate
  {
    RocketSuccessRateBetween(rockets, rate, rate);
  }

  // ---------------------------------------------------------------- launches

  /** `most_used_rocket` is None without launches; a launch's rocket_id may itself be null. */
  datatype LaunchStats = LaunchStats(
    totalLaunches: nat,
    successfulLaunches: nat,
    failedLaunches: nat,
    avgLaunchesPerYear: real,
    mostUsedRocket: Option<Option<string>>)

  /** The launches whose `success` column holds the given text. */
  function CountSuccess(launches: seq<Launch>, text: string): nat {
    if launches == [] then 0
    else (if launches[0].success == Some(text) then 1 else 0) + CountSuccess(launches[1..], text)
  }

  /** The `success` column of every launch, in order. */
  function Successes(launches: seq<Launch>): seq<Option<string>> {
    seq(|launches|, i requires 0 <= i < |launches| => launches[i].success)
  }

  /** The count is the number of launches whose `success` column holds exactly that text. */
  lemma {:induction false} CountSuccessOccurrences(launches: seq<Launch>, text: string)
    ensures CountSuccess(launches, text) == multiset(Successes(launches))[Some(text)]
  {
    if launches != [] {
      CountSuccessOccurrences(launches[1..], text);
      assert Successes(launches) == [launches[0].success] + Successes(launches[1..]);
    }
  }

  lemma {:induction false} SuccessAndFailureBounded(launches: seq<Launch>)
    ensures CountSuccess(launches, "true") + CountSuccess(launches, "false") <= |launches|
  {
    if launches != [] {
      SuccessAndFailureBounded(launches[1..]);
    }
  }

  /** The candidate whose occurrences in `all` are greatest; the earliest one on a tie. */
  function BestOf(candidates: seq<Option<string>>, all: seq<Option<string>>): (r: Option<string>)
    requires candidates != []
    ensures r in candidates
    ensures forall c :: c in candidates ==> multiset(all)[c] <= multiset(all)[r]
  {
    if |candidates| == 1 then candidates[0]
    else
      var best := BestOf(candidates[1..], all);
      if multiset(all)[candidates[0]] >= multiset(all)[best] then candidates[0] else best
  }

  /** `max(set(ids), key=ids.count)`: an id that occurs, and that no id occurs more often than. */
  function MostFrequent(ids: seq<Option<string>>): (r: Option<string>)
    requires ids != []
    ensures r in ids
    ensures forall x :: multiset(ids)[x] <= multiset(ids)[r]
  {
    BestOf(ids, ids)
  }

  function RocketIds(launches: seq<Launch>): seq<Option<string>> {
    seq(|launches|, i requires 0 <= i < |launches| => launches[i].rocketId)
  }

  /** The launch dates when none is NULL. */
  function LaunchDates(launches: seq<Launch>): (r: Option<seq<CalendarDate>>)
    ensures r.Some? <==> forall i :: 0 <= i < |launches| ==> launches[i].dateUtc.Some?
    ensures r.Some? ==> |r.value| == |launches| && forall i :: 0 <= i < |launches| ==> r.value[i] == launches[i].dateUtc.value
  {
    if launches == [] then Some([])
    else match LaunchDates(launches[1..])
      case None => None
      case Some(rest) => if launches[0].dateUtc.None? then None else Some([launches[0].dateUtc.value] + rest)
  }

  function Latest(ds: seq<CalendarDate>): (r: CalendarDate)
    requires ds != []
    ensures r in ds && forall i :: 0 <= i < |ds| ==> DateLeq(ds[i], r)
  {
    if |ds| == 1 then ds[0]
    else var m := Latest(ds[1..]); if DateLeq(m, ds[0]) then ds[0] else m
  }

  function Earliest(ds: seq<CalendarDate>): (r: CalendarDate)
    requires ds != []
    ensures r in ds && forall i :: 0 <= i < |ds| ==> DateLeq(r, ds[i])
  {
    if |ds| == 1 then ds[0]
    else var m := Earliest(ds[1..]); if DateLeq(ds[0], m) then ds[0] else m
  }

  /** `(max(dates) - min(dates)).days`: the days from the earliest to the latest date. */
  function Span(ds: seq<CalendarDate>): int {
    if ds == [] then 0 else DayNumber(Latest(ds)) - DayNumber(Earliest(ds))
  }

  /**
   * `len(launches) / ((max(dates) - min(dates)).days / 365) if launches else 0`:
   * 0 without launches; a NULL date or a zero-day span raises.
   */
  function LaunchesPerYear(launches: seq<Launch>): (r: Result<real, StatsError>)
    ensures r.Success? <==>
              launches == [] || (LaunchDates(launches).Some? && Span(LaunchDates(launches).value) != 0)
    ensures r.Success? && launches != [] ==>
              && LaunchDates(launches).Some?
              && var span := Span(LaunchDates(launches).value);
              && span != 0
              && r.value == PerYear(|launches|, span)
  {
    if launches == [] then Success(0.0)
    else match LaunchDates(launches)
      case None => Failure(NullValue)
      case Some(ds) =>
        var days := Span(ds);
        if days == 0 then Failure(DivisionByZero)
        else Success(PerYear(|launches|, days))
  }

  // Arithmetic steps for `PerYear` and `PerYearTimesYears` below.

  lemma NonZeroYears(days: int)
    requires days != 0
    ensures days as real / 365.0 != 0.0
  {
  }

  lemma DivideThenMultiply(n: real, y: real)
    requires y != 0.0
    ensures n / y * y == n
  {
  }

  /** `n / (days / 365)`: n events spread over a span of days, per 365 days. */
  function PerYear(n: nat, days: int): real
    requires days != 0
  {
    NonZeroYears(days);
    n as real / (days as real / 365.0)
  }

  /** The rate per year, times the years the span covers, gives back the number of events. */
  lemma PerYearTimesYears(n: nat, days: int)
    requires days != 0
    ensures PerYear(n, days) * (days as real / 365.0) == n as real
  {
    NonZeroYears(days);
    DivideThenMultiply(n as real, days as real / 365.0);
  }

  /**
   * `get_launch_statistics`: the counts of launches whose `success` is the
   * text 'true' and 'false', the launches per year of the span between the
   * earliest and the latest launch date, and a most frequent rocket id.
   */
  function LaunchStatistics(launches: seq<Launch>): (r: Result<LaunchStats, StatsError>)
    ensures r.Success? ==> r.value.totalLaunches == |launches|
    ensures r.Success? ==> r.value.successfulLaunches == multiset(Successes(launches))[Some("true")]
    ensures r.Success? ==> r.value.failedLaunches == multiset(Successes(launches))[Some("false")]
    ensures r.Success? ==> r.value.successfulLaunches + r.value.failedLaunches <= r.value.totalLaunches
    ensures r.Success? && launches != [] ==>
              && LaunchDates(launches).Some?
              && var span := Span(LaunchDates(launches).value);
              && span != 0
              && r.value.avgLaunchesPerYear == PerYear(|launches|, span)
    ensures launches == [] ==> r == Success(LaunchStats(0, 0, 0, 0.0, None))
    ensures r.Success? && launches != [] ==>
              && r.value.mostUsedRocket.Some?
              && r.value.mostUsedRocket.value in RocketIds(launches)
              && forall x :: multiset(RocketIds(launches))[x] <= multiset(RocketIds(launches))[r.value.mostUsedRocket.value]
    ensures r.Success? <==>
              launches == [] || (LaunchDates(launches).Some? && Span(LaunchDates(launches).value) != 0)
    ensures r.Failure? <==> LaunchesPerYear(launches).Failure?
  {
    SuccessAndFailureBounded(launches);
    CountSuccessOccurrences(launches, "true");
    CountSuccessOccurrences(launches, "false");
    match LaunchesPerYear(launches)
    case Failure(e) => Failure(e)
    case Success(perYear) =>
      Success(LaunchStats(
        |launches|,
        CountSuccess(launches, "true"),
        CountSuccess(launches, "false"),
        perYear,
        if launches == [] then None else Some(MostFrequent(RocketIds(launches)))))
  }

  /** Launches that all share one date span zero days, and the per-year rate divides by zero. */
  lemma {:induction false} SameDayLaunchesDivideByZero(launches: seq<Launch>, d: CalendarDate)
    requires launches != []
    requires forall i :: 0 <= i < |launches| ==> launches[i].dateUtc == Some(d)
    ensures LaunchStatistics(launches) == Failure(DivisionByZero)
  {
    var ds := SameDates(launches, d);
    var latest, earliest := Latest(ds), Earliest(ds);
    assert latest == d && earliest == d;
  }

  lemma {:induction false} SameDates(launches: seq<Launch>, d: CalendarDate) returns (ds: seq<CalendarDate>)
    requires forall i :: 0 <= i < |launches| ==> launches[i].dateUtc == Some(d)
    ensures LaunchDates(launches) == Some(ds) && |ds| == |launches|
    ensures forall i :: 0 <= i < |ds| ==> ds[i] == d
  {
    if launches == [] {
      ds := [];
    } else {
      var rest := SameDates(launches[1..], d);
      ds := [d] + rest;
    }
  }

  /** A launch with a NULL date makes the statistics raise. */
  lemma {:induction false} NullLaunchDateRaises(launches: seq<Launch>, k: nat)
    requires k < |launches| && launches[k].dateUtc.None?
    ensures LaunchStatistics(launches) == Failure(NullValue)
  {
    NullDateHasNoDates(launches, k);
  }

  lemma {:induction false} NullDateHasNoDates(launches: seq<Launch>, k: nat)
    requires k < |launches| && launches[k].dateUtc.None?
    ensures LaunchDates(launches).None?
  {
    if k > 0 {
      NullDateHasNoDates(launches[1..], k - 1);
    }
  }

  // ---------------------------------------------------------------- starlink

  datatype StarlinkStats = StarlinkStats(totalSatellites: nat, activeSatellites: nat, decayedSatellites: nat)

  /** The `decay_date` column of every satellite, in order. */
  function DecayDates(satellites: seq<Starlink>): seq<Option<CalendarDate>> {
    seq(|satellites|, i requires 0 <= i < |satellites| => satellites[i].decayDate)
  }

  function CountActive(satellites: seq<Starlink>): nat {
    if satellites == [] then 0
    else (if satellites[0].decayDate.None? then 1 else 0) + CountActive(satellites[1..])
  }

  function CountDecayed(satellites: seq<Starlink>): nat {
    if satellites == [] then 0
    else (if satellites[0].decayDate.Some? then 1 else 0) + CountDecayed(satellites[1..])
  }

  lemma {:induction false} ActivePlusDecayed(satellites: seq<Starlink>)
    ensures CountActive(satellites) + CountDecayed(satellites) == |satellites|
  {
    if satellites != [] {
      ActivePlusDecayed(satellites[1..]);
    }
  }

  /** The active satellites are exactly those whose decay date is NULL. */
  lemma {:induction false} CountActiveOccurrences(satellites: seq<Starlink>)
    ensures CountActive(satellites) == multiset(DecayDates(satellites))[None]
  {
    if satellites != [] {
      CountActiveOccurrences(satellites[1..]);
      assert DecayDates(satellites) == [satellites[0].decayDate] + DecayDates(satellites[1..]);
    }
  }

  /** `get_starlink_statistics`: active (no decay date) and decayed satellites partition the total. */
  function StarlinkStatistics(satellites: seq<Starlink>): (r: StarlinkStats)
    ensures r.totalSatellites == |satellites|
    ensures r.activeSatellites == multiset(DecayDates(satellites))[None]
    ensures r.decayedSatellites == |satellites| - multiset(DecayDates(satellites))[None]
    ensures r.activeSatellites + r.decayedSatellites == r.totalSatellites
    ensures (forall i :: 0 <= i < |satellites| ==> satellites[i].decayDate.None?) ==> r.activeSatellites == r.totalSatellites
  {
    ActivePlusDecayed(satellites);
    AllActive(satellites);
    CountActiveOccurrences(satellites);
    StarlinkStats(|satellites|, CountActive(satellites), CountDecayed(satellites))
  }

  lemma {:induction false} AllActive(satellites: seq<Starlink>)
    ensures (forall i :: 0 <= i < |satellites| ==> satellites[i].decayDate.None?) ==> CountActive(satellites) == |satellites|
  {
    if satellites != [] {
      AllActive(satellites[1..]);
      if forall i :: 0 <= i < |satellites| ==> satellites[i].decayDate.None? {
        assert forall i :: 0 <= i < |satellites[1..]| ==> satellites[1..][i] == satellites[i + 1];
      }
    }
  }
}
