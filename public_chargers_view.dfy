/**
 * The two helpers of the public-charger dashboard view
 * (PublicChargersView.tsx): the window of step records covering the last
 * 24 hours before the playback position, and the public charging energy
 * grouped by calendar day.
 */
module PublicChargersView {
  import opened JsBuiltins

  /** The fields of a dashboard step record that the helpers read. */
  datatype ChartStep = ChartStep(timestampIso: string, publicEvKw: real)

  // ---------------------------------------------------------------------
  // The last 24 hours

  /**
   * `Math.max(1, Math.round(24 * 60 / stepMinutes))`: how many steps make a
   * day. A step of zero minutes divides to Infinity, which both calls keep;
   * that is `None`. Otherwise there is at least one step per day; for steps
   * of at most two days the count times the step length is within half a
   * step of 24 hours, and a longer step rounds to 0 and counts as 1.
   */
  function StepsPerDay(stepMinutes: real): (n: Option<nat>)
    ensures n.None? <==> stepMinutes == 0.0
    ensures n.Some? ==> n.value >= 1
    ensures stepMinutes < 0.0 ==> n == Some(1)
    ensures 0.0 < stepMinutes ==> 1440.0 < (n.value as real + 0.5) * stepMinutes
    ensures 0.0 < stepMinutes <= 2880.0 ==> (n.value as real - 0.5) * stepMinutes <= 1440.0
    ensures 2880.0 < stepMinutes ==> n == Some(1)
  {
    if stepMinutes == 0.0 then None
    else
      RoundedDayBounds(stepMinutes);
      Some(Max(1, Round(1440.0 / stepMinutes)))
  }

  /** The bounds the rounding of `24 * 60 / stepMinutes` keeps. */
  lemma RoundedDayBounds(stepMinutes: real)
    requires stepMinutes != 0.0
    ensures var n := Max(1, Round(1440.0 / stepMinutes));
      && (stepMinutes < 0.0 ==> n == 1)
      && (0.0 < stepMinutes ==> 1440.0 < (n as real + 0.5) * stepMinutes)
      && (0.0 < stepMinutes <= 2880.0 ==> (n as real - 0.5) * stepMinutes <= 1440.0)
      && (2880.0 < stepMinutes ==> n == 1)
  {
    var x := 1440.0 / stepMinutes;
    var n := Max(1, Round(x));
    if 0.0 < stepMinutes {
      RoundedUpBound(stepMinutes);
      if stepMinutes <= 2880.0 {
        RoundedDownBound(stepMinutes);
      } else {
        RoundedToOne(stepMinutes);
      }
    } else {
      assert x <= 0.0 by {
        assert x * -stepMinutes == -1440.0;
        if x > 0.0 {
          MultiplyBelow(0.0, x, -stepMinutes);
        }
      }
    }
  }

  lemma RoundedUpBound(stepMinutes: real)
    requires 0.0 < stepMinutes
    ensures 1440.0 < (Max(1, Round(1440.0 / stepMinutes)) as real + 0.5) * stepMinutes
  {
    var x := 1440.0 / stepMinutes;
    var n := Max(1, Round(x));
    assert x * stepMinutes == 1440.0;
    assert x < n as real + 0.5;
    MultiplyBelow(x, n as real + 0.5, stepMinutes);
  }

  lemma RoundedDownBound(stepMinutes: real)
    requires 0.0 < stepMinutes <= 2880.0
    ensures (Max(1, Round(1440.0 / stepMinutes)) as real - 0.5) * stepMinutes <= 1440.0
  {
    var x := 1440.0 / stepMinutes;
    var n := Max(1, Round(x));
    assert x * stepMinutes == 1440.0;
    assert x >= 0.5 by {
      if x < 0.5 {
        MultiplyBelow(x, 0.5, stepMinutes);
      }
    }
    assert n as real - 0.5 <= x;
    MultiplyAtMost(n as real - 0.5, x, stepMinutes);
  }

  /** A step longer than two days gives fewer than half a step per day, which rounds to 0. */
  lemma RoundedToOne(stepMinutes: real)
    requires 2880.0 < stepMinutes
    ensures Round(1440.0 / stepMinutes) == 0
  {
    var x := 1440.0 / stepMinutes;
    assert x * stepMinutes == 1440.0;
    assert 0.0 < x;
    assert x < 0.5 by {
      if x >= 0.5 {
        MultiplyAtMost(0.5, x, stepMinutes);
      }
    }
  }

  lemma MultiplyBelow(a: real, b: real, c: real)
    requires c > 0.0 && a < b
    ensures a * c < b * c
  {
  }

  lemma MultiplyAtMost(a: real, b: real, c: real)
    requires c > 0.0 && a <= b
    ensures a * c <= b * c
  {
  }

  /** `Math.max(0, currentIndex - stepsPerDay + 1)`, which is 0 when a day has Infinity steps. */
  function WindowStart(currentIndex: int, perDay: Option<nat>): nat
  {
    match perDay
    case None => 0
    case Some(n) => Max(0, currentIndex - n + 1)
  }

  /**
   * `stepsForLast24Hours(steps, currentIndex, stepMinutes)`. For a position
   * inside the run, the window is the contiguous run of records that ends
   * with the current one and holds a day's worth of steps, or every step so
   * far when fewer have passed. From position -1 on, it never holds more
   * than a day's worth.
   */
  function StepsForLast24Hours<T>(steps: seq<T>, currentIndex: int, stepMinutes: real): (window: seq<T>)
    ensures |window| <= |steps|
    ensures -1 <= currentIndex && StepsPerDay(stepMinutes).Some? ==> |window| <= StepsPerDay(stepMinutes).value
    ensures 0 <= currentIndex < |steps| ==>
      && 0 < |window| <= currentIndex + 1
      && window[|window| - 1] == steps[currentIndex]
      && window == steps[currentIndex + 1 - |window|..currentIndex + 1]
    ensures 0 <= currentIndex < |steps| && StepsPerDay(stepMinutes).Some? ==>
      |window| == Min(StepsPerDay(stepMinutes).value, currentIndex + 1)
    ensures 0 <= currentIndex < |steps| && stepMinutes == 0.0 ==> window == steps[..currentIndex + 1]
  {
    var perDay := StepsPerDay(stepMinutes);
    WindowShape(steps, currentIndex, perDay);
    JsSlice(steps, WindowStart(currentIndex, perDay), currentIndex + 1)
  }

  lemma WindowShape<T>(steps: seq<T>, currentIndex: int, perDay: Option<nat>)
    requires perDay.Some? ==> perDay.value >= 1
    ensures var window := JsSlice(steps, WindowStart(currentIndex, perDay), currentIndex + 1);
      && (-1 <= currentIndex && perDay.Some? ==> |window| <= perDay.value)
      && (0 <= currentIndex < |steps| ==>
        && |window| == (if perDay.Some? then Min(perDay.value, currentIndex + 1) else currentIndex + 1)
        && |window| <= currentIndex + 1
        && window == steps[currentIndex + 1 - |window|..currentIndex + 1])
  {
    var start := WindowStart(currentIndex, perDay);
    var window := JsSlice(steps, start, currentIndex + 1);
    if 0 <= currentIndex < |steps| {
      assert window == steps[start..currentIndex + 1];
    } else if -1 <= currentIndex {
      assert 0 <= start;
      assert window == steps[Min(start, |steps|)..Min(currentIndex + 1, |steps|)] || window == [];
    }
  }

  // ---------------------------------------------------------------------
  // Energy per day

  /** `step.timestampIso.slice(0, 10)`: the `YYYY-MM-DD` part of an ISO time. */
  function DateKey(step: ChartStep): (key: string)
    ensures |key| == Min(10, |step.timestampIso|)
    ensures key <= step.timestampIso
  {
    JsSlice(step.timestampIso, 0, 10)
  }

  /** `step.publicEvKw * stepHours`: the public charging energy of one step. */
  function ChargingEnergy(step: ChartStep, stepHours: real): real
  {
    step.publicEvKw * stepHours
  }

  /** The days the steps fall on. */
  function Days(steps: seq<ChartStep>): set<string>
  {
    if steps == [] then {} else Days(steps[..|steps| - 1]) + {DateKey(steps[|steps| - 1])}
  }

  /** The charging energy of the steps on day `key`, in step order. */
  function DayEnergy(steps: seq<ChartStep>, key: string, stepHours: real): real
  {
    if steps == [] then 0.0
    else
      var last := steps[|steps| - 1];
      DayEnergy(steps[..|steps| - 1], key, stepHours) + (if DateKey(last) == key then ChargingEnergy(last, stepHours) else 0.0)
  }

  /** The charging energy of all the steps. */
  function TotalEnergy(steps: seq<ChartStep>, stepHours: real): real
  {
    if steps == [] then 0.0
    else TotalEnergy(steps[..|steps| - 1], stepHours) + ChargingEnergy(steps[|steps| - 1], stepHours)
  }

  lemma {:induction false} DaysHoldEveryKey(steps: seq<ChartStep>)
    ensures forall i :: 0 <= i < |steps| ==> DateKey(steps[i]) in Days(steps)
    ensures forall key :: key in Days(steps) ==> exists i :: 0 <= i < |steps| && DateKey(steps[i]) == key
  {
    if steps != [] {
      var n := |steps| - 1;
      DaysHoldEveryKey(steps[..n]);
      forall key | key in Days(steps) ensures exists i :: 0 <= i < |steps| && DateKey(steps[i]) == key {
        if key in Days(steps[..n]) {
          var i :| 0 <= i < n && DateKey(steps[..n][i]) == key;
          assert DateKey(steps[i]) == key;
        } else {
          assert DateKey(steps[n]) == key;
        }
      }
    }
  }

  /** A day no step falls on has no energy. */
  lemma {:induction false} NoEnergyOffDays(steps: seq<ChartStep>, key: string, stepHours: real)
    requires key !in Days(steps)
    ensures DayEnergy(steps, key, stepHours) == 0.0
  {
    if steps != [] {
      NoEnergyOffDays(steps[..|steps| - 1], key, stepHours);
    }
  }

  // ---------------------------------------------------------------------
  // Sorting the day labels

  /** The order JavaScript's default `sort` puts strings in: character by character, a proper prefix first. */
  predicate Before(a: string, b: string)
  {
    if a == [] then b != []
    else b != [] && (a[0] < b[0] || (a[0] == b[0] && Before(a[1..], b[1..])))
  }

  lemma {:induction false} BeforeIrreflexive(a: string)
    ensures !Before(a, a)
  {
    if a != [] {
      BeforeIrreflexive(a[1..]);
    }
  }

  lemma {:induction false} BeforeTransitive(a: string, b: string, c: string)
    requires Before(a, b) && Before(b, c)
    ensures Before(a, c)
  {
    if a != [] && a[0] == b[0] && b[0] == c[0] {
      BeforeTransitive(a[1..], b[1..], c[1..]);
    }
  }

  lemma {:induction false} BeforeTotal(a: string, b: string)
    requires a != b
    ensures Before(a, b) || Before(b, a)
  {
    if a != [] && b != [] && a[0] == b[0] {
      assert a == [a[0]] + a[1..] && b == [b[0]] + b[1..];
      BeforeTotal(a[1..], b[1..]);
    }
  }

  /** Strictly ascending, so without repeats. */
  predicate Ascending(s: seq<string>)
  {
    forall p, q :: 0 <= p < q < |s| ==> Before(s[p], s[q])
  }

  predicate Distinct(s: seq<string>)
  {
    forall p, q :: 0 <= p < q < |s| ==> s[p] != s[q]
  }

  lemma AscendingDistinct(s: seq<string>)
    requires Ascending(s)
    ensures Distinct(s)
  {
    forall p, q | 0 <= p < q < |s| ensures s[p] != s[q] {
      BeforeIrreflexive(s[p]);
    }
  }

  /** Put `x` in front of the first label it comes before. */
  function InsertLabel(x: string, s: seq<string>): (r: seq<string>)
    ensures |r| == |s| + 1
    ensures multiset(r) == multiset(s) + multiset{x}
  {
    if s == [] then [x]
    else if Before(x, s[0]) then [x] + s
    else
      assert s == [s[0]] + s[1..];
      [s[0]] + InsertLabel(x, s[1..])
  }

  /** The labels as the library sort orders them. */
  function SortLabels(s: seq<string>): (r: seq<string>)
    ensures multiset(r) == multiset(s)
  {
    if s == [] then []
    else
      var n := |s| - 1;
      assert s == s[..n] + [s[n]];
      InsertLabel(s[n], SortLabels(s[..n]))
  }

  /** A label that comes before every label of an ascending list can head it. */
  lemma ConsAscending(y: string, s: seq<string>)
    requires Ascending(s)
    requires forall q :: 0 <= q < |s| ==> Before(y, s[q])
    ensures Ascending([y] + s)
  {
    var r := [y] + s;
    forall p, q | 0 <= p < q < |r| ensures Before(r[p], r[q]) {
      assert r[q] == s[q - 1];
      if p > 0 {
        assert r[p] == s[p - 1];
      }
    }
  }

  lemma InsertMember(x: string, s: seq<string>, y: string)
    requires y in InsertLabel(x, s)
    ensures y == x || y in s
  {
    assert y in multiset(InsertLabel(x, s));
  }

  lemma {:induction false} InsertAscending(x: string, s: seq<string>)
    requires Ascending(s) && x !in s
    ensures Ascending(InsertLabel(x, s))
  {
    if s == [] {
    } else if Before(x, s[0]) {
      forall q | 0 <= q < |s| ensures Before(x, s[q]) {
        if q > 0 {
          BeforeTransitive(x, s[0], s[q]);
        }
      }
      ConsAscending(x, s);
    } else {
      var tail := s[1..];
      assert s == [s[0]] + tail;
      BeforeTotal(x, s[0]);
      assert Ascending(tail) by {
        forall p, q | 0 <= p < q < |tail| ensures Before(tail[p], tail[q]) {
          assert tail[p] == s[p + 1] && tail[q] == s[q + 1];
        }
      }
      InsertAscending(x, tail);
      var rest := InsertLabel(x, tail);
      forall q | 0 <= q < |rest| ensures Before(s[0], rest[q]) {
        InsertMember(x, tail, rest[q]);
        if rest[q] != x {
          var p :| 0 <= p < |tail| && tail[p] == rest[q];
          assert s[p + 1] == rest[q];
        }
      }
      ConsAscending(s[0], rest);
    }
  }

  /** Labels without repeats sort into ascending order. */
  lemma {:induction false} SortAscending(s: seq<string>)
    requires Distinct(s)
    ensures Ascending(SortLabels(s))
  {
    if s != [] {
      var n := |s| - 1;
      SortAscending(s[..n]);
      assert s[n] !in s[..n];
      assert s[n] !in multiset(SortLabels(s[..n]));
      InsertAscending(s[n], SortLabels(s[..n]));
    }
  }

  // ---------------------------------------------------------------------
  // The grouping

  /** The energies of the given days, added up. */
  function SumOverDays(steps: seq<ChartStep>, labels: seq<string>, stepHours: real): real
  {
    if labels == [] then 0.0
    else SumOverDays(steps, labels[..|labels| - 1], stepHours) + DayEnergy(steps, labels[|labels| - 1], stepHours)
  }

  function Sum(values: seq<real>): real
  {
    if values == [] then 0.0 else Sum(values[..|values| - 1]) + values[|values| - 1]
  }

  /** How often `key` is among the labels. */
  function Occurrences(labels: seq<string>, key: string): nat
  {
    if labels == [] then 0
    else Occurrences(labels[..|labels| - 1], key) + (if labels[|labels| - 1] == key then 1 else 0)
  }

  lemma {:induction false} OccursOnce(labels: seq<string>, key: string)
    requires Distinct(labels)
    ensures Occurrences(labels, key) == if key in labels then 1 else 0
  {
    if labels != [] {
      var n := |labels| - 1;
      OccursOnce(labels[..n], key);
      assert labels == labels[..n] + [labels[n]];
    }
  }

  /** One more step adds its energy to every label it is keyed by. */
  lemma {:induction false} SumOverDaysSnoc(steps: seq<ChartStep>, labels: seq<string>, stepHours: real)
    requires steps != []
    ensures var n := |steps| - 1;
      SumOverDays(steps, labels, stepHours)
        == SumOverDays(steps[..n], labels, stepHours)
          + Occurrences(labels, DateKey(steps[n])) as real * ChargingEnergy(steps[n], stepHours)
  {
    if labels != [] {
      SumOverDaysSnoc(steps, labels[..|labels| - 1], stepHours);
    }
  }

  /** Adding up the energies of distinct labels that cover every day gives the energy of all the steps. */
  lemma {:induction false} DaysAddUp(steps: seq<ChartStep>, labels: seq<string>, stepHours: real)
    requires Distinct(labels)
    requires forall i :: 0 <= i < |steps| ==> DateKey(steps[i]) in labels
    ensures SumOverDays(steps, labels, stepHours) == TotalEnergy(steps, stepHours)
  {
    if steps == [] {
      NothingOnNoSteps(labels, stepHours);
    } else {
      var n := |steps| - 1;
      DaysAddUp(steps[..n], labels, stepHours);
      SumOverDaysSnoc(steps, labels, stepHours);
      OccursOnce(labels, DateKey(steps[n]));
    }
  }

  lemma {:induction false} NothingOnNoSteps(labels: seq<string>, stepHours: real)
    ensures SumOverDays([], labels, stepHours) == 0.0
  {
    if labels != [] {
      NothingOnNoSteps(labels[..|labels| - 1], stepHours);
    }
  }

  lemma {:induction false} SumOfDayValues(steps: seq<ChartStep>, labels: seq<string>, values: seq<real>, stepHours: real)
    requires |values| == |labels|
    requires forall k :: 0 <= k < |labels| ==> values[k] == DayEnergy(steps, labels[k], stepHours)
    ensures Sum(values) == SumOverDays(steps, labels, stepHours)
  {
    if labels != [] {
      var n := |labels| - 1;
      SumOfDayValues(steps, labels[..n], values[..n], stepHours);
    }
  }

  /**
   * Whatever labels and values satisfy the grouping's contract, the daily
   * values add up to the charging energy of the whole run.
   */
  lemma DailyValuesAddUp(steps: seq<ChartStep>, labels: seq<string>, values: seq<real>, stepHours: real)
    requires Ascending(labels)
    requires forall i :: 0 <= i < |steps| ==> DateKey(steps[i]) in labels
    requires |values| == |labels|
    requires forall k :: 0 <= k < |labels| ==> values[k] == DayEnergy(steps, labels[k], stepHours)
    ensures Sum(values) == TotalEnergy(steps, stepHours)
  {
    AscendingDistinct(labels);
    SumOfDayValues(steps, labels, values, stepHours);
    DaysAddUp(steps, labels, stepHours);
  }

  /**
   * The `forEach` that fills the `Map`: `energy` maps each day the steps fall
   * on to its charging energy, and `keys` lists those days once each.
   */
  method EnergyByDay(steps: seq<ChartStep>, stepHours: real) returns (energy: map<string, real>, keys: seq<string>)
    ensures Distinct(keys)
    ensures forall key :: key in keys <==> key in energy
    ensures energy.Keys == Days(steps)
    ensures forall key :: key in energy ==> energy[key] == DayEnergy(steps, key, stepHours)
  {
    energy := map[];
    keys := [];
    for i := 0 to |steps|
      invariant Distinct(keys)
      invariant forall key :: key in keys <==> key in energy
      invariant energy.Keys == Days(steps[..i])
      invariant forall key :: key in energy ==> energy[key] == DayEnergy(steps[..i], key, stepHours)
    {
      var dateKey := DateKey(steps[i]);
      assert steps[..i + 1][..i] == steps[..i];
      if dateKey !in energy {
        NoEnergyOffDays(steps[..i], dateKey, stepHours);
        keys := keys + [dateKey];
      }
      var prior := if dateKey in energy then energy[dateKey] else 0.0;
      energy := energy[dateKey := prior + ChargingEnergy(steps[i], stepHours)];
    }
    assert steps[..|steps|] == steps;
  }

  /**
   * `groupByDay(steps, stepMinutes)`: the `Map` from day to energy, its keys
   * sorted into the labels, and each label's energy read back. The labels
   * are exactly the days the steps fall on, ascending; each value is its
   * day's charging energy; together they are the charging energy of all the
   * steps.
   */
  method GroupByDay(steps: seq<ChartStep>, stepMinutes: real) returns (labels: seq<string>, values: seq<real>)
    ensures Ascending(labels)
    ensures forall k :: 0 <= k < |labels| ==> labels[k] in Days(steps)
    ensures forall i :: 0 <= i < |steps| ==> DateKey(steps[i]) in labels
    ensures |values| == |labels|
    ensures forall k :: 0 <= k < |labels| ==> values[k] == DayEnergy(steps, labels[k], stepMinutes / 60.0)
    ensures Sum(values) == TotalEnergy(steps, stepMinutes / 60.0)
  {
    var stepHours := stepMinutes / 60.0;
    var energy, keys := EnergyByDay(steps, stepHours);
    labels := SortLabels(keys);
    values := ReadBack(labels, energy);
    LabelsAreDays(steps, stepHours, energy, keys);
    ValuesAreDayEnergies(steps, stepHours, energy, keys);
    SortAscending(keys);
    DailyValuesAddUp(steps, labels, values, stepHours);
  }

  /** The sorted keys of the filled `Map` are the days the steps fall on. */
  lemma LabelsAreDays(steps: seq<ChartStep>, stepHours: real, energy: map<string, real>, keys: seq<string>)
    requires forall key :: key in keys <==> key in energy
    requires energy.Keys == Days(steps)
    ensures forall k :: 0 <= k < |SortLabels(keys)| ==> SortLabels(keys)[k] in Days(steps)
    ensures forall i :: 0 <= i < |steps| ==> DateKey(steps[i]) in SortLabels(keys)
  {
    SortedLabelsAreKeys(keys);
    DaysHoldEveryKey(steps);
  }

  /** Reading the filled `Map` back gives each label its day's energy. */
  lemma ValuesAreDayEnergies(steps: seq<ChartStep>, stepHours: real, energy: map<string, real>, keys: seq<string>)
    requires forall key :: key in keys <==> key in energy
    requires forall key :: key in energy ==> energy[key] == DayEnergy(steps, key, stepHours)
    ensures var labels := SortLabels(keys);
      forall k :: 0 <= k < |labels| ==> ReadBack(labels, energy)[k] == DayEnergy(steps, labels[k], stepHours)
  {
    var labels := SortLabels(keys);
    SortedLabelsAreKeys(keys);
    forall k | 0 <= k < |labels| ensures ReadBack(labels, energy)[k] == DayEnergy(steps, labels[k], stepHours) {
      assert labels[k] in keys;
    }
  }

  /** `labels.map((label) => map.get(label) ?? 0)`. */
  function ReadBack(labels: seq<string>, energy: map<string, real>): (values: seq<real>)
    ensures |values| == |labels|
    ensures forall k :: 0 <= k < |labels| ==> values[k] == if labels[k] in energy then energy[labels[k]] else 0.0
  {
    seq(|labels|, k requires 0 <= k < |labels| => if labels[k] in energy then energy[labels[k]] else 0.0)
  }

  lemma SortedLabelsAreKeys(keys: seq<string>)
    ensures forall key :: key in SortLabels(keys) <==> key in keys
  {
    forall key ensures key in SortLabels(keys) <==> key in keys {
      assert key in multiset(SortLabels(keys)) <==> key in multiset(keys);
    }
  }
}
