/** What `get_two_closest_columns` promises about the two dates it picks. */
module SelectorProperties {
  import opened Wrappers
  import opened Dates
  import opened Tables
  import opened Utils

  /** `d` is the latest of the column dates `cols` on or before `reference`. */
  ghost predicate IsLatest(cols: seq<Date>, reference: Date, d: Date) {
    && d in cols
    && AtOrBefore(d, reference)
    && forall c :: c in cols && AtOrBefore(c, reference) ==> AtOrBefore(c, d)
  }

  /** `d` is one of the column dates `cols` before `latest` whose distance to
      `target` is least, and the most recent of those. */
  ghost predicate IsNearestEarlier(cols: seq<Date>, latest: Date, target: Date, d: Date) {
    && d in cols
    && Before(d, latest)
    && (forall c :: c in cols && Before(c, latest) ==> Distance(d, target) <= Distance(c, target))
    && (forall c :: c in cols && Before(c, latest) && Distance(c, target) == Distance(d, target) ==>
          AtOrBefore(c, d))
  }

  /** Nothing is picked exactly when the table has no rows or no columns, or
      no column is on or before the reference date; a previous date is never
      picked without a latest one. */
  lemma PicksNothing(df: Frame, reference: Date)
    ensures var r := GetTwoClosestColumns(df, reference);
      && (IsEmpty(df) ==> r == Success(Periods(None, None)))
      && ((r.Success? && r.value.latest.None?) <==>
            IsEmpty(df) || forall d :: d in df.columns ==> !AtOrBefore(d, reference))
      && (r.Success? && r.value.latest.None? ==> r.value.previous.None?)
  {
    if !IsEmpty(df) {
      SameElements(SortDescending(df.columns), df.columns);
    }
  }

  /** The latest date is the greatest column on or before the reference date.
      The selection fails exactly when that column's day does not exist in the
      year before. */
  lemma PicksLatest(df: Frame, reference: Date)
    ensures var r := GetTwoClosestColumns(df, reference);
      && (r.Success? && r.value.latest.Some? ==>
            && IsLatest(df.columns, reference, r.value.latest.value)
            && ReplaceYear(r.value.latest.value, r.value.latest.value.year - 1).Some?)
      && (r.Failure? ==>
            && !IsEmpty(df)
            && IsLatest(df.columns, reference, r.error.latest)
            && ReplaceYear(r.error.latest, r.error.latest.year - 1).None?)
  {
    if !IsEmpty(df) {
      var dates := SortDescending(df.columns);
      var first := FirstAtOrBefore(dates, reference);
      assert GetTwoClosestColumns(df, reference) == PickLatest(dates, first);
      if first.Some? {
        var latest := first.value;
        LatestAmong(df.columns, reference);
        assert IsLatest(df.columns, reference, latest);
        PickLatestFails(dates, latest);
      }
    }
  }

  /** Once `latest` is known, the selection fails exactly when its day does
      not exist a year earlier, and reports `latest` when it does. */
  lemma PickLatestFails(dates: seq<Date>, latest: Date)
    ensures var r := PickLatest(dates, Some(latest));
      && (r.Failure? <==> ReplaceYear(latest, latest.year - 1).None?)
      && (r.Failure? ==> r.error.latest == latest)
      && (r.Success? ==> r.value.latest == Some(latest))
  {
  }

  /** No previous date exactly when no column is earlier than the latest;
      otherwise the previous date is an earlier column nearest to the same day
      one year before the latest, and of two equally near, the more recent. */
  lemma PicksPrevious(df: Frame, reference: Date)
    ensures var r := GetTwoClosestColumns(df, reference);
      && (r.Success? && r.value.latest.Some? ==>
            (r.value.previous.None? <==> forall d :: d in df.columns ==> !Before(d, r.value.latest.value)))
      && (r.Success? && r.value.latest.Some? && r.value.previous.Some? ==>
            var latest := r.value.latest.value;
            var oneYearBack := ReplaceYear(latest, latest.year - 1);
            oneYearBack.Some? && IsNearestEarlier(df.columns, latest, oneYearBack.value, r.value.previous.value))
  {
    if !IsEmpty(df) {
      var dates := SortDescending(df.columns);
      var first := FirstAtOrBefore(dates, reference);
      if first.Some? && ReplaceYear(first.value, first.value.year - 1).Some? {
        var latest := first.value;
        var target := ReplaceYear(latest, latest.year - 1).value;
        PickLatestPicks(dates, latest, target);
        NearestEarlierAmong(df.columns, latest, target);
      }
    }
  }

  /** The greatest column on or before the reference date is the one picked
      as the latest, when its day exists a year earlier. */
  lemma PicksGreatestQualifying(df: Frame, reference: Date, latest: Date)
    requires !IsEmpty(df) && IsLatest(df.columns, reference, latest)
    requires ReplaceYear(latest, latest.year - 1).Some?
    ensures GetTwoClosestColumns(df, reference).Success?
    ensures GetTwoClosestColumns(df, reference).value.latest == Some(latest)
  {
    var dates := SortDescending(df.columns);
    var first := FirstAtOrBefore(dates, reference);
    LatestAmong(df.columns, reference);
    assert first.Some?;
    assert AtOrBefore(latest, first.value) && AtOrBefore(first.value, latest);
    PickLatestFails(dates, latest);
  }

  /** A column exactly one year before the latest is the one picked as the
      previous date. */
  lemma PicksExactYearBack(df: Frame, reference: Date, latest: Date, previous: Date)
    requires !IsEmpty(df) && IsLatest(df.columns, reference, latest)
    requires ReplaceYear(latest, latest.year - 1) == Some(previous)
    requires previous in df.columns
    ensures GetTwoClosestColumns(df, reference) == Success(Periods(Some(latest), Some(previous)))
  {
    PicksGreatestQualifying(df, reference, latest);
    PicksPrevious(df, reference);
    OrdinalOrder(previous, latest);
    var r := GetTwoClosestColumns(df, reference);
    assert Before(previous, latest);
    var p := r.value.previous.value;
    assert Distance(p, previous) <= Distance(previous, previous);
  }

  /** The selection is determined by the two predicates: the latest column
      and the nearest earlier one are the periods returned. */
  lemma PicksNearestEarlier(df: Frame, reference: Date, latest: Date, target: Date, previous: Date)
    requires !IsEmpty(df) && IsLatest(df.columns, reference, latest)
    requires ReplaceYear(latest, latest.year - 1) == Some(target)
    requires IsNearestEarlier(df.columns, latest, target, previous)
    ensures GetTwoClosestColumns(df, reference) == Success(Periods(Some(latest), Some(previous)))
  {
    PicksGreatestQualifying(df, reference, latest);
    var dates := SortDescending(df.columns);
    assert FirstAtOrBefore(dates, reference) == Some(latest);
    NearestEarlierAmong(df.columns, latest, target);
    var picked := Nearest(Earlier(dates, latest), target);
    assert picked.Some?;
    NearestEarlierIsUnique(df.columns, latest, target, picked.value, previous);
    PickLatestPicks(dates, latest, target);
  }

  lemma PickLatestPicks(dates: seq<Date>, latest: Date, target: Date)
    requires ReplaceYear(latest, latest.year - 1) == Some(target)
    ensures PickLatest(dates, Some(latest)) == PickPrevious(dates, latest, Some(target))
  {
  }

  /** At most one column is the nearest earlier one. */
  lemma NearestEarlierIsUnique(cols: seq<Date>, latest: Date, target: Date, p: Date, q: Date)
    requires IsNearestEarlier(cols, latest, target, p) && IsNearestEarlier(cols, latest, target, q)
    ensures p == q
  {
    assert Distance(p, target) == Distance(q, target);
    assert AtOrBefore(p, q) && AtOrBefore(q, p);
  }

  /** Over the column dates sorted most recent first, `next` finds the latest
      one on or before the reference date. */
  lemma LatestAmong(cols: seq<Date>, reference: Date)
    ensures var first := FirstAtOrBefore(SortDescending(cols), reference);
      && (first.None? <==> forall d :: d in cols ==> !AtOrBefore(d, reference))
      && (first.Some? ==> IsLatest(cols, reference, first.value))
  {
    var dates := SortDescending(cols);
    SameElements(dates, cols);
    SortDescendingSorts(cols);
    FirstAtOrBeforeIsGreatest(dates, reference);
  }

  /** Among the column dates before `latest`, sorted most recent first, `min`
      finds the nearest earlier one. */
  lemma NearestEarlierAmong(cols: seq<Date>, latest: Date, target: Date)
    ensures var previous := Nearest(Earlier(SortDescending(cols), latest), target);
      && (previous.None? <==> forall d :: d in cols ==> !Before(d, latest))
      && (previous.Some? ==> IsNearestEarlier(cols, latest, target, previous.value))
  {
    var dates := SortDescending(cols);
    SameElements(dates, cols);
    SortDescendingSorts(cols);
    var candidates := Earlier(dates, latest);
    EarlierMembers(dates, latest);
    EarlierDescending(dates, latest);
    NearestIsNearest(candidates, target);
    NearestPrefersRecent(candidates, target);
    var previous := Nearest(candidates, target);
    if previous.None? {
      assert candidates == [];
    }
  }

  lemma SameElements(a: seq<Date>, b: seq<Date>)
    requires multiset(a) == multiset(b)
    ensures forall d :: d in a <==> d in b
  {
    forall d ensures d in a <==> d in b {
      assert d in a <==> d in multiset(a);
      assert d in b <==> d in multiset(b);
    }
  }
}

module SelectorExamples {
  import opened Wrappers
  import opened Dates
  import opened Tables
  import opened Utils
  import opened SelectorProperties

  /** Three year-ends: the one before the reference date, and the one a year
      earlier. */
  lemma PicksYearApart(df: Frame)
    requires df.index != {}
    requires df.columns == [CivilDate(2021, 6, 30), CivilDate(2022, 6, 30), CivilDate(2023, 6, 30)]
    ensures GetTwoClosestColumns(df, CivilDate(2023, 7, 1))
         == Success(Periods(Some(CivilDate(2023, 6, 30)), Some(CivilDate(2022, 6, 30))))
  {
    var reference := CivilDate(2023, 7, 1);
    PicksExactYearBack(df, reference, CivilDate(2023, 6, 30), CivilDate(2022, 6, 30));
  }

  /** A table with a single reporting date on or before the reference date
      has no previous date to offer. */
  lemma PicksOnlyColumn(df: Frame, reference: Date, d: Date)
    requires df.index != {} && df.columns == [d] && AtOrBefore(d, reference)
    requires ReplaceYear(d, d.year - 1).Some?
    ensures GetTwoClosestColumns(df, reference) == Success(Periods(Some(d), None))
  {
    PicksGreatestQualifying(df, reference, d);
    PicksPrevious(df, reference);
  }

  /** Distance decides, not recency: against 2021-12-31, the column dated
      2022-01-01 is nearer than 2022-06-30. */
  lemma PicksNearestNotMostRecent(df: Frame)
    requires df.index != {}
    requires df.columns == [CivilDate(2022, 1, 1), CivilDate(2022, 6, 30), CivilDate(2022, 12, 31)]
    ensures GetTwoClosestColumns(df, CivilDate(2022, 12, 31))
         == Success(Periods(Some(CivilDate(2022, 12, 31)), Some(CivilDate(2022, 1, 1))))
  {
    var jan1, jun30, dec31 := CivilDate(2022, 1, 1), CivilDate(2022, 6, 30), CivilDate(2022, 12, 31);
    var target := CivilDate(2021, 12, 31);
    assert forall c :: c in df.columns ==> c == jan1 || c == jun30 || c == dec31;
    assert IsLatest(df.columns, dec31, dec31);
    assert IsNearestEarlier(df.columns, dec31, target, jan1);
    PicksNearestEarlier(df, dec31, dec31, target, jan1);
  }

  /** Two columns one day either side of the target: the more recent wins. */
  lemma PicksMoreRecentOnTie(df: Frame)
    requires df.index != {}
    requires df.columns == [CivilDate(2022, 6, 29), CivilDate(2022, 7, 1), CivilDate(2023, 6, 30)]
    ensures GetTwoClosestColumns(df, CivilDate(2023, 6, 30))
         == Success(Periods(Some(CivilDate(2023, 6, 30)), Some(CivilDate(2022, 7, 1))))
  {
    var jun29, jul1, latest := CivilDate(2022, 6, 29), CivilDate(2022, 7, 1), CivilDate(2023, 6, 30);
    var target := CivilDate(2022, 6, 30);
    assert forall c :: c in df.columns ==> c == jun29 || c == jul1 || c == latest;
    assert IsLatest(df.columns, latest, latest);
    assert IsNearestEarlier(df.columns, latest, target, jul1);
    PicksNearestEarlier(df, latest, latest, target, jul1);
  }

  /** A February 29 whose previous year has none makes the selection fail. */
  lemma FailsOnLeapDay(df: Frame)
    requires df.index != {}
    requires df.columns == [CivilDate(2024, 2, 29)]
    ensures GetTwoClosestColumns(df, CivilDate(2024, 3, 1)) == Failure(NoSuchDayInPriorYear(CivilDate(2024, 2, 29)))
  {
    var d := CivilDate(2024, 2, 29);
    PicksNothing(df, CivilDate(2024, 3, 1));
    PicksLatest(df, CivilDate(2024, 3, 1));
    assert AtOrBefore(d, CivilDate(2024, 3, 1));
  }
}
