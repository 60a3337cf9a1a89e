/** The period selector: which two reporting columns of a statement table to
    compare, given a reference date. */
module Utils {
  import opened Wrappers
  import opened Dates
  import opened Tables

  /** The two reporting dates picked: the latest on or before the reference
      date, and the one about a year before it. */
  datatype Periods = Periods(latest: Option<Date>, previous: Option<Date>)

  /** `latest.replace(year=latest.year - 1)` raised `ValueError` for `latest`. */
  datatype SelectionError = NoSuchDayInPriorYear(latest: Date)

  /** Most recent first. */
  predicate Descending(s: seq<Date>) {
    forall i, j :: 0 <= i < j < |s| ==> AtOrBefore(s[j], s[i])
  }

  /** A date no earlier than every element of a descending sequence can
      head it. */
  lemma DescendingCons(x: Date, s: seq<Date>)
    requires Descending(s)
    requires forall y :: y in s ==> AtOrBefore(y, x)
    ensures Descending([x] + s)
  {
    forall i, j | 0 <= i < j < |[x] + s|
      ensures AtOrBefore(([x] + s)[j], ([x] + s)[i])
    {
      assert ([x] + s)[j] == s[j - 1];
      if i > 0 {
        assert ([x] + s)[i] == s[i - 1];
      }
    }
  }

  lemma DescendingTail(s: seq<Date>)
    requires Descending(s) && s != []
    ensures Descending(s[1..])
    ensures forall y :: y in s[1..] ==> AtOrBefore(y, s[0])
  {
    forall y | y in s[1..] ensures AtOrBefore(y, s[0]) {
      var k :| 0 <= k < |s[1..]| && s[1..][k] == y;
      assert s[k + 1] == y;
    }
  }

  lemma DescendingPrepend(x: Date, s: seq<Date>)
    requires Descending(s) && (s == [] || AtOrBefore(s[0], x))
    ensures Descending([x] + s)
  {
    if s != [] {
      DescendingTail(s);
    }
    DescendingCons(x, s);
  }

  /** `d` placed before the first element no later than it. */
  function Insert(d: Date, s: seq<Date>): (r: seq<Date>)
    ensures multiset(r) == multiset(s) + multiset{d}
  {
    if s == [] || AtOrBefore(s[0], d) then [d] + s
    else
      assert s == [s[0]] + s[1..];
      [s[0]] + Insert(d, s[1..])
  }

  lemma {:induction false} InsertKeepsDescending(d: Date, s: seq<Date>)
    requires Descending(s)
    ensures Descending(Insert(d, s))
  {
    if s == [] || AtOrBefore(s[0], d) {
      DescendingPrepend(d, s);
    } else {
      DescendingTail(s);
      InsertKeepsDescending(d, s[1..]);
      InsertBelowHead(d, s, Insert(d, s[1..]));
    }
  }

  lemma InsertBelowHead(d: Date, s: seq<Date>, rest: seq<Date>)
    requires Descending(s) && s != [] && !AtOrBefore(s[0], d)
    requires Descending(rest) && multiset(rest) == multiset(s[1..]) + multiset{d}
    ensures Descending([s[0]] + rest)
    ensures multiset([s[0]] + rest) == multiset(s) + multiset{d}
  {
    DescendingTail(s);
    forall y | y in rest ensures AtOrBefore(y, s[0]) {
      assert y in multiset(rest);
      if y != d {
        assert y in multiset(s[1..]);
      }
    }
    DescendingCons(s[0], rest);
    assert s == [s[0]] + s[1..];
  }

  /** `sorted(dates, reverse=True)`: the same dates. */
  function SortDescending(s: seq<Date>): (r: seq<Date>)
    ensures multiset(r) == multiset(s)
  {
    if s == [] then []
    else
      assert s == [s[0]] + s[1..];
      Insert(s[0], SortDescending(s[1..]))
  }

  /** `sorted(dates, reverse=True)`: most recent first. */
  lemma {:induction false} SortDescendingSorts(s: seq<Date>)
    ensures Descending(SortDescending(s))
  {
    if s != [] {
      SortDescendingSorts(s[1..]);
      InsertKeepsDescending(s[0], SortDescending(s[1..]));
    }
  }

  /** `next((d for d in dates if d <= reference), None)`: over dates sorted
      most recent first, the latest one on or before `reference`. */
  function FirstAtOrBefore(dates: seq<Date>, reference: Date): (r: Option<Date>)
    ensures r.None? <==> forall d :: d in dates ==> !AtOrBefore(d, reference)
    ensures r.Some? ==> r.value in dates && AtOrBefore(r.value, reference)
  {
    if dates == [] then None
    else if AtOrBefore(dates[0], reference) then Some(dates[0])
    else FirstAtOrBefore(dates[1..], reference)
  }

  /** Over dates sorted most recent first, the first one on or before
      `reference` is the greatest such. */
  lemma {:induction false} FirstAtOrBeforeIsGreatest(dates: seq<Date>, reference: Date)
    requires Descending(dates)
    ensures var r := FirstAtOrBefore(dates, reference);
      r.Some? ==> forall d :: d in dates && AtOrBefore(d, reference) ==> AtOrBefore(d, r.value)
  {
    if dates != [] {
      DescendingTail(dates);
      if !AtOrBefore(dates[0], reference) {
        FirstAtOrBeforeIsGreatest(dates[1..], reference);
        assert dates == [dates[0]] + dates[1..];
      }
    }
  }

  /** `(d for d in dates if d < latest)`, in the order of `dates`. */
  function Earlier(dates: seq<Date>, latest: Date): seq<Date> {
    if dates == [] then []
    else if Before(dates[0], latest) then [dates[0]] + Earlier(dates[1..], latest)
    else Earlier(dates[1..], latest)
  }

  /** The filter keeps exactly the dates before `latest`. */
  lemma {:induction false} EarlierMembers(dates: seq<Date>, latest: Date)
    ensures forall d :: d in Earlier(dates, latest) <==> d in dates && Before(d, latest)
  {
    if dates != [] {
      EarlierMembers(dates[1..], latest);
      assert dates == [dates[0]] + dates[1..];
    }
  }

  /** Filtering keeps the order. */
  lemma {:induction false} EarlierDescending(dates: seq<Date>, latest: Date)
    requires Descending(dates)
    ensures Descending(Earlier(dates, latest))
  {
    if dates != [] {
      DescendingTail(dates);
      EarlierDescending(dates[1..], latest);
      if Before(dates[0], latest) {
        EarlierMembers(dates[1..], latest);
        DescendingCons(dates[0], Earlier(dates[1..], latest));
      }
    }
  }

  /** `abs((d - target).days)`. */
  function Distance(d: Date, target: Date): nat {
    var n := DaysBetween(d, target);
    if n < 0 then -n else n
  }

  /** The loop of `min(candidates, key=...)` after it has kept `best`: a later
      candidate replaces `best` only when it is strictly nearer. */
  function NearestFrom(candidates: seq<Date>, target: Date, best: Date): (r: Date)
    ensures r == best || r in candidates
    decreases |candidates|
  {
    if candidates == [] then best
    else
      var next := if Distance(candidates[0], target) < Distance(best, target) then candidates[0] else best;
      NearestFrom(candidates[1..], target, next)
  }

  /** No candidate, and not `best` either, is nearer than the one kept. */
  lemma {:induction false} NearestFromIsNearest(candidates: seq<Date>, target: Date, best: Date)
    ensures var r := NearestFrom(candidates, target, best);
      && Distance(r, target) <= Distance(best, target)
      && forall c :: c in candidates ==> Distance(r, target) <= Distance(c, target)
    decreases |candidates|
  {
    if candidates != [] {
      var next := if Distance(candidates[0], target) < Distance(best, target) then candidates[0] else best;
      NearestFromIsNearest(candidates[1..], target, next);
      assert candidates == [candidates[0]] + candidates[1..];
    }
  }

  /** Of several equally near candidates the first one met stays, which in a
      descending sequence is the most recent. */
  lemma {:induction false} NearestFromPrefersRecent(candidates: seq<Date>, target: Date, best: Date)
    requires Descending([best] + candidates)
    ensures var r := NearestFrom(candidates, target, best);
      forall c :: (c == best || c in candidates) && Distance(c, target) == Distance(r, target) ==> AtOrBefore(c, r)
    decreases |candidates|
  {
    if candidates != [] {
      var next := if Distance(candidates[0], target) < Distance(best, target) then candidates[0] else best;
      DescendingTail([best] + candidates);
      assert ([best] + candidates)[1..] == candidates;
      DescendingTail(candidates);
      if next == best {
        DescendingCons(best, candidates[1..]);
      } else {
        assert candidates == [candidates[0]] + candidates[1..];
      }
      NearestFromIsNearest(candidates[1..], target, next);
      NearestFromPrefersRecent(candidates[1..], target, next);
    }
  }

  /** `min(candidates, key=lambda d: abs((d - target).days), default=None)`. */
  function Nearest(candidates: seq<Date>, target: Date): (r: Option<Date>)
    ensures r.None? <==> candidates == []
    ensures r.Some? ==> r.value in candidates
  {
    if candidates == [] then None
    else Some(NearestFrom(candidates[1..], target, candidates[0]))
  }

  /** No candidate is nearer than the one `min` returns. */
  lemma NearestIsNearest(candidates: seq<Date>, target: Date)
    ensures var r := Nearest(candidates, target);
      r.Some? ==> forall c :: c in candidates ==> Distance(r.value, target) <= Distance(c, target)
  {
    if candidates != [] {
      assert candidates == [candidates[0]] + candidates[1..];
      NearestFromIsNearest(candidates[1..], target, candidates[0]);
    }
  }

  lemma NearestPrefersRecent(candidates: seq<Date>, target: Date)
    requires Descending(candidates)
    ensures var r := Nearest(candidates, target);
      r.Some? ==> forall c :: c in candidates && Distance(c, target) == Distance(r.value, target) ==> AtOrBefore(c, r.value)
  {
    if candidates != [] {
      assert candidates == [candidates[0]] + candidates[1..];
      NearestFromPrefersRecent(candidates[1..], target, candidates[0]);
    }
  }

  /** `get_two_closest_columns(df, reference_date)`. */
  function GetTwoClosestColumns(df: Frame, reference: Date): Result<Periods, SelectionError> {
    if IsEmpty(df) then Success(Periods(None, None))
    else
      var dates := SortDescending(df.columns);
      PickLatest(dates, FirstAtOrBefore(dates, reference))
  }

  /** The rest of `get_two_closest_columns` once `latest` is known (`None` when
      no column is on or before the reference date). */
  function PickLatest(dates: seq<Date>, latest: Option<Date>): Result<Periods, SelectionError> {
    match latest
    case None => Success(Periods(None, None))
    case Some(l) => PickPrevious(dates, l, ReplaceYear(l, l.year - 1))
  }

  /** The rest once `latest.replace(year=latest.year - 1)` is known (`None`
      where that raises). */
  function PickPrevious(dates: seq<Date>, latest: Date, oneYearBack: Option<Date>): Result<Periods, SelectionError> {
    match oneYearBack
    case None => Failure(NoSuchDayInPriorYear(latest))
    case Some(target) => Success(Periods(Some(latest), Nearest(Earlier(dates, latest), target)))
  }
}
