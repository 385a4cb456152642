/**
 * The Opening Range study: for every trading day it records the high and low of the
 * opening-period bar that starts at or after the day's start, keyed by that start, and
 * publishes the high and low of the latest day.
 *
 * The day series is given by the start times of its bars and the opening series by its
 * bars; the instrument's start-of-day and end-of-day rules are passed in as functions.
 * The host's figure list is modelled as a sequence that `addFigure` appends to and
 * `clearFigures` empties.
 */
module OpeningRangeStudy {
  import opened Options

  /** One bar of the opening-period series. */
  datatype Bar = Bar(start: int, high: int, low: int)

  /** The fields of one day's range figure: the day key, the day's end, the range and the extend flag. */
  datatype Range = Range(start: int, end: int, high: int, low: int, extendLines: bool)

  /** The two values published on the chart's series: OPEN_HIGH and OPEN_LOW. */
  datatype Quote = Quote(openHigh: int, openLow: int)

  /** The state of the day loop: the range map, the figure list and the opening-series cursor j. */
  datatype ScanState = ScanState(ranges: map<int, Range>, figures: seq<Range>, cursor: nat)

  /** Index of the first day bar the loop visits. */
  function FirstDay(showAll: bool, dayCount: nat): int
  {
    if showAll then 1 else dayCount - 1
  }

  /**
   * The day keys of the day bars from index `from` on. A definition; its ensures only
   * spell the comprehension out for the proofs that index it.
   */
  function DayKeys(days: seq<int>, startOfDay: int -> int, from: nat): (keys: seq<int>)
    ensures |keys| == if from < |days| then |days| - from else 0
    ensures forall k :: 0 <= k < |keys| ==> keys[k] == startOfDay(days[from + k])
  {
    if from < |days| then seq(|days| - from, k requires 0 <= k < |days| - from => startOfDay(days[from + k]))
    else []
  }

  /** The days the loop visits from index `from` on, as a set; from the last index that is the last day alone. */
  lemma DayKeySet(days: seq<int>, startOfDay: int -> int, from: nat)
    ensures (set k | k in DayKeys(days, startOfDay, from)) == set i | from <= i < |days| :: startOfDay(days[i])
    ensures from == |days| - 1 ==> (set k | k in DayKeys(days, startOfDay, from)) == {startOfDay(days[from])}
  {
    var keys := DayKeys(days, startOfDay, from);
    forall i | from <= i < |days| ensures startOfDay(days[i]) in keys {
      assert keys[i - from] == startOfDay(days[i]);
    }
  }

  /** The state the day loop starts from: with show-all off the map and the figures are cleared. */
  function StartState(showAll: bool, ranges: map<int, Range>, figures: seq<Range>): ScanState
  {
    if showAll then ScanState(ranges, figures, 1) else ScanState(map[], [], 1)
  }

  /**
   * The cursor scan: from index j, the index of the first opening bar that starts at or
   * after `key`, or None when the scan reads past the end of the opening series.
   */
  function Advance(open: seq<Bar>, j: nat, key: int): (r: Option<nat>)
    ensures r.Some? ==> j <= r.value < |open| && open[r.value].start >= key
    ensures r.Some? ==> forall i :: j <= i < r.value ==> open[i].start < key
    ensures r.None? <==> forall i :: j <= i < |open| ==> open[i].start < key
    decreases |open| - j
  {
    if j >= |open| then None
    else if open[j].start < key then Advance(open, j + 1, key)
    else Some(j)
  }

  /** The record built for a new day from its opening bar. */
  function NewRange(key: int, endOfDay: int -> int, bar: Bar): Range
  {
    Range(key, endOfDay(key), bar.high, bar.low, false)
  }

  /** One pass of the day loop for the day `key`; None when the cursor scan runs off the series. */
  function Step(s: ScanState, key: int, open: seq<Bar>, endOfDay: int -> int): Option<ScanState>
  {
    if key in s.ranges then Some(s)
    else
      match Advance(open, s.cursor, key)
      case None => None
      case Some(k) =>
        var r := NewRange(key, endOfDay, open[k]);
        Some(ScanState(s.ranges[key := r], s.figures + [r], k))
  }

  /** The whole day loop over `keys`, in order. */
  function Scan(s: ScanState, keys: seq<int>, open: seq<Bar>, endOfDay: int -> int): Option<ScanState>
    decreases |keys|
  {
    if keys == [] then Some(s)
    else
      match Step(s, keys[0], open, endOfDay)
      case None => None
      case Some(next) => Scan(next, keys[1..], open, endOfDay)
  }

  /** Every record is stored under its own start and has extend-lines off. */
  predicate KeyedByStart(m: map<int, Range>)
  {
    forall k :: k in m ==> m[k].start == k && !m[k].extendLines
  }

  /** `r` is a record of `m` and no record of `m` starts later. */
  ghost predicate IsLatest(r: Range, m: map<int, Range>)
  {
    (exists k :: k in m && m[k] == r) && forall k :: k in m ==> m[k].start <= r.start
  }

  /** `r` is the record of day `key`, built from an opening bar with index in [lo, hi] that starts at or after the key. */
  predicate IsOpeningRange(r: Range, key: int, endOfDay: int -> int, open: seq<Bar>, lo: nat, hi: nat)
  {
    exists idx :: lo <= idx <= hi && idx < |open| && open[idx].start >= key && r == NewRange(key, endOfDay, open[idx])
  }

  /** Every opening bar from index 1 up to the cursor starts before `key`. */
  predicate Behind(open: seq<Bar>, cursor: nat, key: int)
  {
    forall i :: 1 <= i < cursor && i < |open| ==> open[i].start < key
  }

  predicate NonDecreasing(keys: seq<int>)
  {
    forall a, b :: 0 <= a < b < |keys| ==> keys[a] <= keys[b]
  }

  /**
   * The latest-record search: visits the records in an unspecified order and keeps the
   * first one seen with the largest start.
   */
  method SelectLatest(m: map<int, Range>) returns (area: Option<Range>)
    ensures area.None? <==> m == map[]
    ensures area.Some? ==> IsLatest(area.value, m)
  {
    area := None;
    ghost var seen: int := 0;
    var rest := m.Keys;
    while rest != {}
      invariant rest <= m.Keys
      invariant area.None? <==> rest == m.Keys
      invariant area.Some? ==> seen in m && m[seen] == area.value
      invariant area.Some? ==> forall k :: k in m.Keys - rest ==> m[k].start <= area.value.start
      decreases rest
    {
      assert exists x :: x in rest by {
        if forall x :: x !in rest {
          assert false;
        }
      }
      var k :| k in rest;
      var v := m[k];
      if area.None? {
        area, seen := Some(v), k;
      } else {
        if v.start > area.value.start {
          area, seen := Some(v), k;
        }
      }
      rest := rest - {k};
    }
    assert m == map[] <==> m.Keys == {};
  }

  /**
   * The inner loop of the day loop: moves the cursor j forward to the first opening bar
   * that starts at or after `time`. Every bar it reads must exist.
   */
  method AdvanceCursor(open: seq<Bar>, j: nat, time: int) returns (k: nat)
    requires Advance(open, j, time).Some?
    ensures Advance(open, j, time) == Some(k)
  {
    k := j;
    var innerTime := open[k].start;
    while innerTime < time && k < |open|
      invariant k < |open| && innerTime == open[k].start
      invariant Advance(open, k, time) == Advance(open, j, time)
      decreases |open| - k
    {
      k := k + 1;
      innerTime := open[k].start;
    }
  }

  /**
   * The body of the day loop: from index `first` of the day bars, with the cursor j
   * starting at 1, records each day whose key is not in `ranges` yet and appends its
   * record to `figures`.
   */
  method DayLoop(ranges0: map<int, Range>, figures0: seq<Range>, days: seq<int>, first: nat, open: seq<Bar>,
                 startOfDay: int -> int, endOfDay: int -> int)
    returns (ranges: map<int, Range>, figs: seq<Range>)
    requires Scan(ScanState(ranges0, figures0, 1), DayKeys(days, startOfDay, first), open, endOfDay).Some?
    ensures var t := Scan(ScanState(ranges0, figures0, 1), DayKeys(days, startOfDay, first), open, endOfDay).value;
            ranges == t.ranges && figs == t.figures
  {
    ranges, figs := ranges0, figures0;
    var j: nat := 1;
    ghost var keys := DayKeys(days, startOfDay, first);
    ghost var init := ScanState(ranges, figs, 1);
    var i := first;
    while i < |days|
      invariant first <= i && i - first <= |keys|
      invariant i - first < |keys| <==> i < |days|
      invariant Scan(ScanState(ranges, figs, j), keys[i - first..], open, endOfDay) == Scan(init, keys, open, endOfDay)
    {
      var time := startOfDay(days[i]);
      ghost var rest := keys[i - first..];
      ghost var before := ScanState(ranges, figs, j);
      assert rest[0] == time && rest[1..] == keys[i + 1 - first..];
      if time !in ranges {
        assert Advance(open, j, time).Some?;
        j := AdvanceCursor(open, j, time);
        var area := Range(time, endOfDay(time), open[j].high, open[j].low, false);
        ranges := ranges[time := area];
        figs := figs + [area];
      }
      assert Step(before, time, open, endOfDay) == Some(ScanState(ranges, figs, j));
      i := i + 1;
    }
    assert keys[i - first..] == [];
  }

  class OpeningRange {
    var openRangeSets: map<int, Range>
    var figures: seq<Range>

    ghost predicate Valid()
      reads this
    {
      KeyedByStart(openRangeSets)
    }

    constructor ()
      ensures Valid() && openRangeSets == map[] && figures == []
    {
      openRangeSets := map[];
      figures := [];
    }

    /** Discards every recorded range and, through the host's own reset, every figure. */
    method ClearState()
      requires Valid()
      modifies this
      ensures Valid()
      ensures openRangeSets == map[] && figures == []
    {
      figures := [];
      openRangeSets := map[];
    }

    /**
     * The day loop over the study's own map and figure list: visits the day bars from
     * index `first` on with the cursor j starting at 1, and records each day whose key is
     * not yet in the map.
     */
    method RecordDays(days: seq<int>, first: nat, open: seq<Bar>, startOfDay: int -> int, endOfDay: int -> int)
      requires Scan(ScanState(openRangeSets, figures, 1), DayKeys(days, startOfDay, first), open, endOfDay).Some?
      modifies this
      ensures var t := Scan(ScanState(old(openRangeSets), old(figures), 1),
                            DayKeys(days, startOfDay, first), open, endOfDay).value;
              openRangeSets == t.ranges && figures == t.figures
    {
      openRangeSets, figures := DayLoop(openRangeSets, figures, days, first, open, startOfDay, endOfDay);
    }

    /**
     * Records the opening range of every day not yet recorded (all days but the first
     * with show-all on, only the last day with show-all off) and returns the high and low
     * of the latest record, or None when there is none. The caller must supply an opening
     * bar at or after every day the loop has to record.
     */
    method CalculateValues(days: seq<int>, open: seq<Bar>, showAll: bool,
                           startOfDay: int -> int, endOfDay: int -> int)
      returns (published: Option<Quote>)
      requires Valid()
      requires showAll || |days| > 0
      requires Scan(StartState(showAll, openRangeSets, figures),
                    DayKeys(days, startOfDay, FirstDay(showAll, |days|)), open, endOfDay).Some?
      modifies this
      ensures Valid()
      ensures var t := Scan(StartState(showAll, old(openRangeSets), old(figures)),
                            DayKeys(days, startOfDay, FirstDay(showAll, |days|)), open, endOfDay).value;
              openRangeSets == t.ranges && figures == t.figures
      ensures published.None? <==> openRangeSets == map[]
      ensures forall r :: IsLatest(r, openRangeSets) ==> published == Some(Quote(r.high, r.low))
    {
      var first := if showAll then 1 else |days| - 1;
      if !showAll {
        openRangeSets := map[];
        figures := [];
      }
      RecordDays(days, first, open, startOfDay, endOfDay);
      ScanRecords(StartState(showAll, old(openRangeSets), old(figures)), DayKeys(days, startOfDay, first), open, endOfDay);

      var latest := SelectLatest(openRangeSets);
      LatestIsUnique(openRangeSets);
      if latest.None? {
        return None;
      }
      published := Some(Quote(latest.value.high, latest.value.low));
    }
  }

  /**
   * With show-all on the loop records every day but the first (index 0) on top of what
   * was there; with show-all off it starts from nothing and records the last day alone.
   */
  lemma CalculationRecordsDays(showAll: bool, ranges: map<int, Range>, figures: seq<Range>,
                               days: seq<int>, startOfDay: int -> int, open: seq<Bar>, endOfDay: int -> int)
    requires showAll || |days| > 0
    requires Scan(StartState(showAll, ranges, figures), DayKeys(days, startOfDay, FirstDay(showAll, |days|)), open, endOfDay).Some?
    ensures var t := Scan(StartState(showAll, ranges, figures),
                          DayKeys(days, startOfDay, FirstDay(showAll, |days|)), open, endOfDay).value;
            && (showAll ==> t.ranges.Keys == ranges.Keys + (set i | 1 <= i < |days| :: startOfDay(days[i])))
            && (!showAll ==> t.ranges.Keys == {startOfDay(days[|days| - 1])})
  {
    ScanRecords(StartState(showAll, ranges, figures), DayKeys(days, startOfDay, FirstDay(showAll, |days|)), open, endOfDay);
    DayKeySet(days, startOfDay, FirstDay(showAll, |days|));
  }

  /**
   * The day loop keeps every record it finds, records every day it visits and nothing
   * else, and builds each new record from an opening bar between the cursor it started
   * from and the cursor it ends with; the cursor never moves back.
   */
  lemma {:induction false} ScanRecords(s: ScanState, keys: seq<int>, open: seq<Bar>, endOfDay: int -> int)
    requires Scan(s, keys, open, endOfDay).Some?
    ensures var t := Scan(s, keys, open, endOfDay).value;
            && s.cursor <= t.cursor
            && t.ranges.Keys == s.ranges.Keys + (set k | k in keys)
            && (forall k :: k in s.ranges ==> k in t.ranges && t.ranges[k] == s.ranges[k])
            && (forall k :: k in t.ranges && k !in s.ranges ==>
                  IsOpeningRange(t.ranges[k], k, endOfDay, open, s.cursor, t.cursor))
            && (KeyedByStart(s.ranges) ==> KeyedByStart(t.ranges))
    decreases |keys|
  {
    if keys != [] {
      var n := Step(s, keys[0], open, endOfDay).value;
      ScanRecords(n, keys[1..], open, endOfDay);
      var t := Scan(s, keys, open, endOfDay).value;
      assert t == Scan(n, keys[1..], open, endOfDay).value;
      assert (set k | k in keys) == {keys[0]} + set k | k in keys[1..];
      if keys[0] !in s.ranges {
        var idx := Advance(open, s.cursor, keys[0]).value;
        assert n.cursor == idx;
        assert IsOpeningRange(n.ranges[keys[0]], keys[0], endOfDay, open, s.cursor, t.cursor);
      }
    }
  }

  /** Records are keyed by their start, so at most one record is the latest. */
  lemma LatestIsUnique(m: map<int, Range>)
    requires KeyedByStart(m)
    ensures forall r1, r2 :: IsLatest(r1, m) && IsLatest(r2, m) ==> r1 == r2
  {
    forall r1, r2 | IsLatest(r1, m) && IsLatest(r2, m)
      ensures r1 == r2
    {
      var k1 :| k1 in m && m[k1] == r1;
      var k2 :| k2 in m && m[k2] == r2;
      assert m[k1].start <= m[k2].start <= m[k1].start;
    }
  }

  /** A loop over days that are all recorded changes nothing. */
  lemma {:induction false} ScanOverRecordedDays(s: ScanState, keys: seq<int>, open: seq<Bar>, endOfDay: int -> int)
    requires forall i :: 0 <= i < |keys| ==> keys[i] in s.ranges
    ensures Scan(s, keys, open, endOfDay) == Some(s)
  {
    if keys != [] {
      ScanOverRecordedDays(s, keys[1..], open, endOfDay);
    }
  }

  /**
   * Running the day loop again over the same days, with the cursor reset, leaves the
   * records, the figures and the cursor as they are: a repeated calculation is idempotent.
   */
  lemma RecalculateIsIdempotent(s: ScanState, keys: seq<int>, open: seq<Bar>, endOfDay: int -> int, cursor: nat)
    requires Scan(s, keys, open, endOfDay).Some?
    ensures var t := Scan(s, keys, open, endOfDay).value;
            Scan(ScanState(t.ranges, t.figures, cursor), keys, open, endOfDay)
              == Some(ScanState(t.ranges, t.figures, cursor))
  {
    ScanRecords(s, keys, open, endOfDay);
    var t := Scan(s, keys, open, endOfDay).value;
    ScanOverRecordedDays(ScanState(t.ranges, t.figures, cursor), keys, open, endOfDay);
  }

  /**
   * The day loop only appends figures, and every figure it appends is the record of a
   * day that was not recorded before.
   */
  lemma {:induction false} ScanAppendsNewRecords(s: ScanState, keys: seq<int>, open: seq<Bar>, endOfDay: int -> int)
    requires Scan(s, keys, open, endOfDay).Some?
    ensures var t := Scan(s, keys, open, endOfDay).value;
            && |s.figures| <= |t.figures| && t.figures[..|s.figures|] == s.figures
            && (forall n :: |s.figures| <= n < |t.figures| ==>
                  t.figures[n].start !in s.ranges && t.figures[n].start in t.ranges &&
                  t.ranges[t.figures[n].start] == t.figures[n])
    decreases |keys|
  {
    if keys != [] {
      var n := Step(s, keys[0], open, endOfDay).value;
      ScanAppendsNewRecords(n, keys[1..], open, endOfDay);
      var t := Scan(s, keys, open, endOfDay).value;
      assert t == Scan(n, keys[1..], open, endOfDay).value;
      if keys[0] !in s.ranges {
        ScanRecords(n, keys[1..], open, endOfDay);
        var key := keys[0];
        assert n.figures == s.figures + [n.ranges[key]];
        assert t.figures[..|n.figures|] == n.figures;
        forall m | |s.figures| <= m < |t.figures|
          ensures t.figures[m].start !in s.ranges && t.figures[m].start in t.ranges
          ensures t.ranges[t.figures[m].start] == t.figures[m]
        {
          if m == |s.figures| {
            assert t.figures[m] == n.ranges[key];
          }
        }
      }
    }
  }

  /**
   * The day loop appends one figure per newly recorded day: no day gets two figures and
   * every new day gets one.
   */
  lemma {:induction false} ScanAddsOneFigurePerDay(s: ScanState, keys: seq<int>, open: seq<Bar>, endOfDay: int -> int)
    requires Scan(s, keys, open, endOfDay).Some?
    ensures var t := Scan(s, keys, open, endOfDay).value;
            && |s.figures| <= |t.figures|
            && (forall a, b :: |s.figures| <= a < b < |t.figures| ==> t.figures[a].start != t.figures[b].start)
            && (forall k :: k in t.ranges && k !in s.ranges ==>
                  exists n :: |s.figures| <= n < |t.figures| && t.figures[n].start == k)
    decreases |keys|
  {
    if keys != [] {
      var n := Step(s, keys[0], open, endOfDay).value;
      ScanAddsOneFigurePerDay(n, keys[1..], open, endOfDay);
      ScanAppendsNewRecords(n, keys[1..], open, endOfDay);
      ScanRecords(n, keys[1..], open, endOfDay);
      var t := Scan(s, keys, open, endOfDay).value;
      assert t == Scan(n, keys[1..], open, endOfDay).value;
      if keys[0] !in s.ranges {
        var key := keys[0];
        assert n.figures == s.figures + [n.ranges[key]];
        assert t.figures[..|n.figures|] == n.figures;
        assert t.figures[|s.figures|].start == key;
        forall a, b | |s.figures| <= a < b < |t.figures|
          ensures t.figures[a].start != t.figures[b].start
        {
          if a == |s.figures| {
            assert t.figures[b].start !in n.ranges;
          }
        }
      }
    }
  }

  /** Starting later on the opening series finds the same bar when the skipped bars all start before the key. */
  lemma {:induction false} AdvanceSkipsEarlyBars(open: seq<Bar>, a: nat, b: nat, key: int)
    requires a <= b
    requires forall i :: a <= i < b && i < |open| ==> open[i].start < key
    ensures Advance(open, a, key) == Advance(open, b, key)
    decreases b - a
  {
    if a < b && a < |open| {
      AdvanceSkipsEarlyBars(open, a + 1, b, key);
    }
  }

  /**
   * With the days in order and the cursor behind the first of them, the record the loop
   * builds for the last day is the one a loop over that day alone, from nothing, builds.
   */
  lemma {:induction false} LastDayMatchesFreshScan(s: ScanState, keys: seq<int>, open: seq<Bar>, endOfDay: int -> int)
    requires |keys| > 0 && NonDecreasing(keys)
    requires 1 <= s.cursor && Behind(open, s.cursor, keys[0])
    requires keys[|keys| - 1] !in s.ranges
    requires Scan(s, keys, open, endOfDay).Some?
    ensures var last := keys[|keys| - 1];
            var alone := Scan(ScanState(map[], [], 1), [last], open, endOfDay);
            && alone.Some? && last in alone.value.ranges
            && last in Scan(s, keys, open, endOfDay).value.ranges
            && Scan(s, keys, open, endOfDay).value.ranges[last] == alone.value.ranges[last]
    decreases |keys|
  {
    var last := keys[|keys| - 1];
    var n := Step(s, keys[0], open, endOfDay).value;
    var t := Scan(s, keys, open, endOfDay).value;
    assert t == Scan(n, keys[1..], open, endOfDay).value;
    if keys[0] == last {
      ScanRecords(n, keys[1..], open, endOfDay);
      AdvanceSkipsEarlyBars(open, 1, s.cursor, last);
      var alone := ScanState(map[], [], 1);
      assert Scan(Step(alone, last, open, endOfDay).value, [], open, endOfDay) == Step(alone, last, open, endOfDay);
    } else {
      assert |keys| > 1;
      assert keys[1..][|keys[1..]| - 1] == last;
      if keys[0] !in s.ranges {
        var idx := Advance(open, s.cursor, keys[0]).value;
        assert n.cursor == idx;
      }
      assert Behind(open, n.cursor, keys[1]);
      LastDayMatchesFreshScan(n, keys[1..], open, endOfDay);
    }
  }

  /**
   * After a reset, the show-all calculation and the current-day-only calculation agree
   * on the record of the last day, provided the day keys come in order.
   */
  lemma ShowAllAgreesWithCurrentOnly(days: seq<int>, startOfDay: int -> int, open: seq<Bar>, endOfDay: int -> int)
    requires |days| >= 2
    requires forall a, b :: 0 <= a < b < |days| ==> startOfDay(days[a]) <= startOfDay(days[b])
    requires Scan(StartState(true, map[], []), DayKeys(days, startOfDay, FirstDay(true, |days|)), open, endOfDay).Some?
    ensures var last := startOfDay(days[|days| - 1]);
            var all := Scan(StartState(true, map[], []), DayKeys(days, startOfDay, FirstDay(true, |days|)), open, endOfDay);
            var current := Scan(StartState(false, map[], []), DayKeys(days, startOfDay, FirstDay(false, |days|)), open, endOfDay);
            && current.Some? && current.value.ranges.Keys == {last}
            && last in all.value.ranges
            && all.value.ranges[last] == current.value.ranges[last]
  {
    var keys := DayKeys(days, startOfDay, 1);
    assert NonDecreasing(keys) by {
      forall a, b | 0 <= a < b < |keys| ensures keys[a] <= keys[b] {
        assert keys[a] == startOfDay(days[1 + a]) && keys[b] == startOfDay(days[1 + b]);
      }
    }
    assert DayKeys(days, startOfDay, |days| - 1) == [keys[|keys| - 1]];
    LastDayMatchesFreshScan(ScanState(map[], [], 1), keys, open, endOfDay);
    ScanRecords(ScanState(map[], [], 1), [keys[|keys| - 1]], open, endOfDay);
    DayKeySet(days, startOfDay, |days| - 1);
  }
}
