/**
 * The forecast snapshot (`Estimate` in pvnode.py): the power series `watts`,
 * the hourly energy series `wh_hours` built from the parsed API records, and
 * the queries the sensors read from them.
 *
 * Timestamps are integer microseconds of local time in the reporting zone, so
 * truncation to the hour and the calendar day are plain integer arithmetic;
 * "now" is a parameter.
 */
module Forecast {
  import opened Wrappers
  import opened Series

  const HourUs: int := 3_600_000_000
  const DayUs: int := 86_400_000_000

  /** `replace(minute=59, second=59, microsecond=999)` lands this far after the hour. */
  const LastSecondOfHourUs: int := 3_599_000_999

  /** One record of the response's `values` list: its `dtm` and its `spec_watts`. */
  datatype Record = Record(at: int, specWatts: real)

  /** The provider lists its records in time order (equal timestamps allowed). */
  ghost predicate TimeOrdered(rs: seq<Record>) {
    forall i, j :: 0 <= i < j < |rs| ==> rs[i].at <= rs[j].at
  }

  /** Every key is on the hour. */
  ghost predicate HourAligned<V>(s: seq<Entry<V>>) {
    forall i :: 0 <= i < |s| ==> s[i].at % HourUs == 0
  }

  /** `replace(minute=0, second=0, microsecond=0)`: the start of the hour holding `t`. */
  function HourOf(t: int): (h: int)
    ensures h % HourUs == 0 && h <= t < h + HourUs
  {
    t - t % HourUs
  }

  /** `date()`: the calendar day holding `t`, counted in days from the epoch. */
  function DayOf(t: int): (d: int)
    ensures d * DayUs <= t < d * DayUs + DayUs
  {
    t / DayUs
  }

  lemma HourOfMonotone(a: int, b: int)
    requires a <= b
    ensures HourOf(a) <= HourOf(b)
  {
  }

  function RecordTimes(rs: seq<Record>): set<int> {
    set i | 0 <= i < |rs| :: rs[i].at
  }

  function RecordHours(rs: seq<Record>): set<int> {
    set i | 0 <= i < |rs| :: HourOf(rs[i].at)
  }

  /** A per-unit figure times the installed capacity. */
  function Scaled(x: real, kWp: real): real {
    x * kWp
  }

  // ---------------------------------------------------------------------------
  // The power series

  /** `watts` after the construction loop: `spec_watts * kWp` per timestamp, last write wins. */
  function WattsOf(rs: seq<Record>, kWp: real): Samples {
    if |rs| == 0 then []
    else Put(WattsOf(rs[..|rs| - 1], kWp), rs[|rs| - 1].at, Scaled(rs[|rs| - 1].specWatts, kWp))
  }

  /** The keys of `watts` are exactly the record timestamps, each once. */
  lemma {:induction false} WattsKeys(rs: seq<Record>, kWp: real)
    ensures Keys(WattsOf(rs, kWp)) == RecordTimes(rs)
    ensures UniqueKeys(WattsOf(rs, kWp))
  {
    if rs != [] {
      var init := rs[..|rs| - 1];
      WattsKeys(init, kWp);
      assert RecordTimes(rs) == RecordTimes(init) + {rs[|rs| - 1].at} by {
        forall t | t in RecordTimes(rs) ensures t in RecordTimes(init) + {rs[|rs| - 1].at} {
          var i :| 0 <= i < |rs| && rs[i].at == t;
          if i < |rs| - 1 { assert init[i] == rs[i]; }
        }
        forall t | t in RecordTimes(init) ensures t in RecordTimes(rs) {
          var i :| 0 <= i < |init| && init[i].at == t;
          assert rs[i] == init[i];
        }
      }
    }
  }

  /** A record that no later record overwrites leaves `spec_watts * kWp` at its timestamp. */
  lemma {:induction false} WattsLastWriteWins(rs: seq<Record>, kWp: real, i: nat)
    requires i < |rs|
    requires forall j :: i < j < |rs| ==> rs[j].at != rs[i].at
    ensures Get(WattsOf(rs, kWp), rs[i].at) == Some(Scaled(rs[i].specWatts, kWp))
  {
    var init := rs[..|rs| - 1];
    var last := rs[|rs| - 1];
    var w := WattsOf(init, kWp);
    assert WattsOf(rs, kWp) == Put(w, last.at, Scaled(last.specWatts, kWp));
    if i < |rs| - 1 {
      assert init[i] == rs[i];
      assert forall j :: i < j < |init| ==> init[j].at != init[i].at;
      WattsLastWriteWins(init, kWp, i);
      assert Get(w, rs[i].at) == Some(Scaled(rs[i].specWatts, kWp));
      assert last.at != rs[i].at;
      assert Get(Put(w, last.at, Scaled(last.specWatts, kWp)), rs[i].at) == Get(w, rs[i].at);
    }
  }

  /** Records in time order give a power series in strictly ascending order. */
  lemma {:induction false} WattsAscending(rs: seq<Record>, kWp: real)
    requires TimeOrdered(rs)
    ensures Ascending(WattsOf(rs, kWp))
  {
    if rs != [] {
      var init := rs[..|rs| - 1];
      var last := rs[|rs| - 1];
      WattsAscending(init, kWp);
      WattsKeys(init, kWp);
      forall u | u in Keys(WattsOf(init, kWp)) ensures u <= last.at {
        var i :| 0 <= i < |init| && init[i].at == u;
        assert init[i] == rs[i];
      }
      PutAscending(WattsOf(init, kWp), last.at, Scaled(last.specWatts, kWp));
    }
  }

  // ---------------------------------------------------------------------------
  // The hourly energy series

  /** The `spec_watts` of the records in hour `h`, in record order, duplicates kept. */
  function SpecWattsIn(rs: seq<Record>, h: int): seq<real> {
    if |rs| == 0 then []
    else SpecWattsIn(rs[..|rs| - 1], h) + (if HourOf(rs[|rs| - 1].at) == h then [rs[|rs| - 1].specWatts] else [])
  }

  /** The local dict `tmp` after the first loop: truncated hour -> that hour's `spec_watts`. */
  function HourBuckets(rs: seq<Record>): (b: seq<Entry<seq<real>>>)
    ensures forall i :: 0 <= i < |b| ==> b[i].value != []
  {
    if |rs| == 0 then []
    else
      var tmp := HourBuckets(rs[..|rs| - 1]);
      var h := HourOf(rs[|rs| - 1].at);
      var w := rs[|rs| - 1].specWatts;
      Put(tmp, h, if h in Keys(tmp) then Get(tmp, h).value + [w] else [w])
  }

  function Sum(ws: seq<real>): real {
    if |ws| == 0 then 0.0 else Sum(ws[..|ws| - 1]) + ws[|ws| - 1]
  }

  /** `sum(v) / len(v)` */
  function Mean(ws: seq<real>): real
    requires ws != []
  {
    Sum(ws) / (|ws| as real)
  }

  /** The second loop: one energy entry per bucket, in the buckets' order. */
  function MeanEntries(b: seq<Entry<seq<real>>>, kWp: real): (r: Samples)
    requires forall i :: 0 <= i < |b| ==> b[i].value != []
    ensures |r| == |b|
    ensures forall i :: 0 <= i < |b| ==> r[i].at == b[i].at && r[i].value == Scaled(Mean(b[i].value), kWp)
  {
    if |b| == 0 then []
    else MeanEntries(b[..|b| - 1], kWp) + [Entry(b[|b| - 1].at, Scaled(Mean(b[|b| - 1].value), kWp))]
  }

  /** `wh_hours` after construction. */
  function HourlyOf(rs: seq<Record>, kWp: real): Samples {
    MeanEntries(HourBuckets(rs), kWp)
  }

  /** Each bucket holds exactly its hour's `spec_watts`, and only hours with records have one. */
  lemma {:induction false} HourBucketsContent(rs: seq<Record>, h: int)
    ensures Get(HourBuckets(rs), h) == if SpecWattsIn(rs, h) == [] then None else Some(SpecWattsIn(rs, h))
  {
    if |rs| > 0 {
      var init := rs[..|rs| - 1];
      var tmp := HourBuckets(init);
      var hl := HourOf(rs[|rs| - 1].at);
      var w := rs[|rs| - 1].specWatts;
      var v := if hl in Keys(tmp) then Get(tmp, hl).value + [w] else [w];
      HourBucketsContent(init, h);
      HourBucketsStep(rs);
      assert HourBuckets(rs) == Put(tmp, hl, v);
      if hl != h {
        assert Get(HourBuckets(rs), h) == Get(tmp, h);
        assert SpecWattsIn(rs, h) == SpecWattsIn(init, h);
      } else if h in Keys(tmp) {
        assert Get(tmp, h) == Some(SpecWattsIn(init, h));
        assert Get(HourBuckets(rs), h) == Some(SpecWattsIn(init, h) + [w]);
        assert SpecWattsIn(rs, h) == SpecWattsIn(init, h) + [w];
      } else {
        assert SpecWattsIn(init, h) == [];
        assert Get(HourBuckets(rs), h) == Some([w]);
        assert SpecWattsIn(rs, h) == [w];
      }
    }
  }

  /** One step of the first construction loop. */
  lemma HourBucketsStep(rs: seq<Record>)
    requires |rs| > 0
    ensures var tmp := HourBuckets(rs[..|rs| - 1]);
            var h := HourOf(rs[|rs| - 1].at);
            var w := rs[|rs| - 1].specWatts;
            && HourBuckets(rs) == Put(tmp, h, if h in Keys(tmp) then Get(tmp, h).value + [w] else [w])
            && forall u :: SpecWattsIn(rs, u) == SpecWattsIn(rs[..|rs| - 1], u) + (if h == u then [w] else [])
  {
  }

  /** The buckets' keys are the record hours, each once; in time order they ascend. */
  lemma {:induction false} HourBucketsShape(rs: seq<Record>)
    ensures Keys(HourBuckets(rs)) == RecordHours(rs)
    ensures UniqueKeys(HourBuckets(rs))
    ensures TimeOrdered(rs) ==> Ascending(HourBuckets(rs))
  {
    if rs != [] {
      var init := rs[..|rs| - 1];
      var last := rs[|rs| - 1];
      HourBucketsShape(init);
      assert RecordHours(rs) == RecordHours(init) + {HourOf(last.at)} by {
        forall t | t in RecordHours(rs) ensures t in RecordHours(init) + {HourOf(last.at)} {
          var i :| 0 <= i < |rs| && HourOf(rs[i].at) == t;
          if i < |rs| - 1 { assert init[i] == rs[i]; }
        }
        forall t | t in RecordHours(init) ensures t in RecordHours(rs) {
          var i :| 0 <= i < |init| && HourOf(init[i].at) == t;
          assert rs[i] == init[i];
        }
      }
      if TimeOrdered(rs) {
        var tmp := HourBuckets(init);
        forall u | u in Keys(tmp) ensures u <= HourOf(last.at) {
          var i :| 0 <= i < |init| && HourOf(init[i].at) == u;
          assert init[i] == rs[i];
          HourOfMonotone(init[i].at, last.at);
        }
        var h := HourOf(last.at);
        PutAscending(tmp, h, if h in Keys(tmp) then Get(tmp, h).value + [last.specWatts] else [last.specWatts]);
      }
    }
  }

  /**
   * `wh_hours[h]` exists exactly for the hours that hold a record, and is the
   * mean of that hour's `spec_watts` (duplicates counted) times kWp.
   */
  lemma HourlyLookup(rs: seq<Record>, kWp: real, h: int)
    ensures Get(HourlyOf(rs, kWp), h) == if SpecWattsIn(rs, h) == [] then None else Some(Scaled(Mean(SpecWattsIn(rs, h)), kWp))
  {
    var b := HourBuckets(rs);
    var r := HourlyOf(rs, kWp);
    IndexOfIsFirst(r, h, IndexOf(b, h));
    HourBucketsContent(rs, h);
  }

  /** An hour has a bucket exactly when some record truncates to it. */
  lemma {:induction false} SpecWattsInNonEmpty(rs: seq<Record>, h: int)
    ensures SpecWattsIn(rs, h) != [] <==> exists i :: 0 <= i < |rs| && HourOf(rs[i].at) == h
  {
    if rs != [] {
      var init := rs[..|rs| - 1];
      SpecWattsInNonEmpty(init, h);
      if exists i :: 0 <= i < |rs| && HourOf(rs[i].at) == h {
        var i :| 0 <= i < |rs| && HourOf(rs[i].at) == h;
        if i < |rs| - 1 { assert init[i] == rs[i]; }
      }
      if exists i :: 0 <= i < |init| && HourOf(init[i].at) == h {
        var i :| 0 <= i < |init| && HourOf(init[i].at) == h;
        assert rs[i] == init[i];
      }
    }
  }

  /** The keys of `wh_hours` are on the hour, each once, and ascend when the records are in time order. */
  lemma HourlyShape(rs: seq<Record>, kWp: real)
    ensures Keys(HourlyOf(rs, kWp)) == RecordHours(rs)
    ensures UniqueKeys(HourlyOf(rs, kWp)) && HourAligned(HourlyOf(rs, kWp))
    ensures TimeOrdered(rs) ==> Ascending(HourlyOf(rs, kWp))
  {
    var b := HourBuckets(rs);
    var r := HourlyOf(rs, kWp);
    HourBucketsShape(rs);
    assert Keys(r) == Keys(b) by {
      forall t | t in Keys(r) ensures t in Keys(b) { var i :| 0 <= i < |r| && r[i].at == t; assert b[i].at == t; }
      forall t | t in Keys(b) ensures t in Keys(r) { var i :| 0 <= i < |b| && b[i].at == t; assert r[i].at == t; }
    }
    forall i | 0 <= i < |r| ensures r[i].at % HourUs == 0 {
      assert r[i].at in RecordHours(rs);
    }
  }

  /** One step of the first construction loop, as `watts` and `tmp` see it. */
  lemma LoopStep(rs: seq<Record>, kWp: real, i: nat)
    requires i < |rs|
    ensures WattsOf(rs[..i + 1], kWp) == Put(WattsOf(rs[..i], kWp), rs[i].at, Scaled(rs[i].specWatts, kWp))
    ensures var tmp := HourBuckets(rs[..i]);
            var h := HourOf(rs[i].at);
            HourBuckets(rs[..i + 1]) == Put(tmp, h, if h in Keys(tmp) then Get(tmp, h).value + [rs[i].specWatts] else [rs[i].specWatts])
  {
    assert rs[..i + 1][..i] == rs[..i];
    HourBucketsStep(rs[..i + 1]);
  }

  /** One step of the second construction loop: a fresh hour goes last. */
  lemma MeanEntriesStep(b: seq<Entry<seq<real>>>, kWp: real, j: nat)
    requires j < |b| && UniqueKeys(b)
    requires forall i :: 0 <= i < |b| ==> b[i].value != []
    ensures MeanEntries(b[..j + 1], kWp) == Put(MeanEntries(b[..j], kWp), b[j].at, Scaled(Mean(b[j].value), kWp))
  {
    assert b[..j + 1][..j] == b[..j];
    var wh := MeanEntries(b[..j], kWp);
    forall k | 0 <= k < |wh| ensures wh[k].at != b[j].at {
      assert wh[k].at == b[k].at;
    }
  }

  /** Two records of one hour with spec_watts 0.2 and 0.4 and kWp 4 give 1.2 for that hour. */
  lemma HourlyMeanExample()
    ensures Get(HourlyOf([Record(0, 0.2), Record(900_000_000, 0.4)], 4.0), 0) == Some(1.2)
  {
    var rs := [Record(0, 0.2), Record(900_000_000, 0.4)];
    HourlyLookup(rs, 4.0, 0);
    ExampleHourWatts();
    MeanOfTwo(0.2, 0.4);
    assert Scaled(0.3, 4.0) == 1.2;
  }

  lemma ExampleHourWatts()
    ensures SpecWattsIn([Record(0, 0.2), Record(900_000_000, 0.4)], 0) == [0.2, 0.4]
  {
    var rs := [Record(0, 0.2), Record(900_000_000, 0.4)];
    assert HourOf(0) == 0 && HourOf(900_000_000) == 0;
    assert rs[..1][..0] == [];
    assert SpecWattsIn(rs[..1], 0) == [0.2];
  }

  lemma MeanOfTwo(a: real, b: real)
    ensures Mean([a, b]) == (a + b) / 2.0
  {
    assert [a, b][..1] == [a];
    assert [a][..0] == [];
    assert Sum([a]) == a;
    assert Sum([a, b]) == a + b;
    assert |[a, b]| as real == 2.0;
  }

  // ---------------------------------------------------------------------------
  // Peak search

  /** Python's `max` over the samples of day `d`, with `None` when the day has none. */
  function DayMax(s: Samples, d: int): (m: Option<real>)
    ensures m.None? <==> forall i :: 0 <= i < |s| ==> DayOf(s[i].at) != d
    ensures m.Some? ==> exists i :: 0 <= i < |s| && DayOf(s[i].at) == d && s[i].value == m.value
    ensures m.Some? ==> forall i :: 0 <= i < |s| && DayOf(s[i].at) == d ==> s[i].value <= m.value
  {
    if |s| == 0 then None
    else
      var m := DayMax(s[..|s| - 1], d);
      var e := s[|s| - 1];
      if DayOf(e.at) != d then m
      else match m
        case None => Some(e.value)
        case Some(x) => if e.value > x then Some(e.value) else m
  }

  /**
   * The timestamp `peak_production_time(d)` returns: that of the first sample
   * of the WHOLE series whose value equals the maximum over day `d`.
   */
  ghost predicate IsPeakAsWritten(s: Samples, d: int, t: int) {
    exists i :: 0 <= i < |s| && s[i].at == t
      && DayMax(s, d) == Some(s[i].value)
      && forall j :: 0 <= j < i ==> s[j].value != s[i].value
  }

  /** The timestamp a peak-time query should return: a sample of day `d` that no other sample of that day exceeds. */
  ghost predicate IsPeakOfDay(s: Samples, d: int, t: int) {
    DayOf(t) == d
      && exists i :: 0 <= i < |s| && s[i].at == t
                     && forall j :: 0 <= j < |s| && DayOf(s[j].at) == d ==> s[j].value <= s[i].value
  }

  /**
   * With one zero sample at midnight of day 0 and one at midnight of day 1,
   * the search as written answers day 1's query with day 0's timestamp.
   */
  lemma PeakAsWrittenLeavesTheDay()
    ensures IsPeakAsWritten([Entry(0, 0.0), Entry(DayUs, 0.0)], 1, 0)
    ensures forall t :: IsPeakAsWritten([Entry(0, 0.0), Entry(DayUs, 0.0)], 1, t) ==> t == 0 && !IsPeakOfDay([Entry(0, 0.0), Entry(DayUs, 0.0)], 1, t)
  {
    var s := [Entry(0, 0.0), Entry(DayUs, 0.0)];
    assert DayMax(s, 1) == Some(0.0) by {
      assert DayOf(DayUs) == 1;
    }
    assert s[0].at == 0;
  }

  datatype PeakError = NoPeakProductionTime

  // ---------------------------------------------------------------------------
  // Hour-aligned keys against the bounds the queries use

  /** A key on the hour is never the last microsecond of a day. */
  lemma OnTheHourIsNotLastMicrosecond(k: int, d: int)
    requires k % HourUs == 0
    ensures k != d * DayUs + DayUs - 1
  {
  }

  /**
   * For a key on the hour, the window that starts at the current hour's
   * :59:59.000999 and lasts `n` hours holds it exactly when it is one of the
   * next `n` hours.
   */
  lemma OnTheHourInNextHours(k: int, t: int, n: int)
    requires k % HourUs == 0
    ensures (HourOf(t) + LastSecondOfHourUs <= k < HourOf(t) + LastSecondOfHourUs + n * HourUs)
        <==> (HourOf(t) + HourUs <= k < HourOf(t) + (n + 1) * HourUs)
  {
    var q := k / HourUs;
    var p := HourOf(t) / HourUs;
    assert k == HourUs * q;
    assert HourOf(t) == HourUs * p;
  }

  /** For a key on the hour and an instant off the hour, the key is at or after the instant exactly when it is after the instant's hour. */
  lemma OnTheHourAfter(k: int, t: int)
    requires k % HourUs == 0 && t % HourUs != 0
    ensures t <= k <==> HourOf(t) + HourUs <= k
  {
    var q := k / HourUs;
    var p := HourOf(t) / HourUs;
    assert k == HourUs * q;
    assert HourOf(t) == HourUs * p;
    assert HourOf(t) < t;
  }

  // ---------------------------------------------------------------------------
  // The windows and lookups the queries run over an hourly series

  /** With keys on the hour, the [00:00, 23:59:59.999999) scan of day `d` sums exactly that day's entries. */
  lemma DayScanSumsTheDay(s: Samples, d: int)
    ensures Ascending(s) && HourAligned(s) ==>
      IntervalSum(d * DayUs, d * DayUs + DayUs - 1, s) == WindowSum(s, d * DayUs, d * DayUs + DayUs)
  {
    if Ascending(s) && HourAligned(s) {
      IntervalSumAscending(d * DayUs, d * DayUs + DayUs - 1, s);
      forall i | 0 <= i < |s| ensures s[i].at != d * DayUs + DayUs - 1 {
        OnTheHourIsNotLastMicrosecond(s[i].at, d);
      }
      WindowSumSameKeys(s, d * DayUs, d * DayUs + DayUs - 1, d * DayUs, d * DayUs + DayUs);
    }
  }

  /**
   * The scan from `now` to the next midnight sums the entries in that window;
   * with keys on the hour and `now` off the hour, it starts at the next hour.
   */
  lemma RemainderScan(s: Samples, now: int)
    ensures Ascending(s) ==>
      IntervalSum(now, DayOf(now) * DayUs + DayUs, s) == WindowSum(s, now, DayOf(now) * DayUs + DayUs)
    ensures Ascending(s) && HourAligned(s) && now % HourUs != 0 ==>
      IntervalSum(now, DayOf(now) * DayUs + DayUs, s) == WindowSum(s, HourOf(now) + HourUs, DayOf(now) * DayUs + DayUs)
  {
    var end := DayOf(now) * DayUs + DayUs;
    if Ascending(s) {
      IntervalSumAscending(now, end, s);
      if HourAligned(s) && now % HourUs != 0 {
        forall i | 0 <= i < |s| ensures now <= s[i].at < end <==> HourOf(now) + HourUs <= s[i].at < end {
          OnTheHourAfter(s[i].at, now);
        }
        WindowSumSameKeys(s, now, end, HourOf(now) + HourUs, end);
      }
    }
  }

  /** With keys on the hour, the `n`-hour scan from :59:59.000999 of the current hour sums exactly the next `n` hours. */
  lemma NextHoursScan(s: Samples, now: int, n: int)
    ensures Ascending(s) && HourAligned(s) ==>
      IntervalSum(HourOf(now) + LastSecondOfHourUs, HourOf(now) + LastSecondOfHourUs + n * HourUs, s)
      == WindowSum(s, HourOf(now) + HourUs, HourOf(now) + (n + 1) * HourUs)
  {
    var from := HourOf(now) + LastSecondOfHourUs;
    if Ascending(s) && HourAligned(s) {
      IntervalSumAscending(from, from + n * HourUs, s);
      forall i | 0 <= i < |s|
        ensures from <= s[i].at < from + n * HourUs <==> HourOf(now) + HourUs <= s[i].at < HourOf(now) + (n + 1) * HourUs
      {
        OnTheHourInNextHours(s[i].at, now, n);
      }
      WindowSumSameKeys(s, from, from + n * HourUs, HourOf(now) + HourUs, HourOf(now) + (n + 1) * HourUs);
    }
  }

  /** The at-or-before lookup on an ascending series, for every instant. */
  lemma AtOrBeforeCases(s: Samples, at: int)
    ensures Ascending(s) ==> forall j :: 0 <= j < |s| - 1 && s[j].at <= at < s[j + 1].at ==>
      AtOrBefore(at, s) == Some(s[j].value)
    ensures Ascending(s) && (s == [] || at < s[0].at || s[|s| - 1].at <= at) ==> AtOrBefore(at, s) == None
  {
    if Ascending(s) {
      AtOrBeforeNone(at, s);
      forall j | 0 <= j < |s| - 1 && s[j].at <= at < s[j + 1].at ensures AtOrBefore(at, s) == Some(s[j].value) {
        AtOrBeforeBetween(at, s, j);
      }
    }
  }

  /** Looking up a key below the last key of an ascending series finds that key's own value. */
  lemma AtOrBeforeAtKey(s: Samples, at: int)
    ensures Ascending(s) && at in Keys(s) && at < s[|s| - 1].at ==> AtOrBefore(at, s) == Get(s, at)
  {
    if Ascending(s) && at in Keys(s) && at < s[|s| - 1].at {
      var j :| 0 <= j < |s| && s[j].at == at;
      assert j + 1 < |s|;
      AtOrBeforeBetween(at, s, j);
    }
  }

  // ---------------------------------------------------------------------------
  // The two construction loops

  /**
   * The first loop of `Estimate.__init__`: per record, `watts[t] = spec_watts * kWp`
   * and the record's `spec_watts` appended to `tmp[hour]`.
   */
  method FillFromRecords(records: seq<Record>, kWp: real) returns (watts: Samples, tmp: seq<Entry<seq<real>>>)
    ensures watts == WattsOf(records, kWp)
    ensures tmp == HourBuckets(records)
  {
    watts := [];
    tmp := [];
    var i := 0;
    while i < |records|
      invariant 0 <= i <= |records|
      invariant watts == WattsOf(records[..i], kWp)
      invariant tmp == HourBuckets(records[..i])
    {
      var r := records[i];
      LoopStep(records, kWp, i);
      watts := Put(watts, r.at, Scaled(r.specWatts, kWp));
      var h := HourOf(r.at);
      if h in Keys(tmp) {
        tmp := Put(tmp, h, Get(tmp, h).value + [r.specWatts]);
      } else {
        tmp := Put(tmp, h, [r.specWatts]);
      }
      i := i + 1;
    }
    assert records[..|records|] == records;
  }

  /** The second loop of `Estimate.__init__`: `wh_hours[t] = sum(v) / len(v) * kWp` per entry of `tmp`. */
  method AverageHours(tmp: seq<Entry<seq<real>>>, kWp: real) returns (wh: Samples)
    requires UniqueKeys(tmp)
    requires forall i :: 0 <= i < |tmp| ==> tmp[i].value != []
    ensures wh == MeanEntries(tmp, kWp)
  {
    wh := [];
    var j := 0;
    while j < |tmp|
      invariant 0 <= j <= |tmp|
      invariant wh == MeanEntries(tmp[..j], kWp)
    {
      MeanEntriesStep(tmp, kWp, j);
      wh := Put(wh, tmp[j].at, Scaled(Mean(tmp[j].value), kWp));
      j := j + 1;
    }
    assert tmp[..|tmp|] == tmp;
  }

  // ---------------------------------------------------------------------------
  // The snapshot

  class Estimate {
    const kWp: real
    const lastUpdate: int
    const watts: Samples
    const whHours: Samples

    /** The shape the queries rely on: both series ascending, hourly keys on the hour. */
    ghost predicate Chronological() {
      Ascending(watts) && Ascending(whHours) && HourAligned(whHours)
    }

    /** `Estimate(kWp, data)` built at instant `now` from the parsed `values`. */
    constructor (kWp: real, records: seq<Record>, now: int)
      ensures this.kWp == kWp && lastUpdate == now
      ensures watts == WattsOf(records, kWp) && whHours == HourlyOf(records, kWp)
      ensures TimeOrdered(records) ==> Chronological()
    {
      var w, tmp := FillFromRecords(records, kWp);
      HourBucketsShape(records);
      var wh := AverageHours(tmp, kWp);
      if TimeOrdered(records) {
        WattsAscending(records, kWp);
      }
      HourlyShape(records, kWp);
      this.kWp := kWp;
      lastUpdate := now;
      watts := w;
      whHours := wh;
    }

    // -------------------------------------------------------------------------
    // Queries

    /**
     * `day_production(d)`: the scan over [00:00, 23:59:59.999999) of day `d`,
     * which on a chronological snapshot sums exactly the entries of day `d`.
     */
    function DayProduction(d: int): (e: real)
      ensures Chronological() ==> e == WindowSum(whHours, d * DayUs, d * DayUs + DayUs)
    {
      DayScanSumsTheDay(whHours, d);
      IntervalSum(d * DayUs, d * DayUs + DayUs - 1, whHours)
    }

    /** `energy_production_today`: the sum of the entries of the day holding `now`. */
    function EnergyToday(now: int): (e: real)
      ensures Chronological() ==> e == WindowSum(whHours, DayOf(now) * DayUs, DayOf(now) * DayUs + DayUs)
    {
      DayProduction(DayOf(now))
    }

    /** `energy_production_tomorrow`: the sum of the entries of the day after the one holding `now`. */
    function EnergyTomorrow(now: int): (e: real)
      ensures Chronological() ==> e == WindowSum(whHours, (DayOf(now) + 1) * DayUs, (DayOf(now) + 2) * DayUs)
    {
      DayProduction(DayOf(now) + 1)
    }

    /**
     * `energy_production_today_remaining`: the scan from `now` up to the next
     * midnight. It sums today's entries at or after `now`, so today's total is
     * what came before `now` plus the remainder; when `now` is not on the hour,
     * the hour under way is not part of the remainder.
     */
    function EnergyTodayRemaining(now: int): (e: real)
      ensures Chronological() ==> e == WindowSum(whHours, now, DayOf(now) * DayUs + DayUs)
      ensures Chronological() ==> EnergyToday(now) == WindowSum(whHours, DayOf(now) * DayUs, now) + e
      ensures Chronological() && now % HourUs != 0 ==>
        e == WindowSum(whHours, HourOf(now) + HourUs, DayOf(now) * DayUs + DayUs)
    {
      RemainderScan(whHours, now);
      WindowSumSplit(whHours, DayOf(now) * DayUs, now, DayOf(now) * DayUs + DayUs);
      IntervalSum(now, DayOf(now) * DayUs + DayUs, whHours)
    }

    /**
     * `sum_energy_production(period_hours)`: the scan from the current hour's
     * :59:59.000999 for `period_hours` hours, which sums exactly the entries of
     * the next `period_hours` hours and never the current one.
     */
    function SumEnergyProduction(now: int, periodHours: int): (e: real)
      ensures Chronological() ==>
        e == WindowSum(whHours, HourOf(now) + HourUs, HourOf(now) + (periodHours + 1) * HourUs)
    {
      NextHoursScan(whHours, now, periodHours);
      var from := HourOf(now) + LastSecondOfHourUs;
      IntervalSum(from, from + periodHours * HourUs, whHours)
    }

    /**
     * `energy_current_hour`: the at-or-before lookup at the current hour, or 0.
     * The entry of the last hour at or before the current one is reported while
     * a later hour exists, so a skipped hour reports the hour before it; before
     * the first hour and from the last hour on, the answer is 0.
     */
    function EnergyCurrentHour(now: int): (e: real)
      ensures Chronological() ==> forall j :: 0 <= j < |whHours| - 1 && whHours[j].at <= HourOf(now) < whHours[j + 1].at ==>
        e == whHours[j].value
      ensures Chronological() && HourOf(now) in Keys(whHours) && HourOf(now) < whHours[|whHours| - 1].at ==>
        e == Get(whHours, HourOf(now)).value
      ensures Chronological() && (whHours == [] || HourOf(now) < whHours[0].at || whHours[|whHours| - 1].at <= HourOf(now)) ==>
        e == 0.0
    {
      AtOrBeforeCases(whHours, HourOf(now));
      AtOrBeforeAtKey(whHours, HourOf(now));
      match AtOrBefore(HourOf(now), whHours)
      case Some(v) => v
      case None => 0.0
    }

    /**
     * `power_production_at_time(t)`: the at-or-before lookup at `t`, or 0. The
     * sample of the last key at or before `t` is reported while a later key
     * exists; before the first key and from the last key on, the answer is 0.
     */
    function PowerProductionAtTime(t: int): (p: real)
      ensures Chronological() ==> forall j :: 0 <= j < |watts| - 1 && watts[j].at <= t < watts[j + 1].at ==>
        p == watts[j].value
      ensures Chronological() && (watts == [] || t < watts[0].at || watts[|watts| - 1].at <= t) ==> p == 0.0
    {
      AtOrBeforeCases(watts, t);
      match AtOrBefore(t, watts)
      case Some(v) => v
      case None => 0.0
    }

    // -------------------------------------------------------------------------
    // Peak search

    /** The `max(...)` generator of `peak_production_time`: the largest sample of day `d`. */
    method MaxOnDay(d: int) returns (value: Option<real>)
      ensures value == DayMax(watts, d)
    {
      value := None;
      var i := 0;
      while i < |watts|
        invariant 0 <= i <= |watts|
        invariant value == DayMax(watts[..i], d)
      {
        var e := watts[i];
        assert watts[..i + 1][..i] == watts[..i];
        if DayOf(e.at) == d {
          match value
          case None => value := Some(e.value);
          case Some(m) => if e.value > m { value := Some(e.value); }
        }
        i := i + 1;
      }
      assert watts[..|watts|] == watts;
    }

    /**
     * `peak_production_time(d)` as written: fails when day `d` has no sample,
     * otherwise returns the first key of the whole series whose sample equals
     * that day's maximum.
     */
    method PeakProductionTimeAsWritten(d: int) returns (r: Result<int, PeakError>)
      ensures r.Err? <==> forall i :: 0 <= i < |watts| ==> DayOf(watts[i].at) != d
      ensures r.Ok? ==> IsPeakAsWritten(watts, d, r.value)
    {
      var value := MaxOnDay(d);
      var i := 0;
      while i < |watts|
        invariant 0 <= i <= |watts|
        invariant forall j :: 0 <= j < i ==> Some(watts[j].value) != value
      {
        if Some(watts[i].value) == value {
          return Ok(watts[i].at);
        }
        i := i + 1;
      }
      return Err(NoPeakProductionTime);
    }

    /**
     * The peak-time query with the search kept to day `d`: fails when the day
     * has no sample, otherwise returns the first key of that day whose sample
     * no other sample of the day exceeds.
     */
    method PeakProductionTime(d: int) returns (r: Result<int, PeakError>)
      ensures r.Err? <==> forall i :: 0 <= i < |watts| ==> DayOf(watts[i].at) != d
      ensures r.Ok? ==> IsPeakOfDay(watts, d, r.value)
    {
      var value := MaxOnDay(d);
      var i := 0;
      while i < |watts|
        invariant 0 <= i <= |watts|
        invariant forall j :: 0 <= j < i ==> !(DayOf(watts[j].at) == d && Some(watts[j].value) == value)
      {
        if DayOf(watts[i].at) == d && Some(watts[i].value) == value {
          return Ok(watts[i].at);
        }
        i := i + 1;
      }
      return Err(NoPeakProductionTime);
    }

    /** `power_highest_peak_time_today`: the search as written, for the day holding `now`. */
    method PeakTimeToday(now: int) returns (r: Result<int, PeakError>)
      ensures r.Err? <==> forall i :: 0 <= i < |watts| ==> DayOf(watts[i].at) != DayOf(now)
      ensures r.Ok? ==> IsPeakAsWritten(watts, DayOf(now), r.value)
    {
      r := PeakProductionTimeAsWritten(DayOf(now));
    }

    /** `power_highest_peak_time_tomorrow`: the search as written, for the day after the one holding `now`. */
    method PeakTimeTomorrow(now: int) returns (r: Result<int, PeakError>)
      ensures r.Err? <==> forall i :: 0 <= i < |watts| ==> DayOf(watts[i].at) != DayOf(now) + 1
      ensures r.Ok? ==> IsPeakAsWritten(watts, DayOf(now) + 1, r.value)
    {
      r := PeakProductionTimeAsWritten(DayOf(now) + 1);
    }
  }
}
