/**
 * Insertion-ordered `timestamp -> value` dictionaries and the two linear scans
 * that the forecast queries run over them (`_interval_value_sum` and
 * `_timed_value` in pvnode.py).
 *
 * A dictionary is a sequence of entries in insertion order. Timestamps are
 * integer microseconds of local time in the provider's reporting zone.
 */
module Series {
  import opened Wrappers

  datatype Entry<V> = Entry(at: int, value: V)

  /** A power or energy series: timestamp -> watts or watt-hours. */
  type Samples = seq<Entry<real>>

  ghost predicate UniqueKeys<V>(s: seq<Entry<V>>) {
    forall i, j :: 0 <= i < j < |s| ==> s[i].at != s[j].at
  }

  /** Keys strictly increase in iteration order. */
  ghost predicate Ascending<V>(s: seq<Entry<V>>) {
    forall i, j :: 0 <= i < j < |s| ==> s[i].at < s[j].at
  }

  function Keys<V>(s: seq<Entry<V>>): set<int> {
    set i | 0 <= i < |s| :: s[i].at
  }

  function Max(a: int, b: int): int { if a < b then b else a }

  /** Position of the first entry whose key is `t`, or `|s|` when there is none. */
  function IndexOf<V>(s: seq<Entry<V>>, t: int): (i: nat)
    ensures i <= |s|
    ensures i < |s| ==> s[i].at == t
    ensures forall j :: 0 <= j < i ==> s[j].at != t
  {
    if s == [] then 0
    else if s[0].at == t then 0
    else 1 + IndexOf(s[1..], t)
  }

  /** Dictionary lookup `d.get(t)`. */
  function Get<V>(s: seq<Entry<V>>, t: int): (r: Option<V>)
    ensures r.Some? <==> t in Keys(s)
    ensures UniqueKeys(s) ==> forall i :: 0 <= i < |s| && s[i].at == t ==> r == Some(s[i].value)
  {
    var i := IndexOf(s, t);
    if i < |s| then Some(s[i].value) else None
  }

  /**
   * Dictionary assignment `d[t] = v`: an existing key keeps its place in the
   * iteration order and takes the new value; a new key goes last.
   */
  function Put<V>(s: seq<Entry<V>>, t: int, v: V): (r: seq<Entry<V>>)
    ensures Keys(r) == Keys(s) + {t}
    ensures Get(r, t) == Some(v)
    ensures forall u :: u != t ==> Get(r, u) == Get(s, u)
    ensures t !in Keys(s) ==> r == s + [Entry(t, v)]
    ensures t in Keys(s) ==> |r| == |s| && forall j :: 0 <= j < |s| ==> r[j].at == s[j].at
    ensures forall j :: 0 <= j < |r| ==> r[j] == Entry(t, v) || (j < |s| && r[j] == s[j])
    ensures UniqueKeys(s) ==> UniqueKeys(r)
  {
    var i := IndexOf(s, t);
    var r := if i < |s| then s[i := Entry(t, v)] else s + [Entry(t, v)];
    assert IndexOf(r, t) == i by { IndexOfIsFirst(r, t, i); }
    assert forall u :: u != t ==> Get(r, u) == Get(s, u) by {
      forall u | u != t ensures Get(r, u) == Get(s, u) {
        var k := IndexOf(s, u);
        if k < |s| {
          assert r[k] == s[k];
          IndexOfIsFirst(r, u, k);
        } else {
          IndexOfIsFirst(r, u, |r|);
        }
      }
    }
    assert Keys(r) == Keys(s) + {t} by {
      forall u | u in Keys(r) ensures u in Keys(s) + {t} {
        var j :| 0 <= j < |r| && r[j].at == u;
        if j < |s| && j != i { assert s[j] == r[j]; }
      }
      forall u | u in Keys(s) + {t} ensures u in Keys(r) {
        if u == t {
          assert r[i].at == t;
        } else {
          var j :| 0 <= j < |s| && s[j].at == u;
          assert r[j] == s[j];
        }
      }
    }
    r
  }

  /** Any position that satisfies the first-match property is the one IndexOf finds. */
  lemma IndexOfIsFirst<V>(s: seq<Entry<V>>, t: int, i: nat)
    requires i <= |s|
    requires i < |s| ==> s[i].at == t
    requires forall j :: 0 <= j < i ==> s[j].at != t
    ensures IndexOf(s, t) == i
  {
  }

  /** Assigning a key no smaller than every key keeps a series ascending. */
  lemma PutAscending<V>(s: seq<Entry<V>>, t: int, v: V)
    requires Ascending(s)
    requires forall u :: u in Keys(s) ==> u <= t
    ensures Ascending(Put(s, t, v))
  {
    var r := Put(s, t, v);
    if t !in Keys(s) {
      forall i | 0 <= i < |s| ensures s[i].at < t {
        assert s[i].at in Keys(s);
      }
    }
  }

  // ---------------------------------------------------------------------------
  // Sums over a window

  /** Sum of the values whose key lies in the half-open window [lo, hi), whatever the order. */
  function WindowSum(s: Samples, lo: int, hi: int): real {
    if |s| == 0 then 0.0
    else WindowSum(s[..|s| - 1], lo, hi) + (if lo <= s[|s| - 1].at < hi then s[|s| - 1].value else 0.0)
  }

  /** Sum of all values. */
  function ValueSum(s: Samples): real {
    if |s| == 0 then 0.0 else ValueSum(s[..|s| - 1]) + s[|s| - 1].value
  }

  /** Position of the first entry whose key is at or after `t`, or `|s|`. */
  function FirstAtOrAfter<V>(s: seq<Entry<V>>, t: int): (i: nat)
    ensures i <= |s|
    ensures forall j :: 0 <= j < i ==> s[j].at < t
    ensures i < |s| ==> s[i].at >= t
  {
    if s == [] then 0
    else if s[0].at >= t then 0
    else 1 + FirstAtOrAfter(s[1..], t)
  }

  /**
   * What the `_interval_value_sum` scan adds up: keys below `begin` are skipped,
   * the scan stops at the first remaining key at or after `end` (so at the first
   * key that is not below either bound), and everything in between is summed.
   */
  function IntervalSum(begin: int, end: int, s: Samples): real {
    WindowSum(s[..FirstAtOrAfter(s, Max(begin, end))], begin, end)
  }

  /** `_interval_value_sum(begin, end, data)` as the loop the source runs. */
  method IntervalValueSum(begin: int, end: int, s: Samples) returns (total: real)
    ensures total == IntervalSum(begin, end, s)
  {
    total := 0.0;
    var i := 0;
    while i < |s|
      invariant 0 <= i <= FirstAtOrAfter(s, Max(begin, end))
      invariant total == WindowSum(s[..i], begin, end)
    {
      var e := s[i];
      if e.at >= begin {
        if e.at >= end {
          break;
        }
        total := total + e.value;
      }
      assert s[..i + 1][..i] == s[..i];
      i := i + 1;
    }
  }

  lemma {:induction false} WindowSumAppend(a: Samples, b: Samples, lo: int, hi: int)
    ensures WindowSum(a + b, lo, hi) == WindowSum(a, lo, hi) + WindowSum(b, lo, hi)
  {
    if b != [] {
      assert (a + b)[..|a + b| - 1] == a + b[..|b| - 1];
      WindowSumAppend(a, b[..|b| - 1], lo, hi);
    } else {
      assert a + b == a;
    }
  }

  /** A window that holds no key sums to 0. */
  lemma {:induction false} WindowSumEmpty(s: Samples, lo: int, hi: int)
    requires forall i :: 0 <= i < |s| ==> !(lo <= s[i].at < hi)
    ensures WindowSum(s, lo, hi) == 0.0
  {
    if s != [] {
      WindowSumEmpty(s[..|s| - 1], lo, hi);
    }
  }

  /** Two windows that hold the same keys of `s` have the same sum. */
  lemma {:induction false} WindowSumSameKeys(s: Samples, lo: int, hi: int, lo': int, hi': int)
    requires forall i :: 0 <= i < |s| ==> (lo <= s[i].at < hi <==> lo' <= s[i].at < hi')
    ensures WindowSum(s, lo, hi) == WindowSum(s, lo', hi')
  {
    if s != [] {
      WindowSumSameKeys(s[..|s| - 1], lo, hi, lo', hi');
    }
  }

  /** Splitting a window at `mid` splits its sum. */
  lemma {:induction false} WindowSumSplit(s: Samples, lo: int, mid: int, hi: int)
    requires lo <= mid <= hi
    ensures WindowSum(s, lo, hi) == WindowSum(s, lo, mid) + WindowSum(s, mid, hi)
  {
    if s != [] {
      WindowSumSplit(s[..|s| - 1], lo, mid, hi);
    }
  }

  /** A window that holds every key sums every value. */
  lemma {:induction false} WindowSumAll(s: Samples, lo: int, hi: int)
    requires forall i :: 0 <= i < |s| ==> lo <= s[i].at < hi
    ensures WindowSum(s, lo, hi) == ValueSum(s)
  {
    if s != [] {
      WindowSumAll(s[..|s| - 1], lo, hi);
    }
  }

  /**
   * On an ascending series the early exit loses nothing: the scan sums exactly
   * the values whose key lies in [begin, end).
   */
  lemma IntervalSumAscending(begin: int, end: int, s: Samples)
    requires Ascending(s)
    ensures IntervalSum(begin, end, s) == WindowSum(s, begin, end)
  {
    var k := FirstAtOrAfter(s, Max(begin, end));
    assert s == s[..k] + s[k..];
    WindowSumAppend(s[..k], s[k..], begin, end);
    WindowSumEmpty(s[k..], begin, end);
  }

  /**
   * Nothing after the first key at or after both bounds is ever added, whatever
   * follows it and in whatever order.
   */
  lemma IntervalSumIgnoresTail(begin: int, end: int, s: Samples, tail: Samples)
    requires exists i :: 0 <= i < |s| && s[i].at >= Max(begin, end)
    ensures IntervalSum(begin, end, s + tail) == IntervalSum(begin, end, s)
  {
    var k := FirstAtOrAfter(s, Max(begin, end));
    IndexOfStopIsFirst(s + tail, Max(begin, end), k);
    assert (s + tail)[..k] == s[..k];
  }

  lemma IndexOfStopIsFirst(s: Samples, t: int, i: nat)
    requires i < |s| && s[i].at >= t
    requires forall j :: 0 <= j < i ==> s[j].at < t
    ensures FirstAtOrAfter(s, t) == i
  {
  }

  /** Over a window spanning the whole ascending series the scan sums every value. */
  lemma IntervalSumWholeSeries(s: Samples)
    requires Ascending(s) && s != []
    ensures IntervalSum(s[0].at, s[|s| - 1].at + 1, s) == ValueSum(s)
  {
    IntervalSumAscending(s[0].at, s[|s| - 1].at + 1, s);
    WindowSumAll(s, s[0].at, s[|s| - 1].at + 1);
  }

  // ---------------------------------------------------------------------------
  // At-or-before lookup

  /**
   * What `_timed_value` returns: the value of the entry just before the first
   * key later than `at`; nothing when that first later key is the very first
   * entry, and nothing when no key is later than `at` at all.
   */
  function AtOrBefore(at: int, s: Samples): Option<real> {
    var i := FirstAtOrAfter(s, at + 1);
    if i == |s| || i == 0 then None else Some(s[i - 1].value)
  }

  /** `_timed_value(at, data)` as the loop the source runs. */
  method TimedValue(at: int, s: Samples) returns (r: Option<real>)
    ensures r == AtOrBefore(at, s)
  {
    var value: Option<real> := None;
    var i := 0;
    while i < |s|
      invariant 0 <= i <= FirstAtOrAfter(s, at + 1)
      invariant value == if i == 0 then None else Some(s[i - 1].value)
    {
      if s[i].at > at {
        return value;
      }
      value := Some(s[i].value);
      i := i + 1;
    }
    return None;
  }

  /**
   * On an ascending series the lookup finds nothing exactly when the series is
   * empty, `at` precedes the first key, or `at` is at or after the last key.
   */
  lemma AtOrBeforeNone(at: int, s: Samples)
    requires Ascending(s)
    ensures AtOrBefore(at, s) == None <==> (s == [] || at < s[0].at || s[|s| - 1].at <= at)
  {
    var i := FirstAtOrAfter(s, at + 1);
    if s != [] && s[0].at <= at && at < s[|s| - 1].at {
      assert 0 < i < |s|;
    }
  }

  /**
   * On an ascending series, an instant between two consecutive keys gets the
   * value of the earlier one.
   */
  lemma AtOrBeforeBetween(at: int, s: Samples, j: nat)
    requires Ascending(s)
    requires j + 1 < |s| && s[j].at <= at < s[j + 1].at
    ensures AtOrBefore(at, s) == Some(s[j].value)
  {
    var i := FirstAtOrAfter(s, at + 1);
    assert i == j + 1;
  }
}
