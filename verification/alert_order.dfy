/**
 * `ORDER BY timestamp DESC` over the alerts table. The timestamp column is
 * TEXT and may be NULL; SQLite compares TEXT values with the BINARY
 * collation (code point order) and places NULL below every text, so NULL
 * timestamps come last when descending.
 */
module AlertOrder {
  import opened Nullable
  import opened Text
  import opened Alerts

  /** SQLite's ascending order of nullable TEXT values. */
  predicate TimeLess(a: Option<string>, b: Option<string>) {
    if a.None? then b.Some? else b.Some? && LexLess(a.value, b.value)
  }

  lemma TimeLessTotal(a: Option<string>, b: Option<string>)
    ensures a == b || TimeLess(a, b) || TimeLess(b, a)
  {
    if a.Some? && b.Some? {
      LexLessTotal(a.value, b.value);
    }
  }

  lemma TimeLessAsymmetric(a: Option<string>, b: Option<string>)
    requires TimeLess(a, b)
    ensures !TimeLess(b, a)
  {
    if a.Some? {
      LexLessAsymmetric(a.value, b.value);
    }
  }

  /** "Not older than" is transitive. */
  lemma NotOlderTransitive(a: Option<string>, b: Option<string>, c: Option<string>)
    requires !TimeLess(a, b) && !TimeLess(b, c)
    ensures !TimeLess(a, c)
  {
    if a.Some? && b.Some? && c.Some? {
      NotLessTransitive(a.value, b.value, c.value);
    }
  }

  /** Every alert comes no later in time than the alerts before it. */
  predicate NewestFirst(s: seq<Alert>) {
    forall i, j | 0 <= i < j < |s| :: !TimeLess(s[i].timestamp, s[j].timestamp)
  }

  /** An alert not older than any alert of a newest-first list can lead it. */
  lemma ConsNewestFirst(a: Alert, t: seq<Alert>)
    requires NewestFirst(t)
    requires forall k | 0 <= k < |t| :: !TimeLess(a.timestamp, t[k].timestamp)
    ensures NewestFirst([a] + t)
  {
    forall i, j | 0 <= i < j < |[a] + t|
      ensures !TimeLess(([a] + t)[i].timestamp, ([a] + t)[j].timestamp)
    {
      if i > 0 {
        assert ([a] + t)[i] == t[i - 1] && ([a] + t)[j] == t[j - 1];
      }
    }
  }

  /** Not older than the head of a newest-first list is not older than any of it. */
  lemma NotOlderThanHead(x: Alert, s: seq<Alert>)
    requires NewestFirst(s)
    requires |s| == 0 || !TimeLess(x.timestamp, s[0].timestamp)
    ensures forall j | 0 <= j < |s| :: !TimeLess(x.timestamp, s[j].timestamp)
  {
    forall j | 0 <= j < |s| ensures !TimeLess(x.timestamp, s[j].timestamp) {
      if j > 0 {
        NotOlderTransitive(x.timestamp, s[0].timestamp, s[j].timestamp);
      }
    }
  }

  /** The head of a newest-first list is not older than `x` or anything after it. */
  lemma HeadLeadsInsertion(x: Alert, s: seq<Alert>, rest: seq<Alert>)
    requires NewestFirst(s) && |s| > 0
    requires !TimeLess(s[0].timestamp, x.timestamp)
    requires forall i | 0 <= i < |rest| :: rest[i] == x || rest[i] in s[1..]
    ensures forall k | 0 <= k < |rest| :: !TimeLess(s[0].timestamp, rest[k].timestamp)
  {
    forall k | 0 <= k < |rest| ensures !TimeLess(s[0].timestamp, rest[k].timestamp) {
      if rest[k] != x {
        var j :| 0 <= j < |s[1..]| && s[1..][j] == rest[k];
        assert s[j + 1] == rest[k];
      }
    }
  }

  /**
   * Inserts `x` before the first alert it is not older than, so that among
   * equal timestamps the earlier-inserted row stays first.
   */
  function InsertNewestFirst(x: Alert, s: seq<Alert>): (r: seq<Alert>)
    requires NewestFirst(s)
    ensures NewestFirst(r)
    ensures multiset(r) == multiset(s) + multiset{x}
    ensures forall i | 0 <= i < |r| :: r[i] == x || r[i] in s
    decreases |s|
  {
    if |s| == 0 || !TimeLess(x.timestamp, s[0].timestamp) then
      NotOlderThanHead(x, s);
      ConsNewestFirst(x, s);
      [x] + s
    else
      var rest := InsertNewestFirst(x, s[1..]);
      TimeLessAsymmetric(x.timestamp, s[0].timestamp);
      assert s == [s[0]] + s[1..];
      HeadLeadsInsertion(x, s, rest);
      ConsNewestFirst(s[0], rest);
      [s[0]] + rest
  }

  /** A stable insertion sort, newest first: the same alerts, reordered. */
  function SortNewestFirst(s: seq<Alert>): (r: seq<Alert>)
    ensures NewestFirst(r)
    ensures multiset(r) == multiset(s)
    ensures |r| == |s|
    decreases |s|
  {
    if |s| == 0 then []
    else
      assert s == [s[0]] + s[1..];
      InsertNewestFirst(s[0], SortNewestFirst(s[1..]))
  }
}
