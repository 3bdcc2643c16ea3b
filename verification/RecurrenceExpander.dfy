/** Expansion of a recurrence rule. Days are integers, day 0 is a Monday; the start instant of an
    occurrence is its local day at the rule's fixed wall-clock time. */
module RecurrenceExpander {
  import opened Arithmetic

  datatype Freq = Daily | Weekly

  /** `Impossible` is a well-formed date that does not exist: luxon compares it with nothing, so it
      bounds nothing. */
  datatype Until = Unbounded | Impossible | LastDay(day: int)

  datatype Start = NoSuchDay | OnDay(day: int)

  /** No weekdays (absent or empty) means the weekday of the start. */
  datatype Rule = Rule(freq: Freq, interval: int, weekdays: seq<int>, start: Start, count: CountOpt, until: Until)
  datatype CountOpt = NoCount | Count(n: int)

  const MAX_OCCURRENCES := 100

  predicate WellFormed(rule: Rule) {
    rule.interval >= 1 && forall k :: 0 <= k < |rule.weekdays| ==> 0 <= rule.weekdays[k] <= 6
  }

  /** 1 = Monday … 7 = Sunday, as luxon counts. */
  function Weekday(day: int): int {
    day % 7 + 1
  }

  /** 0 = Sunday … 6 = Saturday, as working hours count. */
  function ToSun0(day: int): int {
    Weekday(day) % 7
  }

  function StartOfWeek(day: int): int {
    day - day % 7
  }

  function WeekIndex(start: int, day: int): int {
    (StartOfWeek(day) - StartOfWeek(start)) / 7
  }

  /** The set of chosen weekdays, as one flag for each day from Sunday to Saturday. */
  function Chosen(rule: Rule, start: int): (w: seq<bool>)
    requires WellFormed(rule)
    ensures |w| == 7 && Size(w) >= 1
  {
    var listed := if rule.weekdays == [] then [ToSun0(start)] else rule.weekdays;
    var w := seq(7, d requires 0 <= d < 7 => d in listed);
    assert w[listed[0]];
    SizePositive(w, listed[0]);
    w
  }

  function Size(w: seq<bool>): nat {
    if w == [] then 0 else Size(w[..|w| - 1]) + if w[|w| - 1] then 1 else 0
  }

  lemma SizePositive(w: seq<bool>, d: int)
    requires 0 <= d < |w| && w[d]
    ensures Size(w) >= 1
  {
  }

  function Limit(rule: Rule): int {
    if rule.count.Count? && rule.count.n < MAX_OCCURRENCES then rule.count.n else MAX_OCCURRENCES
  }

  function Cap(rule: Rule): nat {
    if Limit(rule) > 0 then Limit(rule) else 0
  }

  predicate Past(until: Until, day: int) {
    until.LastDay? && day > until.day
  }

  // ----- the declarative meaning of a rule -----

  /** The rule fires on this day, its `count` aside. */
  predicate Fires(rule: Rule, day: int)
    requires WellFormed(rule)
  {
    && rule.start.OnDay? && rule.start.day <= day && !Past(rule.until, day)
    && match rule.freq
       case Daily => (day - rule.start.day) % rule.interval == 0
       case Weekly => InActiveWeek(rule, rule.start.day, day)
  }

  predicate InActiveWeek(rule: Rule, start: int, day: int)
    requires WellFormed(rule)
  {
    WeekIndex(start, day) % rule.interval == 0 && Chosen(rule, start)[ToSun0(day)]
  }

  /** The chosen days of a Monday-first week. */
  lemma ChosenDays(rule: Rule, start: int, day: int)
    requires WellFormed(rule)
    ensures Chosen(rule, start)[ToSun0(day)] <==>
      if rule.weekdays == [] then day % 7 == start % 7 else exists w :: w in rule.weekdays && day % 7 == (w + 6) % 7
  {
    var w := ToSun0(day);
    assert w == (day % 7 + 1) % 7;
    if rule.weekdays != [] {
      assert day % 7 == (w + 6) % 7;
      forall v | v in rule.weekdays && day % 7 == (v + 6) % 7 ensures v == w {
        var k :| 0 <= k < |rule.weekdays| && rule.weekdays[k] == v;
      }
    }
  }

  lemma WeeksApart(start: int, day: int)
    ensures WeekIndex(start, day) == (day - day % 7 - (start - start % 7)) / 7
  {
  }

  /** What firing means on the calendar, where day 0 is a Monday: from the start to the last day, every
      `interval` days, or in every `interval`-th week counted from the start's on each listed weekday,
      0 for Sunday to 6 for Saturday, the start's own if none is listed. */
  lemma FiresMeans(rule: Rule, d: int)
    requires WellFormed(rule) && rule.start.OnDay?
    ensures
      var a := rule.start.day;
      Fires(rule, d) <==>
        && a <= d && !(rule.until.LastDay? && d > rule.until.day)
        && if rule.freq == Daily then (d - a) % rule.interval == 0
           else
             && ((d - d % 7 - (a - a % 7)) / 7) % rule.interval == 0
             && if rule.weekdays == [] then d % 7 == a % 7 else exists w :: w in rule.weekdays && d % 7 == (w + 6) % 7
  {
    ChosenDays(rule, rule.start.day, d);
    WeeksApart(rule.start.day, d);
  }

  predicate Increasing(out: seq<int>) {
    forall i, j :: 0 <= i < j < |out| ==> out[i] < out[j]
  }

  /** `out` is the rule's first `limit` firing days: in order, only firing days, none skipped. */
  ghost predicate Expands(rule: Rule, out: seq<int>)
    requires WellFormed(rule)
  {
    && Increasing(out) && |out| <= Cap(rule)
    && (forall d :: d in out ==> Fires(rule, d))
    && (forall d :: Fires(rule, d) && d !in out ==> |out| == Cap(rule) && (out != [] ==> d > out[|out| - 1]))
  }

  /** The meaning determines the list. */
  lemma ExpansionIsUnique(rule: Rule, a: seq<int>, b: seq<int>)
    requires WellFormed(rule) && Expands(rule, a) && Expands(rule, b)
    ensures a == b
  {
    var k := if |a| <= |b| then |a| else |b|;
    PrefixesAgree(rule, a, b, k);
    PrefixesAgree(rule, b, a, k);
  }

  lemma {:induction false} PrefixesAgree(rule: Rule, a: seq<int>, b: seq<int>, k: nat)
    requires WellFormed(rule) && Expands(rule, a) && Expands(rule, b)
    requires k <= |a| && k <= |b|
    ensures a[..k] == b[..k]
    ensures k == |a| ==> |b| == |a|
  {
    if k > 0 {
      PrefixesAgree(rule, a, b, k - 1);
      assert a[k - 1] in a && b[k - 1] in b;
      if a[k - 1] < b[k - 1] {
        NotEarlier(rule, a, b, k - 1);
      } else if b[k - 1] < a[k - 1] {
        NotEarlier(rule, b, a, k - 1);
      }
      assert a[..k] == a[..k - 1] + [a[k - 1]] && b[..k] == b[..k - 1] + [b[k - 1]];
    }
    NextIsNew(a, b);
  }

  /** What comes after a prefix of an increasing list is not in the prefix. */
  lemma NextIsNew(a: seq<int>, b: seq<int>)
    ensures |a| < |b| && a[..|a|] == b[..|a|] && Increasing(b) ==> b[|a|] in b && b[|a|] !in a
  {
    if |a| < |b| && a[..|a|] == b[..|a|] && Increasing(b) {
      forall i | 0 <= i < |a| ensures a[i] < b[|a|] { assert a[..|a|][i] == b[..|a|][i]; }
    }
  }

  lemma NotEarlier(rule: Rule, a: seq<int>, b: seq<int>, k: nat)
    requires WellFormed(rule) && Expands(rule, a) && Expands(rule, b)
    requires k < |a| && k < |b| && a[..k] == b[..k]
    ensures a[k] >= b[k]
  {
    if a[k] < b[k] {
      assert a[k] in a;
      forall i | 0 <= i < |b| ensures b[i] != a[k] {
        if i < k { assert a[..k][i] == b[..k][i]; }
      }
      assert false;
    }
  }

  // ----- the scan bound of the weekly expansion -----

  function CeilDiv(n: int, p: int): (c: int)
    requires p >= 1
    ensures c * p >= n
    ensures c * p < n + p
  {
    (n + p - 1) / p
  }

  function MaxScanDays(rule: Rule, limit: int, perActiveWeek: int): int
    requires perActiveWeek >= 1
  {
    CeilDiv(limit, perActiveWeek) * rule.interval * 7 + 7
  }

  /** How many of the `n` days from `from` on lie in an active week and on a chosen weekday. */
  function Hits(rule: Rule, start: int, from: int, n: nat): nat
    requires WellFormed(rule)
  {
    if n == 0 then 0
    else Hits(rule, start, from, n - 1) + if InActiveWeek(rule, start, from + n - 1) then 1 else 0
  }

  lemma {:induction false} HitsSplit(rule: Rule, start: int, from: int, m: nat, n: nat)
    requires WellFormed(rule)
    ensures Hits(rule, start, from, m + n) == Hits(rule, start, from, m) + Hits(rule, start, from + m, n)
  {
    if n > 0 {
      HitsSplit(rule, start, from, m, n - 1);
      assert m + n - 1 == m + (n - 1) && from + (m + n) - 1 == from + m + n - 1;
    }
  }

  function Bit(b: bool): nat {
    if b then 1 else 0
  }

  lemma SizeOfWeek(w: seq<bool>)
    requires |w| == 7
    ensures Size(w) == Bit(w[0]) + Bit(w[1]) + Bit(w[2]) + Bit(w[3]) + Bit(w[4]) + Bit(w[5]) + Bit(w[6])
  {
    assert w[..7] == w;
    SizePrefix(w, 1); SizePrefix(w, 2); SizePrefix(w, 3); SizePrefix(w, 4);
    SizePrefix(w, 5); SizePrefix(w, 6); SizePrefix(w, 7);
  }

  lemma SizePrefix(w: seq<bool>, n: nat)
    requires 0 < n <= |w|
    ensures Size(w[..n]) == Size(w[..n - 1]) + Bit(w[n - 1])
  {
    assert w[..n][..n - 1] == w[..n - 1];
  }

  /** Chosen weekdays among the first `n` days of a Monday-first week. */
  function FromMonday(w: seq<bool>, n: nat): nat
    requires |w| == 7 && n <= 7
  {
    if n == 0 then 0 else FromMonday(w, n - 1) + Bit(w[n % 7])
  }

  lemma {:induction false} WeekHits(rule: Rule, start: int, week: int, n: nat)
    requires WellFormed(rule) && week >= 0 && week % rule.interval == 0 && n <= 7
    ensures Hits(rule, start, StartOfWeek(start) + 7 * week, n) == FromMonday(Chosen(rule, start), n)
  {
    if n > 0 {
      WeekHits(rule, start, week, n - 1);
      WeekOf(start, week, n - 1);
    }
  }

  /** A whole active week has one hit for each chosen weekday. */
  lemma ActiveWeekHits(rule: Rule, start: int, week: int)
    requires WellFormed(rule) && week >= 0 && week % rule.interval == 0
    ensures Hits(rule, start, StartOfWeek(start) + 7 * week, 7) == Size(Chosen(rule, start))
  {
    var w := Chosen(rule, start);
    WeekHits(rule, start, week, 7);
    SizeOfWeek(w);
    assert FromMonday(w, 1) == FromMonday(w, 0) + Bit(w[1]);
    assert FromMonday(w, 2) == Bit(w[1]) + Bit(w[2]);
    assert FromMonday(w, 4) == FromMonday(w, 2) + Bit(w[3]) + Bit(w[4]);
    assert FromMonday(w, 6) == FromMonday(w, 4) + Bit(w[5]) + Bit(w[6]);
  }

  lemma WeekOf(start: int, week: int, i: int)
    requires 0 <= i < 7
    ensures WeekIndex(start, StartOfWeek(start) + 7 * week + i) == week
    ensures ToSun0(StartOfWeek(start) + 7 * week + i) == (i + 1) % 7
  {
    var k := start / 7;
    assert StartOfWeek(start) == 7 * k;
    assert StartOfWeek(start) + 7 * week + i == 7 * (k + week) + i;
    assert (7 * (k + week) + i) % 7 == i;
  }

  /** The days from the start to the end of the week with this index. */
  function DaysThrough(start: int, week: nat): (n: nat)
    ensures start + n == StartOfWeek(start) + 7 * week + 7
  {
    StartOfWeek(start) + 7 * week + 7 - start
  }

  /** From the end of one active week to the end of the next there is a full quota of hits. */
  lemma NextActiveWeek(rule: Rule, start: int, week: nat)
    requires WellFormed(rule) && (week + rule.interval) % rule.interval == 0
    ensures Hits(rule, start, start, DaysThrough(start, week + rule.interval))
      >= Hits(rule, start, start, DaysThrough(start, week)) + Size(Chosen(rule, start))
  {
    var n, gap := DaysThrough(start, week), 7 * (rule.interval - 1);
    HitsSplit(rule, start, start, n, gap);
    HitsSplit(rule, start, start, n + gap, 7);
    ActiveWeekHits(rule, start, week + rule.interval);
  }

  lemma {:induction false} ActiveWeeksHit(rule: Rule, start: int, c: nat)
    requires WellFormed(rule)
    ensures c * rule.interval >= 0
    ensures Hits(rule, start, start, DaysThrough(start, c * rule.interval)) >= c * Size(Chosen(rule, start))
  {
    if c > 0 {
      ActiveWeeksHit(rule, start, c - 1);
      var week := (c - 1) * rule.interval;
      assert week + rule.interval == c * rule.interval;
      Division(c * rule.interval, rule.interval, c, 0);
      NextActiveWeek(rule, start, week);
      assert c * Size(Chosen(rule, start)) == (c - 1) * Size(Chosen(rule, start)) + Size(Chosen(rule, start));
    }
  }

  /** The scan bound never truncates: the scanned days hold at least `limit` hits. */
  lemma ScanBoundSuffices(rule: Rule, start: int, limit: int)
    requires WellFormed(rule)
    ensures
      var days := MaxScanDays(rule, limit, Size(Chosen(rule, start)));
      days >= 0 ==> Hits(rule, start, start, days) >= limit
    ensures limit > 0 ==> MaxScanDays(rule, limit, Size(Chosen(rule, start))) >= 0
  {
    if limit > 0 {
      var p := Size(Chosen(rule, start));
      var c := CeilDiv(limit, p);
      ActiveWeeksHit(rule, start, c);
      var days := MaxScanDays(rule, limit, p);
      var n := DaysThrough(start, c * rule.interval);
      HitsSplit(rule, start, start, n, days - n);
    }
  }

  // ----- the loops -----

  /** The days that fire before `end` are exactly those collected so far. */
  ghost predicate Collected(rule: Rule, out: seq<int>, end: int)
    requires WellFormed(rule)
  {
    && Increasing(out)
    && (forall d :: d in out ==> Fires(rule, d) && d < end)
    && (forall d :: Fires(rule, d) && d < end ==> d in out)
  }

  lemma Collect(rule: Rule, out: seq<int>, day: int, end: int)
    requires WellFormed(rule) && Collected(rule, out, day) && day < end
    requires forall d :: day < d < end ==> !Fires(rule, d)
    ensures Collected(rule, if Fires(rule, day) then out + [day] else out, end)
  {
    var out' := if Fires(rule, day) then out + [day] else out;
    forall i, j | 0 <= i < j < |out'| ensures out'[i] < out'[j] {
      assert out'[i] == out[i] && out[i] in out;
    }
  }

  /** Stopping at the limit, or with nothing left that fires, completes the expansion. */
  lemma Complete(rule: Rule, out: seq<int>, end: int)
    requires WellFormed(rule) && Collected(rule, out, end)
    requires |out| == Cap(rule) || (|out| < Cap(rule) && forall d :: d >= end ==> !Fires(rule, d))
    ensures Expands(rule, out)
  {
    if out != [] {
      assert out[|out| - 1] in out;
    }
  }

  lemma CompleteAtUntil(rule: Rule, out: seq<int>, end: int)
    requires WellFormed(rule) && Collected(rule, out, end) && |out| <= Cap(rule) && Past(rule.until, end)
    ensures Expands(rule, out)
  {
    forall d | d >= end ensures !Fires(rule, d) { }
    Complete(rule, out, end);
  }

  method ExpandDaily(rule: Rule, start: int, limit: int) returns (out: seq<int>)
    requires WellFormed(rule) && rule.freq == Daily && rule.start == OnDay(start) && limit == Limit(rule)
    ensures Expands(rule, out)
    ensures !rule.until.LastDay? ==> |out| == Cap(rule)
  {
    out := [];
    var cur := start;
    ghost var steps := 0;
    while |out| < limit
      invariant steps >= 0 && cur == start + rule.interval * steps
      invariant |out| <= Cap(rule)
      invariant Collected(rule, out, cur)
      decreases limit - |out|
    {
      if Past(rule.until, cur) {
        CompleteAtUntil(rule, out, cur);
        return;
      }
      assert cur + rule.interval == start + rule.interval * (steps + 1);
      DailyGap(rule, start, steps);
      Collect(rule, out, cur, cur + rule.interval);
      out := out + [cur];
      cur, steps := cur + rule.interval, steps + 1;
    }
    Complete(rule, out, cur);
  }

  lemma DailyGap(rule: Rule, start: int, steps: nat)
    requires WellFormed(rule) && rule.freq == Daily && rule.start == OnDay(start)
    ensures !Past(rule.until, start + rule.interval * steps) ==> Fires(rule, start + rule.interval * steps)
    ensures forall d :: start + rule.interval * steps < d < start + rule.interval * steps + rule.interval ==> !Fires(rule, d)
  {
    var n := rule.interval;
    Division(n * steps, n, steps, 0);
    assert n * steps >= 0;
    forall d | start + n * steps < d < start + n * steps + n ensures !Fires(rule, d) {
      Division(d - start, n, steps, d - start - n * steps);
    }
  }

  /** One day of the scan: it is collected exactly if it lies in an active week on a chosen weekday. */
  lemma ScanOne(rule: Rule, start: int, before: seq<int>, out: seq<int>, day: int, scanned: nat)
    requires WellFormed(rule) && rule.freq == Weekly && rule.start == OnDay(start) && day == start + scanned
    requires Collected(rule, before, day) && !Past(rule.until, day)
    requires |before| == Hits(rule, start, start, scanned)
    requires out == if InActiveWeek(rule, start, day) then before + [day] else before
    ensures Collected(rule, out, day + 1) && |out| == Hits(rule, start, start, scanned + 1)
  {
    Collect(rule, before, day, day + 1);
    assert Fires(rule, day) == InActiveWeek(rule, start, day);
  }

  method ExpandWeekly(rule: Rule, start: int, limit: int) returns (out: seq<int>)
    requires WellFormed(rule) && rule.freq == Weekly && rule.start == OnDay(start) && limit == Limit(rule)
    ensures Expands(rule, out)
    ensures !rule.until.LastDay? ==> |out| == Cap(rule)
  {
    var weekdays := Chosen(rule, start);
    var perActiveWeek := if Size(weekdays) > 1 then Size(weekdays) else 1;
    var maxScanDays := MaxScanDays(rule, limit, perActiveWeek);
    if limit > 0 { ScanBoundSuffices(rule, start, limit); }

    out := [];
    var cursor, scanned := start, 0;
    while |out| < limit && scanned < maxScanDays
      invariant 0 <= scanned && (maxScanDays >= 0 ==> scanned <= maxScanDays) && cursor == start + scanned
      invariant |out| <= Cap(rule)
      invariant Collected(rule, out, cursor)
      invariant |out| == Hits(rule, start, start, scanned)
      decreases maxScanDays - scanned
    {
      if Past(rule.until, cursor) {
        CompleteAtUntil(rule, out, cursor);
        return;
      }
      ghost var before := out;
      var weekIndex := WeekIndex(start, cursor);
      if weekIndex % rule.interval == 0 && weekdays[ToSun0(cursor)] {
        out := out + [cursor];
      }
      ScanOne(rule, start, before, out, cursor, scanned);
      cursor, scanned := cursor + 1, scanned + 1;
    }
    Complete(rule, out, cursor);
  }

  method ExpandRecurrence(rule: Rule) returns (out: seq<int>)
    requires WellFormed(rule)
    ensures Expands(rule, out)
    ensures rule.start.NoSuchDay? ==> out == []
    ensures |out| <= 100 && (rule.count.Count? && rule.count.n >= 0 ==> |out| <= rule.count.n)
    ensures rule.start.OnDay? && !rule.until.LastDay? ==>
      |out| == if rule.count.Count? && rule.count.n < 100 then (if rule.count.n > 0 then rule.count.n else 0) else 100
  {
    if rule.start.NoSuchDay? { return []; }
    if rule.freq == Daily {
      out := ExpandDaily(rule, rule.start.day, Limit(rule));
    } else {
      out := ExpandWeekly(rule, rule.start.day, Limit(rule));
    }
  }

  // ----- equivalent rules -----

  lemma SameMeaning(a: Rule, b: Rule, out: seq<int>)
    requires WellFormed(a) && WellFormed(b) && Limit(a) == Limit(b)
    requires forall d :: Fires(a, d) <==> Fires(b, d)
    ensures Expands(a, out) <==> Expands(b, out)
  {
  }

  lemma SameWeekday(start: int, day: int)
    ensures ToSun0(start) == ToSun0(day) <==> (day - start) % 7 == 0
    ensures ToSun0(start) == ToSun0(day) ==> WeekIndex(start, day) == (day - start) / 7
  {
  }

  /** Every `n` whole weeks is every `7n` days. */
  lemma WholeWeeks(x: int, n: int)
    requires n >= 1
    ensures x % 7 == 0 && (x / 7) % n == 0 <==> x % (7 * n) == 0
  {
    if x % 7 == 0 && (x / 7) % n == 0 {
      var q := x / 7 / n;
      assert x == 7 * (n * q) == (7 * n) * q;
      Division(x, 7 * n, q, 0);
    }
    if x % (7 * n) == 0 {
      var q := x / (7 * n);
      assert x == (7 * n) * q == 7 * (n * q);
      Division(x, 7, n * q, 0);
      Division(n * q, n, q, 0);
    }
  }

  /** A weekly rule without weekdays and with interval `n` is the daily rule with interval `7n`. */
  lemma WeeklyIsSevenTimesDaily(rule: Rule, out: seq<int>)
    requires WellFormed(rule) && rule.freq == Weekly && rule.weekdays == []
    ensures Expands(rule, out) <==> Expands(rule.(freq := Daily, interval := 7 * rule.interval), out)
  {
    var daily := rule.(freq := Daily, interval := 7 * rule.interval);
    if rule.start.OnDay? {
      var start := rule.start.day;
      forall d ensures Fires(rule, d) <==> Fires(daily, d) {
        SameWeekday(start, d);
        WholeWeeks(d - start, rule.interval);
        assert Chosen(rule, start)[ToSun0(d)] <==> ToSun0(d) == ToSun0(start);
      }
    }
    SameMeaning(rule, daily, out);
  }

  /** A weekly rule with all seven weekdays and interval 1 is the daily rule with interval 1. */
  lemma AllWeekdaysIsDaily(rule: Rule, out: seq<int>)
    requires WellFormed(rule) && rule.freq == Weekly && rule.interval == 1
    requires forall w :: 0 <= w <= 6 ==> w in rule.weekdays
    ensures Expands(rule, out) <==> Expands(rule.(freq := Daily, weekdays := []), out)
  {
    var daily := rule.(freq := Daily, weekdays := []);
    assert 0 in rule.weekdays;
    forall d ensures Fires(rule, d) <==> Fires(daily, d) {
      if rule.start.OnDay? {
        assert ToSun0(d) in rule.weekdays;
        assert Chosen(rule, rule.start.day)[ToSun0(d)];
      }
    }
    SameMeaning(rule, daily, out);
  }
}
