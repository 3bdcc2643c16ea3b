/** Slicing a free window into slots. Instants are epoch milliseconds, intervals are half open. */
module SlotGenerator {
  import opened Arithmetic

  datatype MsInterval = MsInterval(start: int, end: int)

  predicate Overlaps(a: MsInterval, b: MsInterval) {
    a.start < b.end && b.start < a.end
  }

  /** Two proper intervals overlap exactly if some instant lies in both. */
  lemma OverlapsMeans(a: MsInterval, b: MsInterval)
    requires a.start < a.end && b.start < b.end
    ensures Overlaps(a, b) <==> exists t :: Within(a, t) && Within(b, t)
  {
    if Overlaps(a, b) {
      var t := if a.start < b.start then b.start else a.start;
      assert Within(a, t) && Within(b, t);
    }
  }

  predicate Within(a: MsInterval, t: int) {
    a.start <= t < a.end
  }

  predicate Free(slot: MsInterval, blockers: set<MsInterval>) {
    forall b :: b in blockers ==> !Overlaps(slot, b)
  }

  /** A place of the grid that starts at the window's start, in steps of the duration. */
  predicate OnGrid(window: MsInterval, duration: int, slot: MsInterval)
    requires duration > 0
  {
    && slot.end == slot.start + duration
    && window.start <= slot.start && slot.end <= window.end
    && (slot.start - window.start) % duration == 0
  }

  predicate InOrder(slots: seq<MsInterval>) {
    forall i, j :: 0 <= i < j < |slots| ==> slots[i].end <= slots[j].start
  }

  /** Exactly the free grid slots of the window, in order and without overlap. */
  ghost predicate Generated(window: MsInterval, duration: int, blockers: set<MsInterval>, slots: seq<MsInterval>)
    requires duration > 0
  {
    && InOrder(slots)
    && forall s :: s in slots <==> OnGrid(window, duration, s) && Free(s, blockers)
  }

  lemma NextOnGrid(n: int, d: int)
    requires d > 0
    ensures (n + d) % d == n % d
  {
    Division(n + d, d, n / d + 1, n % d);
  }

  /** Between one place of the grid and the next there is no other. */
  lemma NoneBetween(n: int, d: int, x: int)
    requires d > 0 && n % d == 0 && n < x < n + d
    ensures x % d != 0
  {
    if x % d == 0 {
      var a, b := n / d, x / d;
      assert d * (b - a) == x - n;
      if b - a >= 1 { AtLeast(d, b - a); }
      else if b - a <= -1 { assert d * (a - b) == n - x; AtLeast(d, a - b); }
    }
  }

  method GenerateSlots(window: MsInterval, duration: int, blockers: set<MsInterval>) returns (slots: seq<MsInterval>)
    requires duration > 0
    ensures Generated(window, duration, blockers, slots)
  {
    slots := [];
    var start := window.start;
    while start + duration <= window.end
      invariant window.start <= start && (start - window.start) % duration == 0
      invariant InOrder(slots)
      invariant forall s :: s in slots <==> OnGrid(window, duration, s) && Free(s, blockers) && s.start < start
      invariant forall s :: s in slots ==> s.end <= start
      decreases window.end - start
    {
      var slot := MsInterval(start, start + duration);
      forall s | OnGrid(window, duration, s) && start < s.start < start + duration ensures false {
        NoneBetween(start - window.start, duration, s.start - window.start);
      }
      if forall b :: b in blockers ==> !Overlaps(slot, b) {
        slots := slots + [slot];
      }
      NextOnGrid(start - window.start, duration);
      start := start + duration;
    }
  }

  /** The specification determines the list. */
  lemma GeneratedIsUnique(window: MsInterval, duration: int, blockers: set<MsInterval>, a: seq<MsInterval>, b: seq<MsInterval>)
    requires duration > 0 && Generated(window, duration, blockers, a) && Generated(window, duration, blockers, b)
    ensures a == b
  {
    forall i | 0 <= i < |a| ensures a[i].start < a[i].end { assert a[i] in a; }
    forall i | 0 <= i < |b| ensures b[i].start < b[i].end { assert b[i] in b; }
    SameOrderedList(a, b);
  }

  predicate Proper(slots: seq<MsInterval>) {
    forall i :: 0 <= i < |slots| ==> slots[i].start < slots[i].end
  }

  lemma {:induction false} SameOrderedList(a: seq<MsInterval>, b: seq<MsInterval>)
    requires InOrder(a) && InOrder(b) && Proper(a) && Proper(b)
    requires forall s :: s in a <==> s in b
    ensures a == b
  {
    assert b != [] ==> b[0] in b;
    if a == [] {
    } else {
      assert a[0] in b;
      var i :| 0 <= i < |b| && b[i] == a[0];
      assert b[0] in a;
      var j :| 0 <= j < |a| && a[j] == b[0];
      assert a[0] == b[0];
      forall s ensures s in a[1..] <==> s in b[1..] {
        assert s in a[1..] <==> s in a && s != a[0] by { if s in a[1..] { } }
        assert s in b[1..] <==> s in b && s != b[0] by { if s in b[1..] { } }
      }
      SameOrderedList(a[1..], b[1..]);
      assert a == [a[0]] + a[1..] && b == [b[0]] + b[1..];
    }
  }
}
