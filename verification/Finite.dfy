module Finite {
  /** An integer beyond every member of a finite set. */
  lemma Beyond(used: set<int>) returns (n: int)
    ensures forall u :: u in used ==> u < n
  {
    if u :| u in used {
      var m := Beyond(used - {u});
      n := if m <= u then u + 1 else m;
      assert used == (used - {u}) + {u};
    } else {
      n := 0;
    }
  }
}
