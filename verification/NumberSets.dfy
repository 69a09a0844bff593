/** Finite sets of numbers. */
module NumberSets {
  // Some number is above all members.
  lemma {:induction false} Above(s: set<nat>) returns (bound: nat)
    ensures forall n | n in s :: n < bound
    decreases |s|
  {
    if s == {} {
      bound := 0;
    } else {
      var m :| m in s;
      var rest := Above(s - {m});
      bound := if rest > m then rest else m + 1;
      assert forall n | n in s :: n == m || n in s - {m};
    }
  }
}
