/** Identifiers are unbounded, so a fresh one always exists. */
module Identifiers {
  lemma {:induction false} FreshId(used: set<nat>)
    ensures exists id: nat :: id !in used
  {
    if forall id: nat :: id in used {
      AllBelow(used, |used| + 1);
    }
  }

  lemma {:induction false} AllBelow(used: set<nat>, n: nat)
    requires forall id: nat :: id < n ==> id in used
    ensures |used| >= n
  {
    if n > 0 {
      AllBelow(used - {n - 1}, n - 1);
    }
  }
}
