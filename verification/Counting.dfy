/** Repetition-free sequences and the pigeonhole principle. */
module Counting {
  ghost predicate Unique<T>(s: seq<T>) {
    forall i, j :: 0 <= i < j < |s| ==> s[i] != s[j]
  }

  function Below(n: nat): (range: set<nat>)
    ensures |range| == n
    ensures forall i :: i in range <==> 0 <= i < n
  {
    if n == 0 then {} else Below(n - 1) + {n - 1}
  }

  function Elements(s: seq<nat>): (image: set<nat>)
    ensures forall v :: v in image <==> v in s
  {
    if s == [] then {} else Elements(s[..|s| - 1]) + {s[|s| - 1]}
  }

  lemma UniqueFront(front: seq<nat>, last: nat)
    ensures Unique(front + [last]) <==> Unique(front) && last !in front
  {
    var s := front + [last];
    if last in front {
      var i :| 0 <= i < |front| && front[i] == last;
      assert s[i] == s[|front|];
    } else if !Unique(front) {
      var i, j :| 0 <= i < j < |front| && front[i] == front[j];
      assert s[i] == s[j];
    }
  }

  /** A sequence has as many elements as places exactly when it repeats none. */
  lemma {:induction false} UniqueSize(s: seq<nat>)
    ensures |Elements(s)| <= |s|
    ensures |Elements(s)| == |s| <==> Unique(s)
  {
    if s != [] {
      var front, last := s[..|s| - 1], s[|s| - 1];
      UniqueSize(front);
      UniqueFront(front, last);
      assert s == front + [last];
      if last in front {
        assert Elements(s) == Elements(front);
      }
    }
  }

  lemma {:induction false} SubsetSize(a: set<nat>, b: set<nat>)
    requires a <= b
    ensures |a| <= |b| && (|a| == |b| <==> a == b)
  {
    if a != {} {
      var x :| x in a;
      SubsetSize(a - {x}, b - {x});
    }
  }

  /** Numbers below the length hit every number below it exactly when they repeat none. */
  lemma Pigeonhole(s: seq<nat>)
    requires forall i :: 0 <= i < |s| ==> s[i] < |s|
    ensures (forall f: nat :: f < |s| ==> f in s) <==> Unique(s)
  {
    UniqueSize(s);
    SubsetSize(Elements(s), Below(|s|));
    if !Unique(s) {
      var f :| f in Below(|s|) && f !in Elements(s);
    }
  }
}
