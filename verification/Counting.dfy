/** How many of the places in a sequence hold a given resource. */
module Counting {

  function Count<T>(s: seq<T>, holds: (T, nat) -> nat, r: nat): nat {
    if s == [] then 0 else Count(s[..|s| - 1], holds, r) + holds(s[|s| - 1], r)
  }

  lemma CountSnoc<T>(s: seq<T>, x: T, holds: (T, nat) -> nat, r: nat)
    ensures Count(s + [x], holds, r) == Count(s, holds, r) + holds(x, r)
  {
    assert (s + [x])[..|s|] == s;
  }

  lemma {:induction false} CountUpdate<T>(s: seq<T>, i: nat, x: T, holds: (T, nat) -> nat, r: nat)
    requires i < |s|
    ensures Count(s[i := x], holds, r) + holds(s[i], r) == Count(s, holds, r) + holds(x, r)
  {
    var n := |s| - 1;
    if i == n {
      assert s[i := x][..n] == s[..n];
    } else {
      assert s[i := x][..n] == s[..n][i := x];
      CountUpdate(s[..n], i, x, holds, r);
    }
  }

  lemma {:induction false} CountUncons<T>(s: seq<T>, holds: (T, nat) -> nat, r: nat)
    requires s != []
    ensures Count(s, holds, r) == holds(s[0], r) + Count(s[1..], holds, r)
  {
    var n := |s| - 1;
    if n > 0 {
      CountUncons(s[..n], holds, r);
      assert s[..n][1..] == s[1..][..n - 1];
    } else {
      assert s[..0] == [] && s[1..] == [];
    }
  }

  lemma {:induction false} CountOne<T>(s: seq<T>, i: nat, holds: (T, nat) -> nat, r: nat)
    requires i < |s|
    ensures holds(s[i], r) <= Count(s, holds, r)
  {
    if i < |s| - 1 {
      CountOne(s[..|s| - 1], i, holds, r);
    }
  }

  lemma {:induction false} CountTwo<T>(s: seq<T>, i: nat, j: nat, holds: (T, nat) -> nat, r: nat)
    requires i < |s| && j < |s| && i != j
    ensures holds(s[i], r) + holds(s[j], r) <= Count(s, holds, r)
  {
    var n := |s| - 1;
    if i == n {
      CountOne(s[..n], j, holds, r);
    } else if j == n {
      CountOne(s[..n], i, holds, r);
    } else {
      CountTwo(s[..n], i, j, holds, r);
    }
  }

  lemma {:induction false} CountNone<T>(s: seq<T>, holds: (T, nat) -> nat, r: nat)
    requires forall i :: 0 <= i < |s| ==> holds(s[i], r) == 0
    ensures Count(s, holds, r) == 0
  {
    if s != [] {
      CountNone(s[..|s| - 1], holds, r);
    }
  }
}
