/** Picking from and counting finite sets. */
module Sets {

  /** Any element: loops over a set do not rely on the order of its iterator. */
  method Pick<T>(s: set<T>) returns (x: T)
    requires |s| > 0
    ensures x in s
  {
    x :| x in s;
  }

  lemma Member<T>(s: set<T>) returns (x: T)
    requires |s| > 0
    ensures x in s
  {
    x :| x in s;
  }

  lemma OnlyMember<T>(s: set<T>, x: T)
    requires |s| == 1 && x in s
    ensures s == {x}
  {
    assert |s - {x}| == 0;
  }

  /** The numbers below `n`. */
  ghost function Upto(n: nat): (r: set<int>)
    ensures forall i :: i in r <==> 0 <= i < n
    ensures |r| == n
  {
    if n == 0 then {} else Upto(n - 1) + {n - 1}
  }

  // ---- Least elements ------------------------------------------------------------------

  ghost predicate IsLeast(m: int, s: set<int>) {
    m in s && forall x :: x in s ==> m <= x
  }

  lemma {:induction false} LeastExists(s: set<int>)
    requires |s| > 0
    ensures exists m :: IsLeast(m, s)
  {
    var x := Member(s);
    var rest := s - {x};
    var l := x;
    if rest != {} {
      LeastExists(rest);
      var m :| IsLeast(m, rest);
      l := if m < x then m else x;
    }
    forall y | y in s
      ensures l <= y
    {
      assert y == x || y in rest;
    }
    assert IsLeast(l, s);
  }

  ghost function MinOf(s: set<int>): (m: int)
    requires s != {}
    ensures IsLeast(m, s)
  {
    LeastExists(s);
    var m :| IsLeast(m, s);
    m
  }
}
