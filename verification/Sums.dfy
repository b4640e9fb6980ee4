/** Sums over finite sets, for sizes that do not depend on an order. */
module Sums {
  ghost function Sum<T(!new)>(s: set<T>, f: T -> nat): nat
    decreases |s|
  {
    if s == {} then 0
    else
      var x :| x in s;
      f(x) + Sum(s - {x}, f)
  }

  /** Any element may be taken out first. */
  lemma {:induction false} SumWithout<T(!new)>(s: set<T>, x: T, f: T -> nat)
    requires x in s
    ensures Sum(s, f) == f(x) + Sum(s - {x}, f)
    decreases |s|
  {
    var y :| y in s && Sum(s, f) == f(y) + Sum(s - {y}, f);
    if y != x {
      SumWithout(s - {y}, x, f);
      SumWithout(s - {x}, y, f);
      assert s - {y} - {x} == s - {x} - {y};
    }
  }

  lemma {:induction false} SumWith<T(!new)>(s: set<T>, x: T, f: T -> nat)
    requires x !in s
    ensures Sum(s + {x}, f) == f(x) + Sum(s, f)
  {
    SumWithout(s + {x}, x, f);
    assert s + {x} - {x} == s;
  }

  /** A smaller set of smaller values has a smaller sum. */
  lemma {:induction false} SumBelow<T(!new)>(s: set<T>, t: set<T>, f: T -> nat, g: T -> nat)
    requires s <= t && forall x | x in s :: f(x) <= g(x)
    ensures Sum(s, f) <= Sum(t, g)
    decreases |t|
  {
    if t != {} {
      var x :| x in t;
      SumWithout(t, x, g);
      if x in s {
        SumWithout(s, x, f);
        SumBelow(s - {x}, t - {x}, f, g);
      } else {
        SumBelow(s, t - {x}, f, g);
      }
    }
  }
}
