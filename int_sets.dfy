/** The maximum of a finite non-empty set of integers, as Python's `max` computes it over a collection. */
module IntSets {

  /** Every finite non-empty set of integers holds a largest element. */
  lemma {:induction false} MaxExists(s: set<int>)
    requires s != {}
    ensures exists m :: m in s && forall x :: x in s ==> x <= m
    decreases |s|
  {
    if forall x :: x !in s {
      assert false;
    }
    var y :| y in s;
    var rest := s - {y};
    assert forall x :: x in s ==> x == y || x in rest;
    if rest == {} {
      assert s == {y};
      assert y in s && forall x :: x in s ==> x <= y;
    } else {
      MaxExists(rest);
      var m :| m in rest && forall x :: x in rest ==> x <= m;
      if m < y {
        assert forall x :: x in s ==> x <= y;
      } else {
        assert forall x :: x in s ==> x <= m;
      }
    }
  }

  /** The largest element of `s`; it is unique, so the choice below is deterministic. */
  function MaxOf(s: set<int>): (m: int)
    requires s != {}
    ensures m in s
    ensures forall x :: x in s ==> x <= m
  {
    MaxExists(s);
    var m :| m in s && forall x :: x in s ==> x <= m;
    m
  }

  /** Adding one element moves the maximum to that element exactly when it is larger. */
  lemma MaxOfInsert(s: set<int>, y: int)
    requires s != {}
    ensures MaxOf(s + {y}) == if y > MaxOf(s) then y else MaxOf(s)
  {
    var m := MaxOf(s);
    var big := if y > m then y else m;
    assert big in s + {y};
    assert forall x :: x in s + {y} ==> x <= big;
  }
}
