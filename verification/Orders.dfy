/** Ascending lists of integers, and the one step of integer arithmetic Dafny needs help with. */
module Orders {

  predicate Ascending(xs: seq<int>) {
    forall i, j | 0 <= i < j < |xs| :: xs[i] < xs[j]
  }

  function Inserted(xs: seq<int>, x: int): (ys: seq<int>)
    ensures forall y :: y in ys <==> y == x || y in xs
  {
    if xs == [] || x < xs[0] then [x] + xs
    else
      assert xs == [xs[0]] + xs[1..];
      [xs[0]] + Inserted(xs[1..], x)
  }

  lemma {:induction false} InsertedAscending(xs: seq<int>, x: int)
    requires Ascending(xs) && x !in xs
    ensures Ascending(Inserted(xs, x))
  {
    if xs != [] && x >= xs[0] {
      InsertedAscending(xs[1..], x);
      var rest := Inserted(xs[1..], x);
      assert xs == [xs[0]] + xs[1..];
      forall j | 0 <= j < |rest| ensures xs[0] < rest[j] {
        assert rest[j] in rest;
      }
    }
  }

  lemma TailElements(xs: seq<int>, x: int)
    requires xs != [] && Ascending(xs)
    ensures x in xs[1..] <==> x in xs && x != xs[0]
    ensures x in xs ==> xs[0] <= x
  {
    assert xs == [xs[0]] + xs[1..];
    if x in xs[1..] {
      var k :| 0 <= k < |xs[1..]| && xs[1..][k] == x;
      assert xs[k + 1] == x;
    }
  }

  /** Ascending lists with the same elements are the same list. */
  lemma {:induction false} AscendingIsUnique(xs: seq<int>, ys: seq<int>)
    requires Ascending(xs) && Ascending(ys) && forall x :: x in xs <==> x in ys
    ensures xs == ys
  {
    assert |xs| > 0 ==> xs[0] in xs;
    assert |ys| > 0 ==> ys[0] in ys;
    if xs != [] {
      TailElements(xs, ys[0]);
      TailElements(ys, xs[0]);
      forall x ensures x in xs[1..] <==> x in ys[1..] {
        TailElements(xs, x);
        TailElements(ys, x);
      }
      AscendingIsUnique(xs[1..], ys[1..]);
      assert xs == [xs[0]] + xs[1..] && ys == [ys[0]] + ys[1..];
    }
  }

  lemma Pick(s: set<int>) returns (x: int)
    requires s != {}
    ensures x in s
  {
    assert (forall y :: y !in s) ==> s == {};
    x :| x in s;
  }

  lemma {:induction false} SortedExists(s: set<int>)
    ensures exists xs: seq<int> :: Ascending(xs) && forall x :: x in xs <==> x in s
    decreases |s|
  {
    if s == {} {
      assert Ascending([]) && forall x :: x in [] <==> x in s;
    } else {
      var x := Pick(s);
      SortedExists(s - {x});
      var xs: seq<int> :| Ascending(xs) && forall y :: y in xs <==> y in s - {x};
      InsertedAscending(xs, x);
      assert Ascending(Inserted(xs, x)) && forall y :: y in Inserted(xs, x) <==> y in s;
    }
  }

  ghost function Sorted(s: set<int>): (xs: seq<int>)
    ensures Ascending(xs) && forall x :: x in xs <==> x in s
  {
    SortedExists(s);
    var xs: seq<int> :| Ascending(xs) && forall x :: x in xs <==> x in s;
    xs
  }

  method Sort(s: set<int>) returns (xs: seq<int>)
    ensures xs == Sorted(s) && Ascending(xs) && forall x :: x in xs <==> x in s
  {
    xs := [];
    var left := s;
    while left != {}
      invariant left <= s && Ascending(xs)
      invariant forall x :: x in xs <==> x in s && x !in left
      decreases |left|
    {
      assert (forall y :: y !in left) ==> left == {};
      var x :| x in left;
      InsertedAscending(xs, x);
      xs, left := Inserted(xs, x), left - {x};
    }
    AscendingIsUnique(xs, Sorted(s));
  }

  lemma MulMonotone(a: int, b: int, c: int)
    requires a <= b && c >= 0
    ensures a * c <= b * c
  {
  }
}
