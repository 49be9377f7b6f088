// Sequence vocabulary shared by the other modules.
module Lists {

  ghost predicate NoDup<T>(xs: seq<T>) {
    forall i, j :: 0 <= i < j < |xs| ==> xs[i] != xs[j]
  }

  /** std::list::remove: drops every occurrence of x and keeps the order of the rest. */
  function Remove<T(==)>(xs: seq<T>, x: T): (r: seq<T>)
    ensures x !in r
    ensures |r| <= |xs|
    ensures forall y :: y in r ==> y in xs
    ensures forall y :: y in xs && y != x ==> y in r
    ensures x !in xs ==> r == xs
  {
    if xs == [] then []
    else if xs[0] == x then Remove(xs[1..], x)
    else [xs[0]] + Remove(xs[1..], x)
  }

  lemma {:induction false} NoDupCons<T>(x: T, xs: seq<T>)
    requires NoDup(xs) && x !in xs
    ensures NoDup([x] + xs)
  {
  }

  lemma {:induction false} RemoveNoDup<T>(xs: seq<T>, x: T)
    requires NoDup(xs)
    ensures NoDup(Remove(xs, x))
    ensures x in xs ==> |Remove(xs, x)| == |xs| - 1
  {
    if xs != [] {
      NoDupTail(xs, 1);
      RemoveNoDup(xs[1..], x);
      if xs[0] != x {
        NoDupCons(xs[0], Remove(xs[1..], x));
      }
    }
  }

  lemma {:induction false} NoDupAppend<T>(xs: seq<T>, x: T)
    requires NoDup(xs) && x !in xs
    ensures NoDup(xs + [x])
  {
  }

  lemma {:induction false} NoDupTail<T>(xs: seq<T>, n: nat)
    requires NoDup(xs) && n <= |xs|
    ensures NoDup(xs[n..])
    ensures forall i :: 0 <= i < n ==> xs[i] !in xs[n..]
  {
  }

  lemma {:induction false} SeqAssoc<T>(a: seq<T>, b: seq<T>, c: seq<T>)
    ensures a + (b + c) == (a + b) + c
  {
  }

  /** x comes somewhere in front of y. */
  ghost predicate Before<T>(xs: seq<T>, x: T, y: T) {
    exists i, j :: 0 <= i < j < |xs| && xs[i] == x && xs[j] == y
  }

  lemma {:induction false} BeforeConcat<T>(xs: seq<T>, ys: seq<T>, x: T, y: T)
    requires Before(xs, x, y) || Before(ys, x, y) || (x in xs && y in ys)
    ensures Before(xs + ys, x, y)
  {
    var n := |xs|;
    assert forall j :: 0 <= j < |ys| ==> (xs + ys)[n + j] == ys[j];
    assert forall i :: 0 <= i < n ==> (xs + ys)[i] == xs[i];
    if Before(xs, x, y) {
      var i, j :| 0 <= i < j < n && xs[i] == x && xs[j] == y;
      assert (xs + ys)[i] == x && (xs + ys)[j] == y;
    } else if Before(ys, x, y) {
      var i, j :| 0 <= i < j < |ys| && ys[i] == x && ys[j] == y;
      assert (xs + ys)[n + i] == x && (xs + ys)[n + j] == y;
    } else {
      var i :| 0 <= i < n && xs[i] == x;
      var j :| 0 <= j < |ys| && ys[j] == y;
      assert (xs + ys)[i] == x && (xs + ys)[n + j] == y;
    }
  }

  lemma {:induction false} BeforeTail<T>(xs: seq<T>, x: T, y: T)
    requires Before(xs, x, y)
    ensures xs != [] && ((x == xs[0] && y in xs[1..]) || Before(xs[1..], x, y))
  {
    var i, j :| 0 <= i < j < |xs| && xs[i] == x && xs[j] == y;
    assert xs[1..][j - 1] == y;
    if i > 0 { assert xs[1..][i - 1] == x; }
  }
}
