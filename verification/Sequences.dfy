/** Sequence vocabulary shared by the list, wheel and scheduler models. */
module Sequences {

  ghost predicate Distinct<T>(s: seq<T>) {
    forall i, j :: 0 <= i < j < |s| ==> s[i] != s[j]
  }

  /** s with every occurrence of x dropped. */
  function Without<T(==)>(s: seq<T>, x: T): seq<T> {
    if s == [] then []
    else if s[0] == x then Without(s[1..], x)
    else [s[0]] + Without(s[1..], x)
  }

  /** r has the members of s except x. */
  ghost predicate Lacks<T>(r: seq<T>, s: seq<T>, x: T) {
    && (forall y :: y in s ==> (y in r <==> y != x))
    && (forall y :: y in r ==> y in s && y != x)
  }

  /** r has the members of s and x. */
  ghost predicate Gains<T>(r: seq<T>, s: seq<T>, x: T) {
    && x in r
    && (forall y :: y in s ==> y in r)
    && (forall y :: y in r ==> y in s || y == x)
  }

  lemma {:induction false} WithoutMembers<T>(s: seq<T>, x: T)
    ensures Lacks(Without(s, x), s, x)
    ensures x !in s ==> Without(s, x) == s
  {
    if s != [] {
      WithoutMembers(s[1..], x);
    }
  }

  lemma {:induction false} WithoutConcat<T>(a: seq<T>, b: seq<T>, x: T)
    ensures Without(a + b, x) == Without(a, x) + Without(b, x)
  {
    if a == [] {
      assert a + b == b;
    } else {
      assert (a + b)[1..] == a[1..] + b;
      WithoutConcat(a[1..], b, x);
    }
  }

  /** In a sequence without repetition, dropping x is cutting its one position out. */
  lemma {:induction false} WithoutIsCut<T>(s: seq<T>, k: nat)
    requires k < |s| && Distinct(s)
    ensures Without(s, s[k]) == s[..k] + s[k+1..]
  {
    if k == 0 {
      WithoutMembers(s[1..], s[0]);
    } else {
      assert s[1..][..k-1] == s[1..k] && s[1..][k..] == s[k+1..];
      WithoutIsCut(s[1..], k - 1);
    }
  }

  lemma CutDistinct<T>(s: seq<T>, k: nat)
    requires k < |s| && Distinct(s)
    ensures Distinct(s[..k] + s[k+1..])
  {
    var r := s[..k] + s[k+1..];
    forall i, j | 0 <= i < j < |r| ensures r[i] != r[j] {
      assert r[i] == s[if i < k then i else i + 1] && r[j] == s[if j < k then j else j + 1];
    }
  }

  lemma {:induction false} WithoutDistinct<T>(s: seq<T>, x: T)
    requires Distinct(s)
    ensures Distinct(Without(s, x))
  {
    WithoutMembers(s, x);
    if k :| 0 <= k < |s| && s[k] == x {
      WithoutIsCut(s, k);
      CutDistinct(s, k);
    }
  }

  /** s without the members of xs. */
  function Minus<T(==)>(s: seq<T>, xs: seq<T>): seq<T> {
    if s == [] then []
    else (if s[0] in xs then [] else [s[0]]) + Minus(s[1..], xs)
  }

  lemma {:induction false} MinusNone<T>(s: seq<T>, xs: seq<T>)
    requires forall x :: x in s ==> x !in xs
    ensures Minus(s, xs) == s
  {
    if s != [] {
      MinusNone(s[1..], xs);
    }
  }

  lemma {:induction false} MinusConcat<T>(a: seq<T>, b: seq<T>, xs: seq<T>)
    ensures Minus(a + b, xs) == Minus(a, xs) + Minus(b, xs)
  {
    if a == [] {
      assert a + b == b;
    } else {
      assert (a + b)[1..] == a[1..] + b;
      MinusConcat(a[1..], b, xs);
    }
  }

  lemma {:induction false} MinusSame<T>(s: seq<T>, xs: seq<T>, all: seq<T>)
    requires forall y :: y in all <==> y in xs
    ensures Minus(s, xs) == Minus(s, all)
  {
    if s != [] {
      MinusSame(s[1..], xs, all);
    }
  }

  lemma {:induction false} WithoutIsMinus<T>(s: seq<T>, x: T)
    ensures Without(s, x) == Minus(s, [x])
  {
    if s != [] {
      WithoutIsMinus(s[1..], x);
    }
  }

  lemma {:induction false} MinusMinus<T>(s: seq<T>, xs: seq<T>, ys: seq<T>, all: seq<T>)
    requires forall y :: y in all <==> y in xs || y in ys
    ensures Minus(Minus(s, xs), ys) == Minus(s, all)
  {
    if s != [] {
      MinusMinus(s[1..], xs, ys, all);
      MinusConcat(if s[0] in xs then [] else [s[0]], Minus(s[1..], xs), ys);
    }
  }

  /** x comes before y. */
  ghost predicate Before<T>(s: seq<T>, x: T, y: T) {
    exists i, j :: 0 <= i < j < |s| && s[i] == x && s[j] == y
  }

  lemma {:induction false} BeforeIs<T>(s: seq<T>, x: T, y: T)
    requires s != []
    ensures Before(s, x, y) <==> (s[0] == x && y in s[1..]) || Before(s[1..], x, y)
  {
    if s[0] == x && y in s[1..] {
      var j :| 0 <= j < |s[1..]| && s[1..][j] == y;
      assert s[0] == x && s[j + 1] == y;
    } else if Before(s[1..], x, y) {
      var i, j :| 0 <= i < j < |s[1..]| && s[1..][i] == x && s[1..][j] == y;
      assert s[i + 1] == x && s[j + 1] == y;
    }
    if Before(s, x, y) {
      var i, j :| 0 <= i < j < |s| && s[i] == x && s[j] == y;
      assert s[1..][j - 1] == y;
      if i > 0 {
        assert s[1..][i - 1] == x;
      }
    }
  }

  /** Moving another member to the end keeps x before y. */
  lemma {:induction false} BeforeMoved<T>(s: seq<T>, h: T, x: T, y: T)
    requires Before(s, x, y) && h != x
    ensures Before(Without(s, h) + [h], x, y)
  {
    BeforeIs(s, x, y);
    WithoutMembers(s[1..], h);
    var rest, r := Without(s[1..], h) + [h], Without(s, h) + [h];
    assert s[0] != h ==> r == [s[0]] + rest && r[1..] == rest;
    assert s[0] == h ==> r == rest;
    hide Before, Without;
    if Before(s[1..], x, y) {
      BeforeMoved(s[1..], h, x, y);
    } else {
      assert y in rest;
    }
    if s[0] != h {
      BeforeIs(r, x, y);
    }
  }
}
