/** Facts about sequences used as the lists of the servers. */
module Lists {

  ghost predicate NoDup<T>(s: seq<T>) {
    forall i, j | 0 <= i < j < |s| :: s[i] != s[j]
  }

  function Without<T(==)>(s: seq<T>, x: T): seq<T> {
    if s == [] then []
    else if s[0] == x then Without(s[1..], x)
    else [s[0]] + Without(s[1..], x)
  }

  /** The list with x at its end, if it does not have x already. */
  function Including<T(==)>(s: seq<T>, x: T): seq<T> {
    if x in s then s else s + [x]
  }

  lemma {:induction false} WithoutMembers<T>(s: seq<T>, x: T)
    ensures forall y :: y in Without(s, x) <==> y in s && y != x
    ensures forall j | 0 <= j < |Without(s, x)| :: Without(s, x)[j] in s
  {
    if s != [] {
      WithoutMembers(s[1..], x);
      assert forall y :: y in s <==> y == s[0] || y in s[1..];
    }
  }

  lemma {:induction false} WithoutNoDup<T>(s: seq<T>, x: T)
    requires NoDup(s)
    ensures NoDup(Without(s, x))
  {
    if s != [] {
      WithoutNoDup(s[1..], x);
      WithoutMembers(s[1..], x);
      var rest := Without(s[1..], x);
      assert s[0] !in rest;
      assert NoDup([s[0]] + rest);
    }
  }

  lemma {:induction false} WithoutAbsent<T>(s: seq<T>, x: T)
    requires x !in s
    ensures Without(s, x) == s
  {
    if s != [] {
      WithoutAbsent(s[1..], x);
    }
  }

  lemma {:induction false} WithoutConcat<T>(a: seq<T>, b: seq<T>, x: T)
    ensures Without(a + b, x) == Without(a, x) + Without(b, x)
  {
    if a == [] {
      assert a + b == b;
    } else {
      assert (a + b)[1..] == a[1..] + b;
      WithoutConcat(a[1..], b, x);
    }
  }

  /** Taking out what was put in at place k. */
  lemma WithoutInserted<T>(s: seq<T>, k: nat, x: T)
    requires x !in s && k <= |s|
    ensures Without(s[..k] + [x] + s[k..], x) == s
  {
    var a, b := s[..k], s[k..];
    assert x !in a && x !in b;
    calc {
      Without(a + [x] + b, x);
      { WithoutConcat(a + [x], b, x); WithoutAbsent(b, x); }
      Without(a + [x], x) + b;
      { WithoutConcat(a, [x], x); WithoutAbsent(a, x); }
      a + Without([x], x) + b;
      { assert Without([x], x) == Without([], x); }
      a + [] + b;
      s;
    }
  }

  /** A duplicate-free list is its own remainder with the one element put back somewhere. */
  lemma InsertedSomewhere<T>(s: seq<T>, x: T) returns (k: nat)
    requires NoDup(s) && x in s
    ensures k <= |Without(s, x)|
    ensures s == Without(s, x)[..k] + [x] + Without(s, x)[k..]
  {
    k :| k < |s| && s[k] == x;
    var rest := s[..k] + s[k + 1..];
    assert s == rest[..k] + [x] + rest[k..];
    WithoutInserted(rest, k, x);
  }

  /** What moves from the front of one list to the back of another leaves the whole alone. */
  lemma Moved<T>(behind: seq<T>, moved: seq<T>, ahead: seq<T>)
    ensures (behind + moved) + ahead == behind + (moved + ahead)
  {
  }
}
