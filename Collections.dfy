/**
 * The Kotlin collection operations the core relies on: `mapNotNull`, `map`
 * and `sum` over a `List<Double>`, as recursive functions over sequences.
 */
module Collections {
  import opened Wrappers

  /** `s.mapNotNull(f)`: apply `f` in order and keep only the present results. */
  function MapNotNull<T, U>(s: seq<T>, f: T -> Option<U>): (r: seq<U>)
    ensures |r| <= |s|
    ensures r == [] <==> forall i :: 0 <= i < |s| ==> f(s[i]).None?
    ensures (forall i :: 0 <= i < |s| ==> f(s[i]).Some?) ==>
              |r| == |s| && forall i :: 0 <= i < |s| ==> r[i] == f(s[i]).value
  {
    if s == [] then []
    else
      match f(s[0])
      case Some(y) => [y] + MapNotNull(s[1..], f)
      case None => MapNotNull(s[1..], f)
  }

  /** Filtering splits over concatenation, so the relative order of the kept results is that of the input. */
  lemma {:induction false} MapNotNullAppend<T, U>(a: seq<T>, b: seq<T>, f: T -> Option<U>)
    ensures MapNotNull(a + b, f) == MapNotNull(a, f) + MapNotNull(b, f)
  {
    if a == [] {
      assert a + b == b;
    } else {
      assert (a + b)[0] == a[0];
      assert (a + b)[1..] == a[1..] + b;
      MapNotNullAppend(a[1..], b, f);
    }
  }

  /** An element is kept exactly when some input element maps to it. */
  lemma {:induction false} MapNotNullMembers<T, U>(s: seq<T>, f: T -> Option<U>, y: U)
    ensures y in MapNotNull(s, f) <==> exists i :: 0 <= i < |s| && f(s[i]) == Some(y)
  {
    if s != [] {
      MapNotNullMembers(s[1..], f, y);
      if exists i :: 0 <= i < |s| && f(s[i]) == Some(y) {
        var i :| 0 <= i < |s| && f(s[i]) == Some(y);
        if i > 0 {
          assert s[1..][i - 1] == s[i];
        }
      }
      if exists j :: 0 <= j < |s[1..]| && f(s[1..][j]) == Some(y) {
        var j :| 0 <= j < |s[1..]| && f(s[1..][j]) == Some(y);
        assert s[j + 1] == s[1..][j];
      }
    }
  }

  /** Two inputs that agree element by element under their projections filter to the same result. */
  lemma {:induction false} MapNotNullCongruent<T, U>(s: seq<T>, t: seq<T>, f: T -> Option<U>, g: T -> Option<U>)
    requires |s| == |t|
    requires forall i :: 0 <= i < |s| ==> f(s[i]) == g(t[i])
    ensures MapNotNull(s, f) == MapNotNull(t, g)
  {
    if s != [] {
      assert f(s[0]) == g(t[0]);
      forall i | 0 <= i < |s[1..]| ensures f(s[1..][i]) == g(t[1..][i]) {
        assert s[1..][i] == s[i + 1] && t[1..][i] == t[i + 1];
      }
      MapNotNullCongruent(s[1..], t[1..], f, g);
    }
  }

  /** `s.map(f)`: same length, same order, element by element. */
  function Map<T, U>(s: seq<T>, f: T -> U): (r: seq<U>)
    ensures |r| == |s|
    ensures forall i :: 0 <= i < |s| ==> r[i] == f(s[i])
  {
    if s == [] then [] else [f(s[0])] + Map(s[1..], f)
  }

  lemma MapAppend<T, U>(a: seq<T>, b: seq<T>, f: T -> U)
    ensures Map(a + b, f) == Map(a, f) + Map(b, f)
  {
    assert |Map(a + b, f)| == |Map(a, f) + Map(b, f)|;
    forall i | 0 <= i < |a + b| ensures Map(a + b, f)[i] == (Map(a, f) + Map(b, f))[i] {
      if i < |a| { assert (a + b)[i] == a[i]; } else { assert (a + b)[i] == b[i - |a|]; }
    }
  }

  /**
   * `List<Double>.sum()`. Kotlin accumulates from the left starting at 0.0;
   * this groups to the right, which is the same total over the reals.
   */
  function Sum(s: seq<real>): (r: real)
    ensures (forall i :: 0 <= i < |s| ==> 0.0 <= s[i]) ==> 0.0 <= r
    ensures (forall i :: 0 <= i < |s| ==> 0.0 <= s[i]) ==> forall i :: 0 <= i < |s| ==> s[i] <= r
  {
    if s == [] then 0.0 else s[0] + Sum(s[1..])
  }

  lemma {:induction false} SumAppend(a: seq<real>, b: seq<real>)
    ensures Sum(a + b) == Sum(a) + Sum(b)
  {
    if a == [] {
      assert a + b == b;
    } else {
      assert (a + b)[0] == a[0];
      assert (a + b)[1..] == a[1..] + b;
      SumAppend(a[1..], b);
    }
  }

  /** The sum is insensitive to the order of the two halves of its input. */
  lemma SumSwap(a: seq<real>, b: seq<real>)
    ensures Sum(a + b) == Sum(b + a)
  {
    SumAppend(a, b);
    SumAppend(b, a);
  }
}
