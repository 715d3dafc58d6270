/** The JavaScript array operations the core uses: `findIndex`, `find`, `filter`, `map` and `slice(0, n)`. */
module JsArray {
  import opened Wrappers

  /** `s.findIndex(p)`: the position of the first element satisfying `p`. */
  function FindIndex<T>(s: seq<T>, p: T -> bool): (r: Option<nat>)
    ensures r.Some? ==> r.value < |s| && p(s[r.value]) && forall j :: 0 <= j < r.value ==> !p(s[j])
    ensures r.None? ==> forall j :: 0 <= j < |s| ==> !p(s[j])
  {
    if s == [] then None
    else if p(s[0]) then Some(0)
    else match FindIndex(s[1..], p)
      case None => None
      case Some(k) => Some(k + 1)
  }

  lemma FindIndexFirst<T>(s: seq<T>, p: T -> bool, k: nat)
    requires k < |s| && p(s[k]) && forall j :: 0 <= j < k ==> !p(s[j])
    ensures FindIndex(s, p) == Some(k)
  {
  }

  /** `s.find(p)`: the first element satisfying `p`, or undefined. */
  function Find<T>(s: seq<T>, p: T -> bool): (r: Option<T>)
    ensures r.Some? ==> r.value in s && p(r.value)
    ensures r.None? ==> forall x :: x in s ==> !p(x)
  {
    match FindIndex(s, p)
    case None => None
    case Some(i) => Some(s[i])
  }

  lemma FindNone<T>(s: seq<T>, p: T -> bool)
    requires forall x :: x in s ==> !p(x)
    ensures Find(s, p) == None
  {
  }

  lemma FindFirst<T>(s: seq<T>, p: T -> bool, k: nat)
    requires k < |s| && p(s[k]) && forall j :: 0 <= j < k ==> !p(s[j])
    ensures Find(s, p) == Some(s[k])
  {
    FindIndexFirst(s, p, k);
  }

  /** The first `Some` that `f` gives along `s`: a loop that stops at its first hit. */
  function FirstHit<T, U>(s: seq<T>, f: T -> Option<U>): Option<U> {
    if s == [] then None
    else match f(s[0])
      case Some(u) => Some(u)
      case None => FirstHit(s[1..], f)
  }

  /** A hit comes from the first element `f` gives one for; no hit means `f` gives none. */
  lemma {:induction false} FirstHitFirst<T, U>(s: seq<T>, f: T -> Option<U>)
    ensures FirstHit(s, f).Some? ==>
              exists k :: 0 <= k < |s| && f(s[k]) == FirstHit(s, f) && forall j :: 0 <= j < k ==> f(s[j]).None?
    ensures FirstHit(s, f).None? ==> forall k :: 0 <= k < |s| ==> f(s[k]).None?
  {
    if s != [] {
      FirstHitFirst(s[1..], f);
      if f(s[0]).None? {
        if FirstHit(s, f).Some? {
          var k :| 0 <= k < |s[1..]| && f(s[1..][k]) == FirstHit(s, f) && forall j :: 0 <= j < k ==> f(s[1..][j]).None?;
          assert f(s[k + 1]) == FirstHit(s, f);
          assert forall j :: 0 < j < k + 1 ==> s[j] == s[1..][j - 1];
        } else {
          assert forall k :: 0 < k < |s| ==> s[k] == s[1..][k - 1];
        }
      } else {
        assert f(s[0]) == FirstHit(s, f);
      }
    }
  }

  /** `s.filter(p)`: the elements satisfying `p`, in their original order. */
  function Filter<T(!new)>(s: seq<T>, p: T -> bool): (r: seq<T>)
    ensures |r| <= |s|
    ensures forall x :: x in r <==> x in s && p(x)
  {
    if s == [] then []
    else if p(s[0]) then [s[0]] + Filter(s[1..], p)
    else Filter(s[1..], p)
  }

  lemma {:induction false} FilterConcat<T(!new)>(a: seq<T>, b: seq<T>, p: T -> bool)
    ensures Filter(a + b, p) == Filter(a, p) + Filter(b, p)
  {
    if a != [] {
      assert (a + b)[1..] == a[1..] + b;
      FilterConcat(a[1..], b, p);
    } else {
      assert a + b == b;
    }
  }

  /** Filtering around an inserted element: it is dropped, or kept after everything before it. */
  lemma FilterInsert<T(!new)>(head: seq<T>, x: T, tail: seq<T>, p: T -> bool)
    ensures !p(x) ==> Filter(head + [x] + tail, p) == Filter(head + tail, p)
    ensures p(x) && (forall y :: y in tail ==> !p(y)) ==> Filter(head + [x] + tail, p) == Filter(head + tail, p) + [x]
  {
    assert head + [x] + tail == head + ([x] + tail);
    FilterConcat(head, [x] + tail, p);
    FilterConcat(head, tail, p);
    assert ([x] + tail)[1..] == tail;
    if forall y :: y in tail ==> !p(y) {
      FilterNone(tail, p);
    }
  }

  lemma FilterNone<T(!new)>(s: seq<T>, p: T -> bool)
    requires forall x :: x in s ==> !p(x)
    ensures Filter(s, p) == []
  {
    if Filter(s, p) != [] {
      assert Filter(s, p)[0] in Filter(s, p);
    }
  }

  lemma InsertAtMultiset<T>(s: seq<T>, j: nat, x: T)
    requires j <= |s|
    ensures multiset(s[..j] + [x] + s[j..]) == multiset(s) + multiset{x}
  {
    assert s == s[..j] + s[j..];
  }

  /** `s.map(f)`. */
  function Map<T, U>(s: seq<T>, f: T -> U): (r: seq<U>)
    ensures |r| == |s| && forall i :: 0 <= i < |s| ==> r[i] == f(s[i])
  {
    seq(|s|, i requires 0 <= i < |s| => f(s[i]))
  }

  /** Mapping a concatenation maps each part. */
  lemma MapConcat<T, U>(a: seq<T>, b: seq<T>, f: T -> U)
    ensures Map(a + b, f) == Map(a, f) + Map(b, f)
  {
  }

  /** `s.slice(0, n)`. */
  function Take<T>(s: seq<T>, n: nat): (r: seq<T>)
    ensures |r| <= n && |r| <= |s| && r == s[..|r|]
    ensures |s| <= n ==> r == s
    ensures |s| > n ==> |r| == n
  {
    if |s| <= n then s else s[..n]
  }
}
