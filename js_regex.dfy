/**
 * The regular-expression operations the core uses: `s.replace(/\s+/g, ' ')`
 * and `s.match(re)`. A pattern is described by its attempt at one position,
 * the text it matches starting there if any; `match` reports the attempt at
 * the leftmost position that succeeds.
 */
module JsRegex {
  import opened Wrappers
  import opened JsString

  /** The match found by scanning from position `i`: the attempt at the first position that succeeds. */
  function FirstMatchFrom(s: string, at: nat -> Option<string>, i: nat): Option<string>
    decreases |s| - i
  {
    if i >= |s| then None
    else match at(i)
      case Some(m) => Some(m)
      case None => FirstMatchFrom(s, at, i + 1)
  }

  /**
   * `s.match(re)[0]`, or undefined, for a pattern that never matches the
   * empty string (so no attempt at the end of `s` can succeed).
   */
  function FirstMatch(s: string, at: nat -> Option<string>): Option<string> {
    FirstMatchFrom(s, at, 0)
  }

  /** A match is the attempt at some position before which every attempt failed; no match means every attempt failed. */
  lemma {:induction false} FirstMatchFromLeftmost(s: string, at: nat -> Option<string>, i: nat)
    ensures FirstMatchFrom(s, at, i).Some? ==>
              exists k: nat :: i <= k < |s| && at(k) == FirstMatchFrom(s, at, i) && forall j: nat :: i <= j < k ==> at(j).None?
    ensures FirstMatchFrom(s, at, i).None? ==> forall j: nat :: i <= j < |s| ==> at(j).None?
    decreases |s| - i
  {
    if i < |s| && at(i).None? {
      FirstMatchFromLeftmost(s, at, i + 1);
    }
  }

  /** The attempt at `k` is the match when every earlier attempt fails. */
  lemma {:induction false} FirstMatchFromAt(s: string, at: nat -> Option<string>, i: nat, k: nat)
    requires i <= k < |s| && at(k).Some?
    requires forall j: nat :: i <= j < k ==> at(j).None?
    ensures FirstMatchFrom(s, at, i) == at(k)
    decreases k - i
  {
    if i < k {
      FirstMatchFromAt(s, at, i + 1, k);
    }
  }

  lemma FirstMatchLeftmost(s: string, at: nat -> Option<string>)
    ensures FirstMatch(s, at).Some? ==>
              exists k: nat :: k < |s| && at(k) == FirstMatch(s, at) && forall j: nat :: j < k ==> at(j).None?
    ensures FirstMatch(s, at).None? ==> forall j: nat :: j < |s| ==> at(j).None?
  {
    FirstMatchFromLeftmost(s, at, 0);
  }

  /**
   * A greedy quantifier `{lo,n}` with backtracking: the largest count from `n`
   * down to `lo` after which the rest of the pattern fits.
   */
  function GreedyCount(fits: nat -> bool, lo: nat, n: nat): (r: Option<nat>)
    ensures r.Some? ==> lo <= r.value <= n && fits(r.value)
    ensures forall m: nat :: lo <= m <= n && fits(m) ==> r.Some? && m <= r.value
    decreases n
  {
    if n < lo then None
    else if fits(n) then Some(n)
    else if n == lo then None
    else GreedyCount(fits, lo, n - 1)
  }

  /** A text in which white space only appears as single spaces. */
  predicate SingleSpaced(s: string) {
    forall i :: 0 <= i < |s| && IsSpace(s[i]) ==> s[i] == ' ' && (i + 1 < |s| ==> !IsSpace(s[i + 1]))
  }

  /** Length of the leading run of white space. */
  function SpaceRun(s: string): (n: nat)
    ensures n <= |s| && (n < |s| ==> !IsSpace(s[n]))
    ensures forall i :: 0 <= i < n ==> IsSpace(s[i])
  {
    if s != [] && IsSpace(s[0]) then 1 + SpaceRun(s[1..]) else 0
  }

  /** `s.replace(/\s+/g, ' ')`: every maximal run of white space becomes one space. */
  function CollapseSpaces(s: string): (r: string)
    ensures SingleSpaced(r)
    ensures s != [] && !IsSpace(s[0]) ==> r != [] && r[0] == s[0]
    decreases |s|
  {
    if s == [] then []
    else if IsSpace(s[0]) then
      var rest := CollapseSpaces(s[SpaceRun(s)..]);
      assert forall i :: 1 <= i < |rest| + 1 ==> (" " + rest)[i] == rest[i - 1];
      " " + rest
    else
      var rest := CollapseSpaces(s[1..]);
      assert forall i :: 1 <= i < |rest| + 1 ==> ([s[0]] + rest)[i] == rest[i - 1];
      [s[0]] + rest
  }

  /** Collapsing leaves a text that is already single-spaced alone, so collapsing twice is collapsing once. */
  lemma {:induction false} CollapseSingleSpaced(s: string)
    requires SingleSpaced(s)
    ensures CollapseSpaces(s) == s
    decreases |s|
  {
    if s != [] {
      assert SingleSpaced(s[1..]) by {
        assert forall i :: 0 <= i < |s| - 1 ==> s[1..][i] == s[i + 1];
      }
      CollapseSingleSpaced(s[1..]);
      if IsSpace(s[0]) {
        assert SpaceRun(s) == 1;
        assert s == " " + s[1..];
      } else {
        assert s == [s[0]] + s[1..];
      }
    }
  }

  lemma CollapseIdempotent(s: string)
    ensures CollapseSpaces(CollapseSpaces(s)) == CollapseSpaces(s)
  {
    CollapseSingleSpaced(CollapseSpaces(s));
  }

  /** The characters of `s` that are not white space, in order. */
  function NonSpaces(s: string): (r: string)
    ensures |r| <= |s|
  {
    if s == [] then []
    else if IsSpace(s[0]) then NonSpaces(s[1..])
    else [s[0]] + NonSpaces(s[1..])
  }

  /** Dropping a leading run of white space does not change the other characters. */
  lemma {:induction false} NonSpacesSkip(s: string, n: nat)
    requires n <= |s| && forall i :: 0 <= i < n ==> IsSpace(s[i])
    ensures NonSpaces(s[n..]) == NonSpaces(s)
    decreases n
  {
    if n > 0 {
      assert s[1..][n - 1..] == s[n..];
      NonSpacesSkip(s[1..], n - 1);
    }
  }

  /** Collapsing changes only white space: every other character is kept, in order. */
  lemma {:induction false} CollapseKeepsText(s: string)
    ensures NonSpaces(CollapseSpaces(s)) == NonSpaces(s)
    decreases |s|
  {
    if s != [] {
      if IsSpace(s[0]) {
        var n := SpaceRun(s);
        CollapseKeepsText(s[n..]);
        NonSpacesSkip(s, n);
        assert (" " + CollapseSpaces(s[n..]))[1..] == CollapseSpaces(s[n..]);
      } else {
        CollapseKeepsText(s[1..]);
        assert ([s[0]] + CollapseSpaces(s[1..]))[1..] == CollapseSpaces(s[1..]);
      }
    }
  }

  /** The non-space characters of a concatenation are those of its parts. */
  lemma {:induction false} NonSpacesAppend(a: string, b: string)
    ensures NonSpaces(a + b) == NonSpaces(a) + NonSpaces(b)
    decreases |a|
  {
    if a != [] {
      assert (a + b)[1..] == a[1..] + b;
      NonSpacesAppend(a[1..], b);
    } else {
      assert a + b == b;
    }
  }

  /** A text of white space alone has no other characters. */
  lemma {:induction false} NonSpacesOfSpaces(s: string)
    requires forall i :: 0 <= i < |s| ==> IsSpace(s[i])
    ensures NonSpaces(s) == []
  {
    NonSpacesSkip(s, |s|);
    assert s[|s|..] == [];
  }

  lemma TrimStartKeepsText(s: string)
    ensures NonSpaces(TrimStart(s)) == NonSpaces(s)
  {
    NonSpacesSkip(s, |s| - |TrimStart(s)|);
  }

  lemma TrimEndKeepsText(s: string)
    ensures NonSpaces(TrimEnd(s)) == NonSpaces(s)
  {
    var u := TrimEnd(s);
    var tail := s[|u|..];
    assert s == u + tail;
    NonSpacesAppend(u, tail);
    NonSpacesOfSpaces(tail);
    assert u + [] == u;
  }

  /** Trimming changes only white space. */
  lemma TrimKeepsText(s: string)
    ensures NonSpaces(Trim(s)) == NonSpaces(s)
  {
    TrimStartKeepsText(s);
    TrimEndKeepsText(TrimStart(s));
  }

  /** A slice of a single-spaced text is single-spaced. */
  lemma SingleSpacedSlice(s: string, a: nat, b: nat)
    requires SingleSpaced(s) && a <= b <= |s|
    ensures SingleSpaced(s[a..b])
  {
    assert forall i :: 0 <= i < b - a ==> s[a..b][i] == s[a + i];
  }

  /** Trimming keeps a text single-spaced. */
  lemma SingleSpacedTrim(s: string)
    requires SingleSpaced(s)
    ensures SingleSpaced(Trim(s))
  {
    var t := TrimStart(s);
    SingleSpacedSlice(s, |s| - |t|, |s|);
    SingleSpacedSlice(t, 0, |TrimEnd(t)|);
  }
}
