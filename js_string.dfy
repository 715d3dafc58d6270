/**
 * The JavaScript string operations the core uses, on strings as sequences of
 * characters: `trim`, `includes`/`indexOf`, `endsWith`, `replace` with a string
 * pattern (first occurrence only), `substring`, `toLowerCase` and splitting into
 * words.
 */
module JsString {
  import opened Wrappers

  /** An optional string is truthy when present and non-empty. */
  predicate NonEmpty(s: Option<string>) {
    s.Some? && s.value != ""
  }

  /** `a || b` for optional strings. */
  function OrText(a: Option<string>, b: Option<string>): (r: Option<string>)
    ensures NonEmpty(a) ==> r == a
    ensures !NonEmpty(a) ==> r == b
  {
    if NonEmpty(a) then a else b
  }

  /** `a || b` for strings: the empty string is falsy. */
  function Or(a: string, b: string): (r: string)
    ensures a != "" ==> r == a
    ensures a == "" ==> r == b
  {
    if a != "" then a else b
  }

  /** JavaScript's white space and line terminators: the characters `trim` removes and `\s` matches. */
  predicate IsSpace(c: char) {
    c == ' ' || c == '\t' || c == '\n' || c == '\r' || c == '\U{000B}' || c == '\U{000C}'
    || c == '\U{00A0}' || c == '\U{1680}' || ('\U{2000}' <= c <= '\U{200A}')
    || c == '\U{2028}' || c == '\U{2029}' || c == '\U{202F}' || c == '\U{205F}'
    || c == '\U{3000}' || c == '\U{FEFF}'
  }

  /** The CJK unified ideographs U+4E00 to U+9FA5, the class `[\u4e00-\u9fa5]`. */
  predicate IsHan(c: char) {
    '\U{4E00}' <= c <= '\U{9FA5}'
  }

  lemma HanIsNotSpace(c: char)
    requires IsHan(c)
    ensures !IsSpace(c)
  {
  }

  /** A text that starts and ends with an ideograph. */
  predicate HanEnds(s: string) {
    s != "" && IsHan(s[0]) && IsHan(s[|s| - 1])
  }

  /** Trimming leaves a text that starts and ends with an ideograph alone. */
  lemma HanEndsTrimmed(s: string)
    requires HanEnds(s)
    ensures Trim(s) == s
  {
    HanIsNotSpace(s[0]);
    HanIsNotSpace(s[|s| - 1]);
    TrimOfTrimmed(s);
  }

  function TrimStart(s: string): (r: string)
    ensures |r| <= |s| && r == s[|s| - |r|..]
    ensures r != [] ==> !IsSpace(r[0])
    ensures forall i :: 0 <= i < |s| - |r| ==> IsSpace(s[i])
  {
    if s != [] && IsSpace(s[0]) then TrimStart(s[1..]) else s
  }

  function TrimEnd(s: string): (r: string)
    ensures |r| <= |s| && r == s[..|r|]
    ensures r != [] ==> !IsSpace(r[|r| - 1])
    ensures forall i :: |r| <= i < |s| ==> IsSpace(s[i])
  {
    if s != [] && IsSpace(s[|s| - 1]) then TrimEnd(s[..|s| - 1]) else s
  }

  /** `s.trim()`: drops leading and trailing white space. */
  function Trim(s: string): (r: string)
    ensures r == "" || (!IsSpace(r[0]) && !IsSpace(r[|r| - 1]))
  {
    TrimEnd(TrimStart(s))
  }

  lemma TrimOfTrimmed(s: string)
    requires s == "" || (!IsSpace(s[0]) && !IsSpace(s[|s| - 1]))
    ensures Trim(s) == s
  {
  }

  lemma TrimIdempotent(s: string)
    ensures Trim(Trim(s)) == Trim(s)
  {
    TrimOfTrimmed(Trim(s));
  }

  /** A string is blank (`!s.trim()`) exactly when every character is white space. */
  lemma {:induction false} TrimEmptyIffAllSpace(s: string)
    ensures Trim(s) == "" <==> forall i :: 0 <= i < |s| ==> IsSpace(s[i])
  {
    var t := TrimStart(s);
    if t != [] {
      assert !IsSpace(s[|s| - |t|]);
    }
  }

  /** `t` occurs in `s` starting at position `i`. */
  predicate OccursAt(s: string, t: string, i: int) {
    0 <= i && i + |t| <= |s| && s[i..i + |t|] == t
  }

  /** `s.indexOf(t, from)`: an occurrence at or after `from`, or -1; `IndexOfFromFirst` shows it is the first. */
  function IndexOfFrom(s: string, t: string, from: nat): (r: int)
    ensures r == -1 || (from <= r && OccursAt(s, t, r))
    decreases |s| - from
  {
    if from + |t| > |s| then -1
    else if s[from..from + |t|] == t then from
    else IndexOfFrom(s, t, from + 1)
  }

  /** No occurrence starts between `from` and the one `indexOf` reports. */
  lemma {:induction false} IndexOfFromFirst(s: string, t: string, from: nat, j: int)
    requires from <= j && OccursAt(s, t, j)
    ensures from <= IndexOfFrom(s, t, from) <= j
    decreases j - from
  {
    if s[from..from + |t|] != t {
      IndexOfFromFirst(s, t, from + 1, j);
    }
  }

  /** `s.indexOf(t)`. */
  function IndexOf(s: string, t: string): int {
    IndexOfFrom(s, t, 0)
  }

  /** An occurrence inside a slice is an occurrence in the whole text, shifted by the slice's start. */
  lemma OccursInSlice(s: string, t: string, start: nat, end: nat, i: nat)
    requires start <= end <= |s|
    ensures OccursAt(s[start..end], t, i) <==> (OccursAt(s, t, start + i) && start + i + |t| <= end)
  {
    if 0 <= i && start + i + |t| <= end {
      var u := s[start..end][i..i + |t|];
      var v := s[start + i..start + i + |t|];
      assert forall k :: 0 <= k < |u| ==> u[k] == v[k];
      assert u == v;
    }
  }

  /** A slice that holds the first occurrence of `t` finds it at the shifted position. */
  lemma IndexOfInSlice(s: string, t: string, start: nat, end: nat)
    requires IndexOf(s, t) >= 0 && start <= IndexOf(s, t) && IndexOf(s, t) + |t| <= end <= |s|
    ensures IndexOf(s[start..end], t) == IndexOf(s, t) - start
  {
    var idx := IndexOf(s, t);
    OccursInSlice(s, t, start, end, idx - start);
    IndexOfFromFirst(s[start..end], t, 0, idx - start);
    var q := IndexOf(s[start..end], t);
    OccursInSlice(s, t, start, end, q);
    IndexOfFromFirst(s, t, 0, start + q);
  }

  /** `s.includes(t)`. */
  predicate Includes(s: string, t: string) {
    IndexOf(s, t) >= 0
  }

  lemma IncludesAt(s: string, t: string, i: int)
    requires OccursAt(s, t, i)
    ensures Includes(s, t)
  {
    IndexOfFromFirst(s, t, 0, i);
  }

  lemma IncludesSelf(s: string)
    ensures Includes(s, s) && IndexOf(s, s) == 0
  {
    IndexOfFromFirst(s, s, 0, 0);
  }

  lemma IncludesEmpty(s: string)
    ensures Includes(s, "") && IndexOf(s, "") == 0
  {
    IndexOfFromFirst(s, "", 0, 0);
  }

  /** A text containing `t` contains every character of `t`. */
  lemma IncludesCharOf(s: string, t: string, c: char)
    ensures Includes(s, t) && c in t ==> c in s
  {
    if Includes(s, t) && c in t {
      var i := IndexOf(s, t);
      var k :| 0 <= k < |t| && t[k] == c;
      assert s[i..i + |t|][k] == s[i + k];
    }
  }

  /** A one-character pattern occurs exactly where that character does. */
  lemma IncludesChar(s: string, c: char)
    ensures Includes(s, [c]) <==> c in s
  {
    if c in s {
      var i :| 0 <= i < |s| && s[i] == c;
      IncludesAt(s, [c], i);
    }
    if Includes(s, [c]) {
      var i := IndexOf(s, [c]);
      assert s[i..i + 1] == [c];
      assert s[i] == c;
    }
  }

  /** `s.endsWith(suffix)`. */
  predicate EndsWith(s: string, suffix: string) {
    |suffix| <= |s| && s[|s| - |suffix|..] == suffix
  }

  /** `s.replace(pattern, replacement)` with a string pattern: only the first occurrence is replaced. */
  function ReplaceFirst(s: string, pattern: string, replacement: string): (r: string)
    ensures IndexOf(s, pattern) < 0 ==> r == s
  {
    var i := IndexOf(s, pattern);
    if i < 0 then s else s[..i] + replacement + s[i + |pattern|..]
  }

  /** `s.substring(start, end)`: both ends are clamped to [0, |s|] and swapped when reversed. */
  function Substring(s: string, start: int, end: int): (r: string)
    ensures |r| <= |s|
  {
    var a := if start < 0 then 0 else if start > |s| then |s| else start;
    var b := if end < 0 then 0 else if end > |s| then |s| else end;
    if a <= b then s[a..b] else s[b..a]
  }

  /** `toLowerCase` on ASCII letters; every other character (all CJK ones) is its own lower case. */
  function LowerChar(c: char): char {
    if 'A' <= c <= 'Z' then (c as int + 32) as char else c
  }

  function ToLower(s: string): (r: string)
    ensures |r| == |s| && forall i :: 0 <= i < |s| ==> r[i] == LowerChar(s[i])
  {
    seq(|s|, i requires 0 <= i < |s| => LowerChar(s[i]))
  }

  /** A text without ASCII capitals is its own lower case. */
  lemma ToLowerKeeps(s: string)
    requires forall i :: 0 <= i < |s| ==> !('A' <= s[i] <= 'Z')
    ensures ToLower(s) == s
  {
  }

  /** Length of the leading run of characters that are not separators. */
  function RunLength(s: string, sep: char -> bool): (n: nat)
    ensures n <= |s| && (n < |s| ==> sep(s[n]))
    ensures forall i :: 0 <= i < n ==> !sep(s[i])
  {
    if s == [] || sep(s[0]) then 0 else 1 + RunLength(s[1..], sep)
  }

  /**
   * The non-empty pieces of `s.split(re)` where `re` matches one separator
   * character (or a run of them): the maximal runs of non-separators, in order.
   */
  function Words(s: string, sep: char -> bool): (ws: seq<string>)
    ensures forall k :: 0 <= k < |ws| ==> ws[k] != "" && forall i :: 0 <= i < |ws[k]| ==> !sep(ws[k][i])
    decreases |s|
  {
    if s == [] then []
    else if sep(s[0]) then Words(s[1..], sep)
    else
      var n := RunLength(s, sep);
      [s[..n]] + Words(s[n..], sep)
  }

  /** A word followed by a separator or by nothing is the first piece of the split. */
  lemma WordsCons(w: string, rest: string, sep: char -> bool)
    requires w != "" && forall i :: 0 <= i < |w| ==> !sep(w[i])
    requires rest == [] || sep(rest[0])
    ensures Words(w + rest, sep) == [w] + Words(rest, sep)
  {
    var s := w + rest;
    var n := RunLength(s, sep);
    assert forall i :: 0 <= i < |w| ==> s[i] == w[i];
    assert rest != [] ==> s[|w|] == rest[0];
    assert n == |w|;
    assert s[..n] == w && s[n..] == rest;
  }

  /** Two words around one separator split into those two words. */
  lemma WordsOfTwo(a: string, c: char, b: string, sep: char -> bool)
    requires a != "" && b != "" && sep(c)
    requires forall i :: 0 <= i < |a| ==> !sep(a[i])
    requires forall i :: 0 <= i < |b| ==> !sep(b[i])
    ensures Words(a + [c] + b, sep) == [a, b]
  {
    assert a + [c] + b == a + ([c] + b);
    WordsCons(a, [c] + b, sep);
    assert ([c] + b)[1..] == b;
    WordsCons(b, [], sep);
    assert b + [] == b;
  }

  /** `s.split(c)` with a one-character separator, empty pieces kept. */
  function SplitOn(s: string, c: char): (parts: seq<string>)
    ensures |parts| >= 1
    decreases |s|
  {
    if s == [] then [""]
    else if s[0] == c then [""] + SplitOn(s[1..], c)
    else
      var rest := SplitOn(s[1..], c);
      [[s[0]] + rest[0]] + rest[1..]
  }

  /** `parts.join(sep)`. */
  function Join(parts: seq<string>, sep: string): string {
    if parts == [] then ""
    else if |parts| == 1 then parts[0]
    else parts[0] + sep + Join(parts[1..], sep)
  }

  /** A piece without the separator glues onto the first piece of what follows it. */
  lemma {:induction false} SplitOnPrefix(p: string, rest: string, c: char)
    requires c !in p
    ensures SplitOn(p + rest, c) == [p + SplitOn(rest, c)[0]] + SplitOn(rest, c)[1..]
    decreases |p|
  {
    var s := SplitOn(rest, c);
    if p == [] {
      assert p + rest == rest;
      assert p + s[0] == s[0];
      assert [s[0]] + s[1..] == s;
    } else {
      SplitOnPrefix(p[1..], rest, c);
      assert (p + rest)[1..] == p[1..] + rest;
      assert (p + rest)[0] == p[0] != c;
      var r := SplitOn(p[1..] + rest, c);
      assert r[0] == p[1..] + s[0] && r[1..] == s[1..];
      assert [p[0]] + (p[1..] + s[0]) == p + s[0];
    }
  }

  /** Splitting on a separator undoes joining with it, when no piece contains it. */
  lemma {:induction false} SplitOnJoin(parts: seq<string>, c: char)
    requires parts != [] && forall k :: 0 <= k < |parts| ==> c !in parts[k]
    ensures SplitOn(Join(parts, [c]), c) == parts
  {
    if |parts| == 1 {
      SplitOnPrefix(parts[0], "", c);
      assert parts[0] + "" == parts[0];
    } else {
      SplitOnJoin(parts[1..], c);
      var rest := [c] + Join(parts[1..], [c]);
      assert parts[0] + [c] + Join(parts[1..], [c]) == parts[0] + rest;
      SplitOnPrefix(parts[0], rest, c);
      assert rest[1..] == Join(parts[1..], [c]);
      assert parts[0] + "" == parts[0];
      assert parts == [parts[0]] + parts[1..];
    }
  }
}
