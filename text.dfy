/** Strings as the JavaScript code sees them, restricted to ASCII: optional values,
    truthiness, case mapping, trimming, substring search and joining. */
module Text {

  datatype Option<+T> = None | Some(value: T)

  /** JavaScript truthiness of an optional string: present and non-empty. */
  predicate Truthy(s: Option<string>)
  {
    s.Some? && s.value != ""
  }

  /** `String(s || '')`: the value when there is one, else the empty string. */
  function OrEmpty(s: Option<string>): (r: string)
    ensures Truthy(s) ==> r == s.value
    ensures !Truthy(s) ==> r == ""
  {
    if s.Some? then s.value else ""
  }

  /** `a || b` on optional strings. */
  function Or(a: Option<string>, b: Option<string>): (r: Option<string>)
    ensures Truthy(a) ==> r == a
    ensures !Truthy(a) ==> r == b
  {
    if Truthy(a) then a else b
  }

  /** `list || []`: an array, even an empty one, is truthy. */
  function ListOrEmpty<T>(list: Option<seq<T>>): (r: seq<T>)
    ensures list.Some? ==> r == list.value
    ensures list.None? ==> r == []
  {
    if list.Some? then list.value else []
  }

  // ---------------------------------------------------------------- case

  function LowerChar(c: char): (r: char)
  {
    if 'A' <= c <= 'Z' then (c as int + 32) as char else c
  }

  function UpperChar(c: char): (r: char)
  {
    if 'a' <= c <= 'z' then (c as int - 32) as char else c
  }

  /** `toLowerCase()` on ASCII. */
  function ToLower(s: string): (r: string)
    ensures |r| == |s|
    ensures forall i :: 0 <= i < |s| ==> r[i] == LowerChar(s[i])
  {
    seq(|s|, i requires 0 <= i < |s| => LowerChar(s[i]))
  }

  /** `toUpperCase()` on ASCII. */
  function ToUpper(s: string): (r: string)
    ensures |r| == |s|
    ensures forall i :: 0 <= i < |s| ==> r[i] == UpperChar(s[i])
  {
    seq(|s|, i requires 0 <= i < |s| => UpperChar(s[i]))
  }

  predicate IsLower(s: string)
  {
    forall i :: 0 <= i < |s| ==> LowerChar(s[i]) == s[i]
  }

  lemma ToLowerIsLower(s: string)
    ensures IsLower(ToLower(s))
  {
  }

  lemma ToLowerOfLower(s: string)
    requires IsLower(s)
    ensures ToLower(s) == s
  {
  }

  // ---------------------------------------------------------------- trim

  /** The characters `trim()` removes, restricted to ASCII. */
  predicate IsSpace(c: char)
  {
    c == ' ' || c == '\t' || c == '\n' || c == '\r' || c == '\U{000B}' || c == '\U{000C}'
  }

  /** Drops the leading white space: the result is the longest suffix that does not start with a space. */
  function TrimStart(s: string): (r: string)
    ensures |r| <= |s| && r == s[|s| - |r|..]
    ensures r == [] || !IsSpace(r[0])
    ensures forall i :: 0 <= i < |s| - |r| ==> IsSpace(s[i])
  {
    if |s| > 0 && IsSpace(s[0]) then TrimStart(s[1..]) else s
  }

  /** Drops the trailing white space: the result is the longest prefix that does not end with a space. */
  function TrimEnd(s: string): (r: string)
    ensures |r| <= |s| && r == s[..|r|]
    ensures r == [] || !IsSpace(r[|r| - 1])
    ensures forall i :: |r| <= i < |s| ==> IsSpace(s[i])
  {
    if |s| > 0 && IsSpace(s[|s| - 1]) then TrimEnd(s[..|s| - 1]) else s
  }

  /** `r` is `s` with the `k` characters before it and the ones after it, all white
      space, cut away. */
  predicate TrimmedAt(s: string, r: string, k: int)
  {
    && 0 <= k && k + |r| <= |s| && s[k..k + |r|] == r
    && AllSpace(s[..k]) && AllSpace(s[k + |r|..])
  }

  /** Every character of `s` is white space. */
  predicate AllSpace(s: string)
  {
    forall i :: 0 <= i < |s| ==> IsSpace(s[i])
  }

  /** `trim()`: what is left of `s` once white space is cut from both ends; no white
      space is left at either end. */
  function Trim(s: string): (r: string)
    ensures r == [] || (!IsSpace(r[0]) && !IsSpace(r[|r| - 1]))
  {
    TrimBothEnds(s);
    TrimEnd(TrimStart(s))
  }

  /** What `trim()` keeps is a piece of `s` with only white space around it. */
  lemma TrimCutsWhiteSpace(s: string)
    ensures exists k :: TrimmedAt(s, Trim(s), k)
  {
    TrimBothEnds(s);
    assert TrimmedAt(s, Trim(s), |s| - |TrimStart(s)|);
  }

  /** Cutting the leading, then the trailing white space leaves a piece of `s` with
      only white space around it. */
  lemma TrimBothEnds(s: string)
    ensures TrimmedAt(s, TrimEnd(TrimStart(s)), |s| - |TrimStart(s)|)
    ensures var t := TrimEnd(TrimStart(s)); t == [] || (!IsSpace(t[0]) && !IsSpace(t[|t| - 1]))
  {
    var u := TrimStart(s);
    var t := TrimEnd(u);
    TrimStartCutsSpace(s);
    TrimEndCutsSpace(u);
    CutTwice(s, u, t);
    assert t == [] || t[0] == u[0];
  }

  /** A prefix `t` of a suffix `u` of `s`, with white space cut on both sides, is a
      trimmed piece of `s`. */
  lemma CutTwice(s: string, u: string, t: string)
    requires |u| <= |s| && u == s[|s| - |u|..] && AllSpace(s[..|s| - |u|])
    requires |t| <= |u| && t == u[..|t|] && AllSpace(u[|t|..])
    ensures TrimmedAt(s, t, |s| - |u|)
  {
    var k := |s| - |u|;
    assert s[k..][..|t|] == s[k..k + |t|] && s[k..][|t|..] == s[k + |t|..];
  }

  lemma TrimStartCutsSpace(s: string)
    ensures AllSpace(s[..|s| - |TrimStart(s)|])
  {
    var head := s[..|s| - |TrimStart(s)|];
    forall i | 0 <= i < |head| ensures IsSpace(head[i]) {
      assert head[i] == s[i];
    }
  }

  lemma TrimEndCutsSpace(u: string)
    ensures AllSpace(u[|TrimEnd(u)|..])
  {
    var tail := u[|TrimEnd(u)|..];
    forall i | 0 <= i < |tail| ensures IsSpace(tail[i]) {
      assert tail[i] == u[i + |TrimEnd(u)|];
    }
  }

  lemma TrimStartOfTrimmed(t: string)
    requires t == [] || !IsSpace(t[0])
    ensures TrimStart(t) == t
  {
  }

  lemma TrimEndOfTrimmed(t: string)
    requires t == [] || !IsSpace(t[|t| - 1])
    ensures TrimEnd(t) == t
  {
  }

  /** Trimming twice is trimming once. */
  lemma TrimIdempotent(s: string)
    ensures Trim(Trim(s)) == Trim(s)
  {
    var u := TrimStart(s);
    var t := TrimEnd(u);
    assert t == [] || t[0] == u[0];
    TrimStartOfTrimmed(t);
    TrimEndOfTrimmed(t);
  }

  /** A slice of a lower-case string is lower-case. */
  lemma SliceKeepsLower(s: string, from: nat, to: nat)
    requires IsLower(s) && from <= to <= |s|
    ensures IsLower(s[from..to])
  {
    forall i | 0 <= i < to - from ensures LowerChar(s[from..to][i]) == s[from..to][i] {
      assert s[from..to][i] == s[from + i];
    }
  }

  /** A trimmed lower-case string is a slice of a lower-case string, hence lower-case. */
  lemma TrimKeepsLower(s: string)
    requires IsLower(s)
    ensures IsLower(Trim(s))
  {
    var u := TrimStart(s);
    SliceKeepsLower(s, |s| - |u|, |s|);
    assert u == s[|s| - |u|..|s|];
    var t := TrimEnd(u);
    SliceKeepsLower(u, 0, |t|);
    assert t == u[0..|t|];
  }

  // ---------------------------------------------------------------- search

  /** `pat` occurs in `s` starting at position `j`. */
  predicate OccursAt(s: string, pat: string, j: int)
  {
    0 <= j && j + |pat| <= |s| && s[j..j + |pat|] == pat
  }

  /** `s.includes(pat)`. */
  predicate Contains(s: string, pat: string)
  {
    exists j :: 0 <= j <= |s| && OccursAt(s, pat, j)
  }

  /** The first position at or after `i` where `pat` occurs in `s`. */
  function IndexFrom(s: string, pat: string, i: nat): (r: Option<nat>)
    requires i <= |s|
    decreases |s| - i
    ensures r.Some? ==> i <= r.value && OccursAt(s, pat, r.value)
    ensures forall j :: i <= j && (r.None? || j < r.value) ==> !OccursAt(s, pat, j)
  {
    if i + |pat| > |s| then None
    else if s[i..i + |pat|] == pat then Some(i)
    else IndexFrom(s, pat, i + 1)
  }

  /** `s.indexOf(pat)`, absent as None. */
  function IndexOf(s: string, pat: string): (r: Option<nat>)
    ensures r.Some? <==> Contains(s, pat)
    ensures r.Some? ==> OccursAt(s, pat, r.value)
    ensures r.Some? ==> forall j :: 0 <= j < r.value ==> !OccursAt(s, pat, j)
  {
    IndexFrom(s, pat, 0)
  }

  /** `s.replace(pat, rep)` with a string pattern: only the FIRST occurrence is replaced. */
  function ReplaceFirst(s: string, pat: string, rep: string): (r: string)
    ensures !Contains(s, pat) ==> r == s
    ensures Contains(s, pat) ==>
      exists i :: OccursAt(s, pat, i) && r == s[..i] + rep + s[i + |pat|..]
  {
    match IndexOf(s, pat)
    case None => s
    case Some(i) => s[..i] + rep + s[i + |pat|..]
  }

  /** A pattern at the very front is the first occurrence, so replacing it removes exactly the front. */
  lemma ReplaceFirstAtFront(pat: string, rest: string)
    ensures ReplaceFirst(pat + rest, pat, "") == rest
  {
    var s := pat + rest;
    assert OccursAt(s, pat, 0);
    assert IndexFrom(s, pat, 0) == Some(0);
    assert s[|pat|..] == rest;
  }

  /** A pattern whose first character never occurs in `s` does not occur in `s`. */
  lemma {:induction false} NotContainsByFirstChar(s: string, pat: string)
    requires |pat| > 0 && pat[0] !in s
    ensures !Contains(s, pat)
  {
    forall j | 0 <= j <= |s| ensures !OccursAt(s, pat, j) {
      if j + |pat| <= |s| {
        assert s[j..j + |pat|][0] == s[j];
      }
    }
  }

  /** A pattern longer than `s` does not occur in it. */
  lemma NotContainsLonger(s: string, pat: string)
    requires |pat| > |s|
    ensures !Contains(s, pat)
  {
  }

  lemma ContainsEmpty(s: string)
    ensures Contains(s, "")
  {
    assert OccursAt(s, "", 0);
  }

  lemma ContainsSelf(s: string)
    ensures Contains(s, s)
  {
    assert OccursAt(s, s, 0);
  }

  /** `s.split(c)[0]`: everything before the first `c`, or all of `s`. */
  function BeforeFirst(s: string, c: char): (r: string)
    ensures IsPrefixOf(r, s)
    ensures c !in r
    ensures |r| < |s| ==> s[|r|] == c
  {
    if s == [] then []
    else if s[0] == c then []
    else [s[0]] + BeforeFirst(s[1..], c)
  }

  predicate IsPrefixOf(p: string, s: string)
  {
    |p| <= |s| && s[..|p|] == p
  }

  // ---------------------------------------------------------------- selection

  /** `r` lists the elements of `s` at the strictly increasing positions `idx`: `r`
      keeps the order of `s`, as `filter` does. */
  predicate SelectedAt<T(==)>(r: seq<T>, s: seq<T>, idx: seq<nat>)
  {
    && |idx| == |r|
    && (forall k :: 0 <= k < |idx| ==> idx[k] < |s| && r[k] == s[idx[k]])
    && (forall k, l :: 0 <= k < l < |idx| ==> idx[k] < idx[l])
  }

  function Shift(idx: seq<nat>): (r: seq<nat>)
    ensures |r| == |idx| && forall k :: 0 <= k < |idx| ==> r[k] == idx[k] + 1
  {
    seq(|idx|, k requires 0 <= k < |idx| => idx[k] + 1)
  }

  /** A selection from the tail of `s` is a selection from `s`, with or without the
      head in front. */
  lemma SelectedAtShift<T>(rest: seq<T>, s: seq<T>, idx: seq<nat>)
    requires |s| > 0 && SelectedAt(rest, s[1..], idx)
    ensures SelectedAt(rest, s, Shift(idx))
    ensures SelectedAt([s[0]] + rest, s, [0] + Shift(idx))
  {
    var sh := Shift(idx);
    forall k | 0 <= k < |sh| ensures sh[k] < |s| && rest[k] == s[sh[k]] {
      assert rest[k] == s[1..][idx[k]];
    }
    var full := [0] + sh;
    var r := [s[0]] + rest;
    forall k | 0 <= k < |full| ensures full[k] < |s| && r[k] == s[full[k]] {
      if k > 0 {
        assert full[k] == sh[k - 1] && r[k] == rest[k - 1];
      }
    }
    forall k, l | 0 <= k < l < |full| ensures full[k] < full[l] {
      assert full[l] == sh[l - 1];
      if k > 0 {
        assert full[k] == sh[k - 1];
      }
    }
  }

  // ---------------------------------------------------------------- join

  /** `parts.join(sep)`. */
  function Join(parts: seq<string>, sep: string): (r: string)
    ensures parts == [] ==> r == ""
    ensures |parts| == 1 ==> r == parts[0]
    ensures parts != [] ==> IsPrefixOf(parts[0], r)
  {
    if parts == [] then ""
    else if |parts| == 1 then parts[0]
    else parts[0] + sep + Join(parts[1..], sep)
  }

  // ---------------------------------------------------------------- numbers

  function DigitChar(d: nat): (r: char)
    requires d < 10
  {
    "0123456789"[d]
  }

  /** Decimal rendering of a natural number, as in a template literal. */
  function NatToString(n: nat): (r: string)
    ensures |r| >= 1
    decreases n
  {
    if n < 10 then [DigitChar(n)] else NatToString(n / 10) + [DigitChar(n % 10)]
  }
}
