/**
 * String helpers with JavaScript semantics: `indexOf`/`includes`, `startsWith`,
 * `split` and `join` on a non-empty separator, and `trim`.
 * Strings are sequences of characters; JavaScript's UTF-16 code units are not modelled.
 */
module Text {
  import opened Wrappers

  /** `t` occurs in `s` starting at position `j`. */
  predicate OccursAt(s: string, t: string, j: int)
  {
    0 <= j && j + |t| <= |s| && s[j..j + |t|] == t
  }

  /** `s.startsWith(p)` */
  predicate StartsWith(s: string, p: string)
  {
    OccursAt(s, p, 0)
  }

  /** First occurrence of `t` in `s` at or after position `from` (the search of `indexOf`). */
  function IndexOfFrom(s: string, t: string, from: nat): (r: Option<nat>)
    requires from <= |s|
    ensures r.Some? ==> from <= r.value && OccursAt(s, t, r.value)
    ensures r.Some? ==> forall j :: from <= j < r.value ==> !OccursAt(s, t, j)
    ensures r.None? ==> forall j :: from <= j <= |s| ==> !OccursAt(s, t, j)
    decreases |s| - from
  {
    if OccursAt(s, t, from) then Some(from)
    else if from == |s| then None
    else IndexOfFrom(s, t, from + 1)
  }

  /** `s.indexOf(t)`, with `None` for -1. */
  function IndexOf(s: string, t: string): (r: Option<nat>)
    ensures r.Some? ==> OccursAt(s, t, r.value) && forall j :: 0 <= j < r.value ==> !OccursAt(s, t, j)
    ensures r.None? ==> forall j :: 0 <= j <= |s| ==> !OccursAt(s, t, j)
  {
    IndexOfFrom(s, t, 0)
  }

  /** `s.includes(t)` */
  predicate Contains(s: string, t: string)
  {
    IndexOf(s, t).Some?
  }

  /** `includes` is substring containment at any position, not a prefix test. */
  lemma ContainsIff(s: string, t: string)
    ensures Contains(s, t) <==> exists j :: OccursAt(s, t, j)
  {
    if exists j :: OccursAt(s, t, j) {
      var j :| OccursAt(s, t, j);
      assert j <= |s|;
    }
  }

  /** The first occurrence is determined by the occurrences: `k` is it exactly when nothing occurs earlier. */
  lemma IndexOfIs(s: string, t: string, k: nat)
    requires OccursAt(s, t, k)
    requires forall j :: 0 <= j < k ==> !OccursAt(s, t, j)
    ensures IndexOf(s, t) == Some(k)
  {
    assert k <= |s|;
  }

  /** Text that contains `t` still contains it with anything added on either side. */
  lemma ContainsInfix(a: string, s: string, b: string, t: string)
    requires Contains(s, t)
    ensures Contains(a + s + b, t)
  {
    var j := IndexOf(s, t).value;
    var w := a + s + b;
    assert w[|a| + j..|a| + j + |t|] == s[j..j + |t|];
    assert OccursAt(w, t, |a| + j);
    ContainsIff(w, t);
  }

  /** `ps.join(sep)` */
  function Join(ps: seq<string>, sep: string): string
  {
    if |ps| == 0 then ""
    else if |ps| == 1 then ps[0]
    else ps[0] + sep + Join(ps[1..], sep)
  }

  /** `s.split(sep)` for a non-empty separator: cut at each leftmost occurrence, scanning left to right. */
  function Split(s: string, sep: string): (r: seq<string>)
    requires |sep| > 0
    ensures |r| >= 1
    decreases |s|
  {
    match IndexOf(s, sep)
    case None => [s]
    case Some(i) => [s[..i]] + Split(s[i + |sep|..], sep)
  }

  /** No piece of a split contains the separator. */
  lemma {:induction false} SplitPiecesFree(s: string, sep: string)
    requires |sep| > 0
    ensures forall k :: 0 <= k < |Split(s, sep)| ==> !Contains(Split(s, sep)[k], sep)
    decreases |s|
  {
    match IndexOf(s, sep)
    case None =>
    case Some(i) =>
      SplitPiecesFree(s[i + |sep|..], sep);
      var p := s[..i];
      forall j | OccursAt(p, sep, j) ensures false {
        assert s[j..j + |sep|] == p[j..j + |sep|];
        assert OccursAt(s, sep, j);
      }
      ContainsIff(p, sep);
  }

  /** Joining the pieces of a split gives back the text. */
  lemma {:induction false} JoinSplit(s: string, sep: string)
    requires |sep| > 0
    ensures Join(Split(s, sep), sep) == s
    decreases |s|
  {
    match IndexOf(s, sep)
    case None =>
    case Some(i) =>
      var p, rest := s[..i], s[i + |sep|..];
      var q := Split(rest, sep);
      JoinSplit(rest, sep);
      assert Split(s, sep) == [p] + q;
      assert ([p] + q)[1..] == q;
      assert Join([p] + q, sep) == p + sep + Join(q, sep);
      assert s == p + sep + rest;
  }

  /**
   * The pieces `ps` come back from `Split(Join(ps, sep), sep)`: the list is not empty, the last piece has
   * no separator and every other piece followed by the separator has its first occurrence right after it.
   */
  predicate SplitsBack(ps: seq<string>, sep: string)
  {
    && |ps| > 0
    && !Contains(ps[|ps| - 1], sep)
    && forall k :: 0 <= k < |ps| - 1 ==> IndexOf(ps[k] + sep, sep) == Some(|ps[k]|)
  }

  /** The first occurrence within a prefix is also the first occurrence in the whole text. */
  lemma IndexOfExtend(a: string, b: string, t: string)
    requires IndexOf(a, t).Some?
    ensures IndexOf(a + b, t) == IndexOf(a, t)
  {
    var k := IndexOf(a, t).value;
    assert (a + b)[k..k + |t|] == a[k..k + |t|];
    forall j | 0 <= j < k && OccursAt(a + b, t, j) ensures false {
      assert (a + b)[j..j + |t|] == a[j..j + |t|];
      assert OccursAt(a, t, j);
    }
    IndexOfIs(a + b, t, k);
  }

  lemma {:induction false} SplitJoin(ps: seq<string>, sep: string)
    requires |sep| > 0
    requires SplitsBack(ps, sep)
    ensures Split(Join(ps, sep), sep) == ps
  {
    if |ps| == 1 {
    } else {
      var tail := Join(ps[1..], sep);
      assert Join(ps, sep) == ps[0] + sep + tail;
      IndexOfExtend(ps[0] + sep, tail, sep);
      assert (ps[0] + sep + tail)[..|ps[0]|] == ps[0];
      assert (ps[0] + sep + tail)[|ps[0]| + |sep|..] == tail;
      assert SplitsBack(ps[1..], sep) by {
        assert ps[1..][|ps[1..]| - 1] == ps[|ps| - 1];
        forall k | 0 <= k < |ps[1..]| - 1 ensures IndexOf(ps[1..][k] + sep, sep) == Some(|ps[1..][k]|) {
          assert ps[1..][k] == ps[k + 1];
        }
      }
      SplitJoin(ps[1..], sep);
      assert ps == [ps[0]] + ps[1..];
    }
  }

  // ---------------------------------------------------------------------------
  // trim

  /** ECMAScript WhiteSpace and LineTerminator characters, which `String.prototype.trim` removes. */
  predicate IsWhiteSpace(c: char)
  {
    || c == '\t' || c == '\n' || c == '\U{000B}' || c == '\U{000C}' || c == '\r' || c == ' '
    || c == '\U{00A0}' || c == '\U{1680}' || ('\U{2000}' <= c <= '\U{200A}')
    || c == '\U{2028}' || c == '\U{2029}' || c == '\U{202F}' || c == '\U{205F}' || c == '\U{3000}'
    || c == '\U{FEFF}'
  }

  /** Number of white-space characters at the start of `s`. */
  function LeadingSpace(s: string): (k: nat)
    ensures k <= |s|
    ensures forall i :: 0 <= i < k ==> IsWhiteSpace(s[i])
    ensures k < |s| ==> !IsWhiteSpace(s[k])
  {
    if |s| > 0 && IsWhiteSpace(s[0]) then 1 + LeadingSpace(s[1..]) else 0
  }

  /** Number of white-space characters at the end of `s`. */
  function TrailingSpace(s: string): (k: nat)
    ensures k <= |s|
    ensures forall i :: |s| - k <= i < |s| ==> IsWhiteSpace(s[i])
    ensures k < |s| ==> !IsWhiteSpace(s[|s| - 1 - k])
  {
    if |s| > 0 && IsWhiteSpace(s[|s| - 1]) then 1 + TrailingSpace(s[..|s| - 1]) else 0
  }

  /** `r` is `s` with the white space around it removed, `r` starting at position `i` of `s`. */
  predicate TrimmedAt(s: string, r: string, i: int)
  {
    && 0 <= i <= |s| - |r| && s[i..i + |r|] == r
    && (forall k :: 0 <= k < i ==> IsWhiteSpace(s[k]))
    && (forall k :: i + |r| <= k < |s| ==> IsWhiteSpace(s[k]))
  }

  /** `s.trim()`: the text between the leading and the trailing white space. */
  function Trim(s: string): (r: string)
    ensures |r| <= |s|
    ensures r == [] || (!IsWhiteSpace(r[0]) && !IsWhiteSpace(r[|r| - 1]))
    ensures exists i :: TrimmedAt(s, r, i)
  {
    var a := LeadingSpace(s);
    var t := s[a..];
    var b := TrailingSpace(t);
    var r := t[..|t| - b];
    assert s[a..a + |r|] == r;
    assert TrimmedAt(s, r, a);
    r
  }

  /** Trimming twice is trimming once. */
  lemma TrimIdempotent(s: string)
    ensures Trim(Trim(s)) == Trim(s)
  {
    var r := Trim(s);
    assert LeadingSpace(r) == 0;
    assert TrailingSpace(r) == 0;
    assert r[0..] == r;
  }

  /** Trimming cuts a piece out of the text, so it cannot bring in a fragment that was not there. */
  lemma TrimKeepsOut(p: string, t: string)
    requires !Contains(p, t)
    ensures !Contains(Trim(p), t)
  {
    var r := Trim(p);
    var k :| TrimmedAt(p, r, k);
    assert r == p[k..k + |r|];
    forall j | OccursAt(r, t, j) ensures OccursAt(p, t, k + j) {
      assert p[k + j..k + j + |t|] == p[k..k + |r|][j..j + |t|];
    }
    ContainsIff(r, t);
    ContainsIff(p, t);
  }
}
