/**
 * The few JavaScript string and array built-ins the lookup control relies on:
 * `Array.prototype.join`, `String.prototype.trim` and
 * `String.prototype.replace` with a one-character string pattern, plus an
 * `indexOf` helper that specifies which character `replace` removes.
 */
module JsStrings {

  /** `parts.join(sep)`: the parts with `sep` between neighbours. */
  function Join(parts: seq<string>, sep: string): string
  {
    if |parts| == 0 then ""
    else if |parts| == 1 then parts[0]
    else parts[0] + sep + Join(parts[1..], sep)
  }

  /** Every part followed by `sep`, concatenated. */
  function Terminated(parts: seq<string>, sep: string): string
  {
    if |parts| == 0 then "" else parts[0] + sep + Terminated(parts[1..], sep)
  }

  lemma {:induction false} TerminatedAppend(a: seq<string>, b: seq<string>, sep: string)
    ensures Terminated(a + b, sep) == Terminated(a, sep) + Terminated(b, sep)
  {
    if |a| > 0 {
      assert (a + b)[1..] == a[1..] + b;
      TerminatedAppend(a[1..], b, sep);
    } else {
      assert a + b == b;
    }
  }

  /** Joining a list whose tail is non-empty: each head part contributes itself and one separator. */
  lemma {:induction false} JoinWithTail(heads: seq<string>, tail: seq<string>, sep: string)
    requires |tail| > 0
    ensures Join(heads + tail, sep) == Terminated(heads, sep) + Join(tail, sep)
  {
    if |heads| > 0 {
      assert (heads + tail)[1..] == heads[1..] + tail;
      JoinWithTail(heads[1..], tail, sep);
    } else {
      assert heads + tail == tail;
    }
  }

  /** The characters `trim` removes: ECMAScript WhiteSpace and LineTerminator. */
  predicate IsJsSpace(c: char)
  {
    || c == ' ' || c == '\t' || c == '\n' || c == '\r'
    || c == '\U{000B}' || c == '\U{000C}' || c == '\U{00A0}' || c == '\U{1680}'
    || ('\U{2000}' <= c <= '\U{200A}')
    || c == '\U{2028}' || c == '\U{2029}' || c == '\U{202F}' || c == '\U{205F}'
    || c == '\U{3000}' || c == '\U{FEFF}'
  }

  /** Drops leading white space: the result is the suffix after a run of spaces. */
  function TrimStart(s: string): (r: string)
    ensures |r| <= |s| && r == s[|s| - |r|..]
    ensures r == [] || !IsJsSpace(r[0])
    ensures forall i :: 0 <= i < |s| - |r| ==> IsJsSpace(s[i])
  {
    if |s| > 0 && IsJsSpace(s[0]) then TrimStart(s[1..]) else s
  }

  /** Drops trailing white space: the result is the prefix before a run of spaces. */
  function TrimEnd(s: string): (r: string)
    ensures |r| <= |s| && r == s[..|r|]
    ensures r == [] || !IsJsSpace(r[|r| - 1])
    ensures forall i :: |r| <= i < |s| ==> IsJsSpace(s[i])
  {
    if |s| > 0 && IsJsSpace(s[|s| - 1]) then TrimEnd(s[..|s| - 1]) else s
  }

  /** `r` is the infix of `s` starting at `k`, and everything outside it is white space. */
  predicate InfixBetweenSpaces(r: string, s: string, k: int)
  {
    && 0 <= k <= |s| - |r|
    && r == s[k..k + |r|]
    && (forall i :: 0 <= i < k ==> IsJsSpace(s[i]))
    && (forall i :: k + |r| <= i < |s| ==> IsJsSpace(s[i]))
  }

  /** `s.trim()`: the infix left after removing white space at both ends. */
  function Trim(s: string): (r: string)
    ensures |r| <= |s|
    ensures r == [] || (!IsJsSpace(r[0]) && !IsJsSpace(r[|r| - 1]))
    ensures InfixBetweenSpaces(r, s, |s| - |TrimStart(s)|)
  {
    TrimIsInfix(s);
    TrimEnd(TrimStart(s))
  }

  lemma TrimIsInfix(s: string)
    ensures InfixBetweenSpaces(TrimEnd(TrimStart(s)), s, |s| - |TrimStart(s)|)
  {
    var t := TrimStart(s);
    var r := TrimEnd(t);
    var k := |s| - |t|;
    assert t == s[k..];
    assert r == t[..|r|];
    assert r == s[k..k + |r|];
    assert forall i :: 0 <= i < k ==> IsJsSpace(s[i]);
    forall i | k + |r| <= i < |s|
      ensures IsJsSpace(s[i])
    {
      var j := i - k;
      assert |r| <= j < |t|;
      assert IsJsSpace(t[j]);
      assert s[i] == t[j];
    }
    assert InfixBetweenSpaces(r, s, k);
  }

  /** A string that neither starts nor ends with white space is its own trim; so trimming twice changes nothing. */
  lemma TrimKeepsTrimmed(s: string)
    requires s == [] || (!IsJsSpace(s[0]) && !IsJsSpace(s[|s| - 1]))
    ensures Trim(s) == s
  {
  }

  lemma TrimIdempotent(s: string)
    ensures Trim(Trim(s)) == Trim(s)
  {
    TrimKeepsTrimmed(Trim(s));
  }

  /** `s.indexOf(c)`: the first position of `c`, or -1. */
  function IndexOf(s: string, c: char): (i: int)
    ensures -1 <= i < |s|
    ensures i == -1 <==> c !in s
    ensures 0 <= i ==> s[i] == c && c !in s[..i]
  {
    if |s| == 0 then -1
    else if s[0] == c then 0
    else
      var j := IndexOf(s[1..], c);
      if j < 0 then -1
      else
        assert s[..j + 1] == [s[0]] + s[1..][..j];
        j + 1
  }

  /** `s.replace(c, "")` with a one-character string pattern: removes the first occurrence only. */
  function RemoveFirst(s: string, c: char): (r: string)
    ensures c !in s ==> r == s
    ensures c in s ==> |r| == |s| - 1
    ensures c in s ==> r == s[..IndexOf(s, c)] + s[IndexOf(s, c) + 1..]
    ensures multiset(r) == multiset(s) - multiset{c}
  {
    var i := IndexOf(s, c);
    if i < 0 then s
    else
      assert s == s[..i] + [c] + s[i + 1..];
      s[..i] + s[i + 1..]
  }

  /** Removing `c` from `p + [c] + w` when `p` has no `c`: the part before and the part after are kept, in order. */
  lemma RemoveFirstAt(p: string, c: char, w: string)
    requires c !in p
    ensures RemoveFirst(p + [c] + w, c) == p + w
  {
    var s := p + [c] + w;
    var i := IndexOf(s, c);
    assert s[..|p|] == p;
    assert forall k :: 0 <= k < |p| ==> s[k] == p[k];
    assert forall k :: |p| < k <= |s| ==> s[..k][|p|] == c;
    assert s[|p| + 1..] == w;
  }
}
