/** The few JavaScript built-ins the quote components rely on, stated over
    exact integers and character sequences. */
module Js {

  /** `undefined` / `null` versus a present value. */
  datatype Option<+T> = None | Some(value: T)

  /** `Math.round(p / q)` for an exact rational p/q (section 21.3.2.28 of
      ECMA-262): the integer nearest to p/q, halves going toward +infinity,
      i.e. floor(p/q + 1/2). */
  function Round(p: int, q: int): (r: int)
    requires q > 0
    ensures 2 * q * r <= 2 * p + q < 2 * q * r + 2 * q
  {
    var n, d := 2 * p + q, 2 * q;
    assert n == d * (n / d) + n % d;
    n / d
  }

  /** `xs.every(p)`: true exactly when every element satisfies p. */
  function Every<T>(xs: seq<T>, p: T -> bool): (r: bool)
    ensures r <==> forall i :: 0 <= i < |xs| ==> p(xs[i])
  {
    if |xs| == 0 then true
    else p(xs[0]) && Every(xs[1..], p)
  }

  /** `s.indexOf(c)` for a one-character search string; `None` stands for -1. */
  function IndexOf(s: string, c: char): (r: Option<nat>)
    ensures r.None? <==> c !in s
    ensures r.Some? ==> r.value < |s| && s[r.value] == c
    ensures r.Some? ==> forall j :: 0 <= j < r.value ==> s[j] != c
  {
    if |s| == 0 then None
    else if s[0] == c then Some(0)
    else match IndexOf(s[1..], c)
      case None => None
      case Some(k) => Some(k + 1)
  }

  /** `s.replace(pattern, replacement)` with one-character string arguments
      (section 22.1.3.19 of ECMA-262): only the first occurrence is replaced,
      and a string without the pattern comes back unchanged. */
  function Replace(s: string, pattern: char, replacement: char): (r: string)
    ensures r == match IndexOf(s, pattern)
                 case None => s
                 case Some(k) => s[..k] + [replacement] + s[k + 1..]
  {
    if |s| == 0 then s
    else if s[0] == pattern then [replacement] + s[1..]
    else [s[0]] + Replace(s[1..], pattern, replacement)
  }

  /** The replacement lands on the first occurrence, whatever follows it. */
  lemma ReplaceFirstOccurrence(prefix: string, pattern: char, replacement: char, rest: string)
    requires pattern !in prefix
    ensures Replace(prefix + [pattern] + rest, pattern, replacement) == prefix + [replacement] + rest
  {
    var s := prefix + [pattern] + rest;
    assert s[|prefix|] == pattern;
    var k := IndexOf(s, pattern).value;
    assert s[..k] == prefix && s[k + 1..] == rest;
  }
}
