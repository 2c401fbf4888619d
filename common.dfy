/** Small shared vocabulary: an Option type, JavaScript/Python truthiness of optional
    strings, and the string predicates the source relies on (prefix tests, substring
    tests, ASCII upper-casing). */
module Common {

  datatype Option<+T> = None | Some(value: T)

  /** The number of trading days in the foreign net-buy window. */
  const WindowSize: nat := 8

  /** A JavaScript or Python value that is either absent (`undefined`/`null`/`None`)
      or a string is truthy exactly when it is present and not the empty string. */
  predicate Truthy(o: Option<string>)
  {
    o.Some? && o.value != ""
  }

  /** `a || b` on optional strings: `a` when it is truthy, `b` otherwise. */
  function OrElse(a: Option<string>, b: Option<string>): (r: Option<string>)
    ensures Truthy(a) ==> r == a
    ensures !Truthy(a) ==> r == b
  {
    if Truthy(a) then a else b
  }

  /** `a || fallback` where the fallback is a plain string. */
  function OrDefault(a: Option<string>, fallback: string): (r: string)
    ensures Truthy(a) ==> r == a.value
    ensures !Truthy(a) ==> r == fallback
  {
    if Truthy(a) then a.value else fallback
  }

  /** The text JavaScript produces when an optional string is interpolated into a
      template literal, for a value that is a string or `null`; an absent value
      prints as "null". JavaScript prints `undefined` as "undefined" instead; the
      login route always passes a truthy kakao id, so it never reaches that case. */
  function Interpolated(o: Option<string>): string
  {
    if o.Some? then o.value else "null"
  }

  predicate StartsWith(s: string, prefix: string)
  {
    |prefix| <= |s| && s[..|prefix|] == prefix
  }

  /** Python's `sub in s` for strings. */
  predicate Contains(s: string, sub: string)
    decreases |s|
  {
    StartsWith(s, sub) || (|s| > 0 && Contains(s[1..], sub))
  }

  lemma {:induction false} ContainsAt(s: string, sub: string, i: nat)
    requires i + |sub| <= |s| && s[i..i + |sub|] == sub
    ensures Contains(s, sub)
    decreases i
  {
    if i == 0 {
      assert s[..|sub|] == sub;
    } else {
      assert s[1..][i - 1..i - 1 + |sub|] == s[i..i + |sub|];
      ContainsAt(s[1..], sub, i - 1);
    }
  }

  lemma {:induction false} ContainsWitness(s: string, sub: string) returns (i: nat)
    requires Contains(s, sub)
    ensures i + |sub| <= |s| && s[i..i + |sub|] == sub
    decreases |s|
  {
    if StartsWith(s, sub) {
      i := 0;
    } else {
      var j := ContainsWitness(s[1..], sub);
      assert s[j + 1..j + 1 + |sub|] == s[1..][j..j + |sub|];
      i := j + 1;
    }
  }

  /** A prefix followed by anything starts with that prefix, and stripping it gives
      back what followed. */
  lemma PrefixConcat(prefix: string, rest: string)
    ensures StartsWith(prefix + rest, prefix)
    ensures (prefix + rest)[|prefix|..] == rest
  {
    assert (prefix + rest)[..|prefix|] == prefix;
  }

  /** Strings that differ in their first character are never related by a
      common prefix; the key prefixes of the table rely on this. */
  lemma DistinctHeads(p: string, q: string, a: string, b: string)
    requires |p| > 0 && |q| > 0 && p[0] != q[0]
    ensures p + a != q + b
    ensures !StartsWith(q + b, p)
  {
    assert (p + a)[0] == p[0];
    assert (q + b)[0] == q[0];
  }

  function UpperChar(c: char): (d: char)
    ensures 'a' <= c <= 'z' ==> 'A' <= d <= 'Z'
    ensures !('a' <= c <= 'z') ==> d == c
  {
    if 'a' <= c <= 'z' then (c as int - 32) as char else c
  }

  /** Python's `str.upper()` restricted to ASCII letters. */
  function Upper(s: string): (r: string)
    ensures |r| == |s|
    ensures forall i :: 0 <= i < |s| ==> r[i] == UpperChar(s[i])
  {
    seq(|s|, i requires 0 <= i < |s| => UpperChar(s[i]))
  }
}
