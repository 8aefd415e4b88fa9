/**
 * The string primitives the core relies on: lower-casing, `strip()`,
 * the `in` substring test, `split()` word counting, and the number
 * formatting of f-strings (`{i}` and `{x:.2f}`).  Strings are `seq<char>`.
 */
module Text {

  /** Python's `str.isspace()`, the separator set of `strip()` and `split()`. */
  predicate IsSpace(c: char) {
    var n := c as int;
    (9 <= n <= 13) || (28 <= n <= 32) || n == 0x85 || n == 0xA0 || n == 0x1680
    || (0x2000 <= n <= 0x200A) || n == 0x2028 || n == 0x2029 || n == 0x202F
    || n == 0x205F || n == 0x3000
  }

  /** `str.lower()` on the ASCII letters. */
  function LowerChar(c: char): char {
    if 'A' <= c <= 'Z' then (c as int + 32) as char else c
  }

  function Lower(s: string): (r: string)
    ensures |r| == |s|
    ensures forall i | 0 <= i < |s| :: r[i] == LowerChar(s[i])
  {
    if s == [] then [] else [LowerChar(s[0])] + Lower(s[1..])
  }

  /** Lower-casing twice is lower-casing once, so a lower-cased text is a fixed point. */
  lemma LowerIdempotent(s: string)
    ensures Lower(Lower(s)) == Lower(s)
  {
    assert forall i | 0 <= i < |s| :: LowerChar(LowerChar(s[i])) == LowerChar(s[i]);
  }

  function TrimStart(s: string): (r: string)
    ensures |r| <= |s| && r == s[|s| - |r|..]
    ensures r == [] || !IsSpace(r[0])
    decreases |s|
  {
    if |s| > 0 && IsSpace(s[0]) then TrimStart(s[1..]) else s
  }

  function TrimEnd(s: string): (r: string)
    ensures |r| <= |s| && r == s[..|r|]
    ensures r == [] || !IsSpace(r[|r| - 1])
    decreases |s|
  {
    if |s| > 0 && IsSpace(s[|s| - 1]) then TrimEnd(s[..|s| - 1]) else s
  }

  /** No separator at either end: what `strip()` leaves. */
  predicate IsTrimmed(s: string) {
    s == [] || (!IsSpace(s[0]) && !IsSpace(s[|s| - 1]))
  }

  predicate AllSpace(s: string) {
    forall i | 0 <= i < |s| :: IsSpace(s[i])
  }

  /** `str.strip()`. */
  function Trim(s: string): (r: string)
    ensures IsTrimmed(r)
    ensures |r| <= |s|
  {
    TrimEnd(TrimStart(s))
  }

  lemma {:induction false} TrimStartSpaces(w: string, s: string)
    requires AllSpace(w)
    ensures TrimStart(w + s) == TrimStart(s)
    decreases |w|
  {
    if w != [] {
      assert (w + s)[0] == w[0];
      assert (w + s)[1..] == w[1..] + s;
      TrimStartSpaces(w[1..], s);
    } else {
      assert w + s == s;
    }
  }

  lemma {:induction false} TrimEndSpaces(s: string, w: string)
    requires AllSpace(w)
    ensures TrimEnd(s + w) == TrimEnd(s)
    decreases |w|
  {
    if w != [] {
      assert (s + w)[|s + w| - 1] == w[|w| - 1];
      assert (s + w)[..|s + w| - 1] == s + w[..|w| - 1];
      TrimEndSpaces(s, w[..|w| - 1]);
    } else {
      assert s + w == s;
    }
  }

  lemma TrimStartFixed(s: string)
    requires IsTrimmed(s)
    ensures TrimStart(s) == s
  {
  }

  lemma TrimEndFixed(s: string)
    requires IsTrimmed(s)
    ensures TrimEnd(s) == s
  {
  }

  /** `strip()` removes exactly the surrounding separators of a trimmed core, and nothing of the core. */
  lemma TrimRemovesPadding(w1: string, s: string, w2: string)
    requires AllSpace(w1) && AllSpace(w2) && IsTrimmed(s)
    ensures Trim(w1 + s + w2) == s
  {
    assert w1 + s + w2 == w1 + (s + w2);
    TrimStartSpaces(w1, s + w2);
    if s == [] {
      assert s + w2 == w2;
      TrimAllSpace(w2);
    } else {
      assert TrimStart(s + w2) == s + w2;
      TrimEndSpaces(s, w2);
      TrimEndFixed(s);
    }
  }

  lemma {:induction false} TrimAllSpace(w: string)
    requires AllSpace(w)
    ensures TrimStart(w) == []
    decreases |w|
  {
    if w != [] {
      TrimAllSpace(w[1..]);
    }
  }

  /** A trimmed string is a fixed point of `strip()`. */
  lemma TrimFixed(s: string)
    requires IsTrimmed(s)
    ensures Trim(s) == s
  {
    TrimStartFixed(s);
    TrimEndFixed(s);
  }

  /** `sub in s`: `sub` occurs in `s` at some offset (the empty string occurs everywhere). */
  predicate Contains(s: string, sub: string)
    decreases |s|
  {
    |sub| <= |s| && (s[..|sub|] == sub || Contains(s[1..], sub))
  }

  /** `Contains` agrees with the definition by offsets. */
  lemma {:induction false} ContainsAt(s: string, sub: string, k: nat)
    requires k + |sub| <= |s| && s[k..k + |sub|] == sub
    ensures Contains(s, sub)
    decreases k
  {
    if k > 0 {
      assert s[1..][k - 1..k - 1 + |sub|] == s[k..k + |sub|];
      ContainsAt(s[1..], sub, k - 1);
    }
  }

  /** Whatever surrounds it, a string contains each of its middle parts. */
  lemma ContainsMiddle(a: string, b: string, c: string)
    ensures Contains(a + b + c, b)
  {
    var s := a + b + c;
    assert s[|a|..|a| + |b|] == b;
    ContainsAt(s, b, |a|);
  }

  lemma ContainsLeft(a: string, b: string)
    ensures Contains(a + b, a)
  {
    assert (a + b)[0..|a|] == a;
    ContainsAt(a + b, a, 0);
  }

  lemma ContainsRight(a: string, b: string)
    ensures Contains(a + b, b)
  {
    assert (a + b)[|a|..|a| + |b|] == b;
    ContainsAt(a + b, b, |a|);
  }

  /** The offset at which a contained string occurs. */
  lemma {:induction false} ContainsOffset(s: string, sub: string) returns (k: nat)
    requires Contains(s, sub)
    ensures k + |sub| <= |s| && s[k..k + |sub|] == sub
    decreases |s|
  {
    if s[..|sub|] == sub {
      k := 0;
    } else {
      var k' := ContainsOffset(s[1..], sub);
      assert s[1..][k'..k' + |sub|] == s[k' + 1..k' + 1 + |sub|];
      k := k' + 1;
    }
  }

  /** Containment is transitive. */
  lemma ContainsTransitive(s: string, m: string, sub: string)
    requires Contains(s, m) && Contains(m, sub)
    ensures Contains(s, sub)
  {
    var i := ContainsOffset(s, m);
    var j := ContainsOffset(m, sub);
    forall t | 0 <= t < |sub|
      ensures s[i + j..i + j + |sub|][t] == sub[t]
    {
      assert m[j + t] == s[i..i + |m|][j + t] == s[i + j + t];
      assert sub[t] == m[j..j + |sub|][t] == m[j + t];
    }
    ContainsAt(s, sub, i + j);
  }

  /** Lower-casing works character by character, so it distributes over concatenation. */
  lemma LowerConcat(a: string, b: string)
    ensures Lower(a + b) == Lower(a) + Lower(b)
  {
  }

  predicate StartsWith(s: string, prefix: string) {
    |prefix| <= |s| && s[..|prefix|] == prefix
  }

  predicate EndsWith(s: string, suffix: string) {
    |suffix| <= |s| && s[|s| - |suffix|..] == suffix
  }

  lemma StartsWithTransitive(s: string, m: string, prefix: string)
    requires StartsWith(s, m) && StartsWith(m, prefix)
    ensures StartsWith(s, prefix)
  {
    assert s[..|prefix|] == s[..|m|][..|prefix|];
  }

  lemma EndsWithTransitive(s: string, m: string, suffix: string)
    requires EndsWith(s, m) && EndsWith(m, suffix)
    ensures EndsWith(s, suffix)
  {
    assert s[|s| - |suffix|..] == s[|s| - |m|..][|m| - |suffix|..];
  }

  const JsonFence: string := "```json"
  const Fence: string := "```"

  /**
   * The clean-up applied to every oracle response before `json.loads`:
   * strip, drop a leading "```json", drop a trailing "```", strip again.
   */
  function StripFence(raw: string): (r: string)
    ensures IsTrimmed(r)
  {
    var c := Trim(raw);
    var c1 := if StartsWith(c, JsonFence) then c[|JsonFence|..] else c;
    var c2 := if EndsWith(c1, Fence) then c1[..|c1| - |Fence|] else c1;
    Trim(c2)
  }

  lemma FenceParts(payload: string)
    ensures StartsWith(JsonFence + payload + Fence, JsonFence)
    ensures (JsonFence + payload + Fence)[|JsonFence|..] == payload + Fence
    ensures EndsWith(payload + Fence, Fence)
    ensures (payload + Fence)[..|payload|] == payload
  {
    var s := JsonFence + payload + Fence;
    assert s[..|JsonFence|] == JsonFence;
    assert (payload + Fence)[|payload|..] == Fence;
  }

  lemma FencedIsTrimmed(payload: string)
    ensures IsTrimmed(JsonFence + payload + Fence)
  {
    var s := JsonFence + payload + Fence;
    assert s[0] == '`' && s[|s| - 1] == '`';
  }

  /** A payload wrapped in a json fence, with any padding around the fence, comes back stripped. */
  lemma StripFenceUnwraps(w1: string, payload: string, w2: string)
    requires AllSpace(w1) && AllSpace(w2)
    ensures StripFence(w1 + JsonFence + payload + Fence + w2) == Trim(payload)
  {
    var fenced := JsonFence + payload + Fence;
    assert w1 + JsonFence + payload + Fence + w2 == w1 + fenced + w2;
    FencedIsTrimmed(payload);
    TrimRemovesPadding(w1, fenced, w2);
    FenceParts(payload);
  }

  /** An unfenced response is only stripped. */
  lemma StripFenceUnfenced(raw: string)
    requires !StartsWith(Trim(raw), JsonFence) && !EndsWith(Trim(raw), Fence)
    ensures StripFence(raw) == Trim(raw)
  {
    TrimFixed(Trim(raw));
  }

  /** A fence without the `json` tag is not removed at the front: only its closing half goes. */
  lemma StripFenceKeepsBareFence(payload: string)
    requires IsTrimmed(payload) && payload != [] && payload[0] != 'j' && !EndsWith(payload, Fence)
    ensures StripFence(Fence + payload + Fence) == Fence + payload
  {
    var s := Fence + payload + Fence;
    var c := Fence + payload;
    assert IsTrimmed(s) by {
      assert s[0] == '`' && s[|s| - 1] == '`';
    }
    assert !StartsWith(s, JsonFence) by {
      assert s[3] == payload[0];
      assert JsonFence[3] == 'j';
    }
    assert EndsWith(s, Fence) && s[..|s| - |Fence|] == c;
    assert IsTrimmed(c) by {
      assert c[0] == '`' && c[|c| - 1] == payload[|payload| - 1];
    }
    TrimFixed(s);
    TrimFixed(c);
  }

  /** The number of words `str.split()` returns: maximal runs of non-separators. */
  function WordCount(s: string): (n: nat)
    ensures n <= |s|
  {
    if s == [] then 0
    else if !IsSpace(s[0]) && (|s| == 1 || IsSpace(s[1])) then 1 + WordCount(s[1..])
    else WordCount(s[1..])
  }

  /** A string with no separator is one word, or none when empty. */
  lemma {:induction false} WordCountNoSpace(s: string)
    requires forall i | 0 <= i < |s| :: !IsSpace(s[i])
    ensures WordCount(s) == if s == [] then 0 else 1
  {
    if |s| > 1 {
      WordCountNoSpace(s[1..]);
    }
  }

  /** A separator splits the count: the words on either side of it add up. */
  lemma {:induction false} WordCountSplit(a: string, c: char, b: string)
    requires IsSpace(c)
    ensures WordCount(a + [c] + b) == WordCount(a) + WordCount(b)
  {
    if a == [] {
      assert a + [c] + b == [c] + b;
      assert ([c] + b)[1..] == b;
    } else {
      var s := a + [c] + b;
      assert s[0] == a[0];
      assert s[1..] == a[1..] + [c] + b;
      assert s[1] == if |a| == 1 then c else a[1];
      WordCountSplit(a[1..], c, b);
    }
  }

  /** The decimal digit for `d`. */
  function DigitChar(d: nat): char
    requires d < 10
  {
    ('0' as int + d) as char
  }

  /** `str(n)` for a natural number. */
  function NatToString(n: nat): (r: string)
    ensures |r| > 0
    decreases n
  {
    if n < 10 then [DigitChar(n)] else NatToString(n / 10) + [DigitChar(n % 10)]
  }

  /** The rendering consists of decimal digits only. */
  lemma {:induction false} NatToStringDigits(n: nat)
    ensures forall i | 0 <= i < |NatToString(n)| :: '0' <= NatToString(n)[i] <= '9'
    decreases n
  {
    if n >= 10 {
      NatToStringDigits(n / 10);
    }
  }

  /** Decimal rendering determines the number. */
  lemma {:induction false} NatToStringInjective(m: nat, n: nat)
    requires NatToString(m) == NatToString(n)
    ensures m == n
    decreases m
  {
    var a, b := NatToString(m), NatToString(n);
    if m < 10 && n < 10 {
      assert a[0] == b[0];
    } else if m >= 10 && n >= 10 {
      assert a[..|a| - 1] == NatToString(m / 10);
      assert b[..|b| - 1] == NatToString(n / 10);
      NatToStringInjective(m / 10, n / 10);
      assert a[|a| - 1] == b[|b| - 1];
    }
  }

  /** The integer nearest to `y`, a tie going to the even neighbour, as Python's formatting rounds. */
  function RoundHalfEven(y: real): (n: nat)
    requires y >= 0.0
    ensures n as real - 0.5 <= y <= n as real + 0.5
    ensures y == n as real - 0.5 || y == n as real + 0.5 ==> n % 2 == 0
  {
    var f := y.Floor;
    var frac := y - f as real;
    if frac > 0.5 then f + 1
    else if frac < 0.5 then f
    else if f % 2 == 0 then f
    else f + 1
  }

  /** `f"{x:.2f}"`: sign, integer part, a point and two decimals of the magnitude rounded to cents. */
  function Fixed2(x: real): (r: string)
    ensures |r| >= 4 && r[|r| - 3] == '.'
    ensures '0' <= r[|r| - 2] <= '9' && '0' <= r[|r| - 1] <= '9'
    ensures x < 0.0 <==> r[0] == '-'
  {
    var c := RoundHalfEven((if x < 0.0 then -x else x) * 100.0);
    NatToStringDigits(c / 100);
    (if x < 0.0 then "-" else "") + NatToString(c / 100) + "." + [DigitChar(c / 10 % 10), DigitChar(c % 10)]
  }

  /** A tie rounds to the even cent: 0.125 formats as "0.12" and 0.135 as "0.14". */
  lemma Fixed2TiesToEven()
    ensures Fixed2(0.125) == "0.12" && Fixed2(0.135) == "0.14"
  {
    assert RoundHalfEven(12.5) == 12 by { assert (12.5).Floor == 12; }
    assert RoundHalfEven(13.5) == 14 by { assert (13.5).Floor == 13; }
  }
}
