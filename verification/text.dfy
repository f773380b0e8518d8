/**
 * The string operations the handlers use: `startsWith`, `includes`,
 * `toLowerCase`, `split(',')[1]`, and the decimal rendering of a status code.
 */
module Text {
  import opened JsValue

  /** `s.startsWith(prefix)` */
  predicate StartsWith(s: string, prefix: string) {
    prefix <= s
  }

  /** `s.includes(sub)`, searching from the left. */
  predicate Includes(s: string, sub: string)
    decreases |s|
  {
    sub <= s || (s != [] && Includes(s[1..], sub))
  }

  /** `sub` occurs in `s` at position `i`. */
  predicate OccursAt(s: string, sub: string, i: int) {
    0 <= i && i + |sub| <= |s| && s[i..i + |sub|] == sub
  }

  /** `includes` holds exactly when the substring occurs at some position. */
  lemma {:induction false} IncludesIffOccurs(s: string, sub: string)
    ensures Includes(s, sub) <==> exists i :: OccursAt(s, sub, i)
    decreases |s|
  {
    if Includes(s, sub) {
      if sub <= s {
        assert OccursAt(s, sub, 0);
      } else {
        IncludesIffOccurs(s[1..], sub);
        var j :| OccursAt(s[1..], sub, j);
        assert s[j + 1..j + 1 + |sub|] == s[1..][j..j + |sub|];
        assert OccursAt(s, sub, j + 1);
      }
    }
    if exists i :: OccursAt(s, sub, i) {
      var i :| OccursAt(s, sub, i);
      if i == 0 {
        assert s[..|sub|] == sub;
      } else {
        assert s[1..][i - 1..i - 1 + |sub|] == s[i..i + |sub|];
        assert OccursAt(s[1..], sub, i - 1);
        IncludesIffOccurs(s[1..], sub);
      }
    }
  }

  /** `toLowerCase` on one character; only the ASCII letters are mapped. */
  function LowerChar(c: char): char {
    if 'A' <= c <= 'Z' then (c as int - 'A' as int + 'a' as int) as char else c
  }

  /** `s.toLowerCase()`: every character is lower-cased in place. */
  function ToLower(s: string): (r: string)
    ensures |r| == |s|
    ensures forall i :: 0 <= i < |s| ==> r[i] == LowerChar(s[i])
  {
    if s == [] then [] else [LowerChar(s[0])] + ToLower(s[1..])
  }

  /** The index of the first `c` in `s`, if any. */
  function IndexOf(s: string, c: char): (r: Option<nat>)
    ensures r.None? <==> c !in s
    ensures r.Some? ==> r.value < |s| && s[r.value] == c && c !in s[..r.value]
  {
    if s == [] then None
    else if s[0] == c then Some(0)
    else
      match IndexOf(s[1..], c)
      case None => None
      case Some(j) => assert s[1..][..j] == s[1..j + 1]; Some(j + 1)
  }

  /** Searching past a stretch without `c` shifts the found index by its length. */
  lemma {:induction false} IndexOfAfter(a: string, b: string, c: char)
    requires c !in a
    ensures IndexOf(a + b, c) == if c in b then Some(|a| + IndexOf(b, c).value) else None
  {
    if a == [] {
      assert a + b == b;
    } else {
      assert (a + b)[1..] == a[1..] + b;
      IndexOfAfter(a[1..], b, c);
    }
  }

  /**
   * `s.split(sep)[1]`: the text between the first and the second `sep`, or
   * after the first `sep` when there is only one; `undefined` without a `sep`.
   */
  function SplitSecond(s: string, sep: char): (r: Option<string>)
    ensures r.None? <==> sep !in s
    ensures r.Some? ==> sep !in r.value
    ensures r.Some? ==> exists i :: 0 <= i < |s| && s[i] == sep && sep !in s[..i]
                                   && r.value <= s[i + 1..]
                                   && (i + 1 + |r.value| == |s| || s[i + 1 + |r.value|] == sep)
  {
    match IndexOf(s, sep)
    case None => None
    case Some(i) =>
      var rest := s[i + 1..];
      match IndexOf(rest, sep)
      case None => Some(rest)
      case Some(j) => Some(rest[..j])
  }

  /** The number a string of decimal digits denotes, most significant digit first. */
  function DigitsValue(s: string): int {
    if s == [] then 0 else DigitsValue(s[..|s| - 1]) * 10 + (s[|s| - 1] as int - '0' as int)
  }

  /** The number an optionally negative decimal string denotes. */
  function SignedValue(s: string): int {
    if s != [] && s[0] == '-' then -DigitsValue(s[1..]) else DigitsValue(s)
  }

  /** `String(n)` for a natural number: its digits, without leading zeros. */
  function Decimal(n: nat): (r: string)
    ensures |r| > 0
    ensures forall i :: 0 <= i < |r| ==> '0' <= r[i] <= '9'
    ensures DigitsValue(r) == n
    ensures n > 0 ==> r[0] != '0'
    ensures n == 0 ==> r == "0"
  {
    var digit := ('0' as int + n % 10) as char;
    if n < 10 then [digit]
    else
      var high := Decimal(n / 10);
      assert (high + [digit])[..|high|] == high;
      high + [digit]
  }

  /** `String(i)` for an integer: a minus sign before the digits of a negative one. */
  function IntDecimal(i: int): (r: string)
    ensures |r| > 0
    ensures SignedValue(r) == i
    ensures forall k :: 0 <= k < |r| ==> ('0' <= r[k] <= '9') || (k == 0 && r[k] == '-')
    ensures i >= 0 ==> r == Decimal(i)
    ensures i < 0 ==> r == "-" + Decimal(-i)
  {
    if i < 0 then
      var digits := Decimal(-i);
      assert ("-" + digits)[1..] == digits;
      "-" + digits
    else Decimal(i)
  }
}
