/**
 * The handful of JavaScript string built-ins the front end relies on:
 * `split` on one character, `join`, `indexOf`, `startsWith(p, k)`,
 * `substring`, and the decimal rendering of non-negative integers.
 */
module JsText {

  /** `s.startsWith(p, k)` for a position inside the string. */
  predicate StartsWithAt(s: string, k: nat, p: string) {
    k + |p| <= |s| && s[k..k + |p|] == p
  }

  /** Nothing starts where its first character is not. */
  lemma NotStartingAt(s: string, k: nat, p: string)
    requires k < |s| && |p| > 0 && s[k] != p[0]
    ensures !StartsWithAt(s, k, p)
  {
    if k + |p| <= |s| {
      assert s[k..k + |p|][0] == s[k];
    }
  }

  /**
   * Whether the character at `j` is escaped in a string whose contents start
   * at `start`: it follows a backslash that is not itself escaped.
   */
  predicate EscapedAt(s: string, start: nat, j: nat)
    requires start <= j <= |s|
    decreases j - start
  {
    j > start && s[j - 1] == '\\' && !EscapedAt(s, start, j - 1)
  }

  /** Number of occurrences of `c` in `s`. */
  function Count(s: string, c: char): nat {
    if s == [] then 0 else (if s[0] == c then 1 else 0) + Count(s[1..], c)
  }

  /** `s.split(sep)` for a one-character separator. */
  function Split(s: string, sep: char): (r: seq<string>)
    ensures |r| == Count(s, sep) + 1
    ensures forall i :: 0 <= i < |r| ==> sep !in r[i]
  {
    if s == [] then [""]
    else
      var rest := Split(s[1..], sep);
      if s[0] == sep then [""] + rest else [[s[0]] + rest[0]] + rest[1..]
  }

  /** String concatenation is associative; stated on plain strings so that callers can regroup cheaply. */
  lemma ConcatAssoc(a: string, b: string, c: string)
    ensures (a + b) + c == a + (b + c)
  {
  }

  /** `parts.join(sep)`. */
  function Join(parts: seq<string>, sep: string): string {
    if |parts| == 0 then ""
    else if |parts| == 1 then parts[0]
    else parts[0] + sep + Join(parts[1..], sep)
  }

  /** Splitting and joining again gives the original string back. */
  lemma {:induction false} JoinSplit(s: string, sep: char)
    ensures Join(Split(s, sep), [sep]) == s
  {
    if s != [] {
      var rest := Split(s[1..], sep);
      JoinSplit(s[1..], sep);
      if s[0] == sep {
        assert Split(s, sep) == [""] + rest;
        assert Join([""] + rest, [sep]) == [sep] + Join(rest, [sep]);
      } else {
        var parts := Split(s, sep);
        assert parts == [[s[0]] + rest[0]] + rest[1..];
        if |rest| == 1 {
          assert Join(parts, [sep]) == [s[0]] + rest[0];
        } else {
          assert Join(rest, [sep]) == rest[0] + [sep] + Join(rest[1..], [sep]);
          assert parts[1..] == rest[1..];
        }
      }
    }
  }

  /** Joining separator-free pieces and splitting again gives the pieces back. */
  lemma {:induction false} SplitJoin(parts: seq<string>, sep: char)
    requires |parts| >= 1
    requires forall i :: 0 <= i < |parts| ==> sep !in parts[i]
    ensures Split(Join(parts, [sep]), sep) == parts
  {
    if |parts| == 1 {
      SplitNoSeparator(parts[0], sep);
    } else {
      SplitJoin(parts[1..], sep);
      SplitPiece(parts[0], sep, Join(parts[1..], [sep]));
      assert Join(parts, [sep]) == parts[0] + ([sep] + Join(parts[1..], [sep]));
      assert [parts[0]] + parts[1..] == parts;
    }
  }

  lemma {:induction false} SplitNoSeparator(s: string, sep: char)
    requires sep !in s
    ensures Split(s, sep) == [s]
  {
    if s != [] {
      SplitNoSeparator(s[1..], sep);
      assert [s[0]] + s[1..] == s;
    }
  }

  /** Splitting `p + [sep] + t`, where `p` holds no separator, yields `p` and then the pieces of `t`. */
  lemma {:induction false} SplitPiece(p: string, sep: char, t: string)
    requires sep !in p
    ensures Split(p + ([sep] + t), sep) == [p] + Split(t, sep)
  {
    if p == [] {
      assert p + ([sep] + t) == [sep] + t;
      assert ([sep] + t)[1..] == t;
    } else {
      SplitPiece(p[1..], sep, t);
      var s := p + ([sep] + t);
      assert s[0] == p[0] && s[1..] == p[1..] + ([sep] + t);
      assert [p[0]] + p[1..] == p;
    }
  }

  /**
   * `s.indexOf(pat, from)` for a non-empty pattern: the first position at or
   * after `from` where `pat` occurs, or -1.
   */
  function IndexOf(s: string, pat: string, from: nat): (r: int)
    requires pat != []
    ensures r == -1 || (from <= r && StartsWithAt(s, r, pat))
    ensures r == -1 ==> forall i: nat :: from <= i ==> !StartsWithAt(s, i, pat)
    ensures r != -1 ==> forall i: nat :: from <= i < r ==> !StartsWithAt(s, i, pat)
    decreases |s| - from
  {
    if from + |pat| > |s| then -1
    else if s[from..from + |pat|] == pat then from
    else IndexOf(s, pat, from + 1)
  }

  function Clamp(k: nat, n: nat): nat {
    if k <= n then k else n
  }

  /** `s.substring(a, b)`: both ends clamped to the string, swapped when reversed. */
  function Substring(s: string, a: nat, b: nat): (r: string)
    ensures |r| <= |s|
  {
    var x, y := Clamp(a, |s|), Clamp(b, |s|);
    if x <= y then s[x..y] else s[y..x]
  }

  /** Inside the string and in order, `substring` is the slice. */
  lemma SubstringInside(s: string, a: nat, b: nat)
    requires a <= b <= |s|
    ensures Substring(s, a, b) == s[a..b]
  {
  }

  predicate IsDecimalDigit(c: char) {
    '0' <= c <= '9'
  }

  predicate AllDigits(s: string) {
    forall i :: 0 <= i < |s| ==> IsDecimalDigit(s[i])
  }

  /** The value of a string of decimal digits, most significant first (`parseInt`). */
  function DigitsValue(s: string): nat
    requires AllDigits(s)
  {
    if s == [] then 0
    else DigitsValue(s[..|s| - 1]) * 10 + (s[|s| - 1] - '0') as nat
  }

  /** `String(n)` for a non-negative integer. */
  function NatToDecimal(n: nat): (r: string)
    ensures r != [] && AllDigits(r)
  {
    if n < 10 then [('0' as int + n) as char]
    else NatToDecimal(n / 10) + [('0' as int + n % 10) as char]
  }

  /** Reading back the decimal rendering of `n` gives `n`. */
  lemma {:induction false} DecimalRoundTrip(n: nat)
    ensures DigitsValue(NatToDecimal(n)) == n
  {
    var r := NatToDecimal(n);
    if n >= 10 {
      DecimalRoundTrip(n / 10);
      assert r[..|r| - 1] == NatToDecimal(n / 10);
    }
  }
}
