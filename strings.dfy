/** The few Python `str` operations the analyser relies on, written out over `seq<char>`:
    `isspace`, `strip`, `lower` (ASCII letters), `in`, `startswith`, `replace`, `split`, `join`,
    slicing with `[:n]` and `str(int)`. */
module Strings {

  /** Python's `str.isspace()` for one character; `\s` in a `str` regular expression matches
      the same characters. */
  predicate IsSpace(c: char) {
    var n := c as int;
    (9 <= n <= 13) || (28 <= n <= 32) || n == 0x85 || n == 0xA0 || n == 0x1680
    || (0x2000 <= n <= 0x200A) || n == 0x2028 || n == 0x2029 || n == 0x202F
    || n == 0x205F || n == 0x3000
  }

  predicate IsDigit(c: char) { '0' <= c <= '9' }

  predicate AllSpace(s: string) { forall k :: 0 <= k < |s| ==> IsSpace(s[k]) }

  /** `s` has no leading and no trailing white space. */
  predicate IsStripped(s: string) { s == [] || (!IsSpace(s[0]) && !IsSpace(s[|s| - 1])) }

  /** `s.strip()`: white space removed at both ends, one character at a time. */
  function Strip(s: string): (r: string)
    ensures IsStripped(r)
    ensures |r| <= |s|
    ensures r == [] <==> AllSpace(s)
    decreases |s|
  {
    if s != [] && IsSpace(s[0]) then
      assert forall k :: 0 < k < |s| ==> s[1..][k - 1] == s[k];
      Strip(s[1..])
    else if s != [] && IsSpace(s[|s| - 1]) then
      assert forall k :: 0 <= k < |s| - 1 ==> s[..|s| - 1][k] == s[k];
      Strip(s[..|s| - 1])
    else s
  }

  /** The cut points of `s.strip()`: the result is `s[a..b]`, with white space only before
      `a` and after `b`. */
  lemma {:induction false} StripCuts(s: string) returns (a: nat, b: nat)
    ensures a <= b <= |s| && Strip(s) == s[a..b]
    ensures forall k :: 0 <= k < a ==> IsSpace(s[k])
    ensures forall k :: b <= k < |s| ==> IsSpace(s[k])
    decreases |s|
  {
    if s != [] && IsSpace(s[0]) {
      var a', b' := StripCuts(s[1..]);
      assert Strip(s) == Strip(s[1..]);
      a, b := a' + 1, b' + 1;
      CutsAfterLeadingSpace(s, a', b');
    } else if s != [] && IsSpace(s[|s| - 1]) {
      var t := s[..|s| - 1];
      assert Strip(s) == Strip(t);
      a, b := StripCuts(t);
      CutsBeforeTrailingSpace(s, t, a, b);
    } else {
      a, b := 0, |s|;
    }
  }

  /** Cuts of `s[1..]` that leave white space outside, moved one place on for `s`. */
  lemma CutsAfterLeadingSpace(s: string, a: nat, b: nat)
    requires s != [] && IsSpace(s[0]) && a <= b <= |s| - 1
    requires forall k :: 0 <= k < a ==> IsSpace(s[1..][k])
    requires forall k :: b <= k < |s| - 1 ==> IsSpace(s[1..][k])
    ensures s[1..][a..b] == s[a + 1..b + 1]
    ensures forall k :: 0 <= k < a + 1 ==> IsSpace(s[k])
    ensures forall k :: b + 1 <= k < |s| ==> IsSpace(s[k])
  {
    forall k | 0 < k < a + 1 ensures IsSpace(s[k]) { assert s[k] == s[1..][k - 1]; }
    forall k | b + 1 <= k < |s| ensures IsSpace(s[k]) { assert s[k] == s[1..][k - 1]; }
  }

  /** Cuts of `t == s[..|s| - 1]` that leave white space outside are cuts of `s` as well. */
  lemma CutsBeforeTrailingSpace(s: string, t: string, a: nat, b: nat)
    requires s != [] && IsSpace(s[|s| - 1]) && t == s[..|s| - 1] && a <= b <= |t|
    requires forall k :: 0 <= k < a ==> IsSpace(t[k])
    requires forall k :: b <= k < |t| ==> IsSpace(t[k])
    ensures t[a..b] == s[a..b]
    ensures forall k :: 0 <= k < a ==> IsSpace(s[k])
    ensures forall k :: b <= k < |s| ==> IsSpace(s[k])
  {
    forall k | 0 <= k < a ensures IsSpace(s[k]) { assert s[k] == t[k]; }
    forall k | b <= k < |t| ensures IsSpace(s[k]) { assert s[k] == t[k]; }
  }

  /** `s.strip()` is the input itself with a white-space prefix and a white-space suffix cut
      off; with IsStripped this fixes the result, since no more white space is left to cut. */
  lemma StripCutsSpace(s: string)
    ensures exists a, b :: 0 <= a <= b <= |s| && Strip(s) == s[a..b] && AllSpace(s[..a]) && AllSpace(s[b..])
  {
    var a, b := StripCuts(s);
    assert AllSpace(s[..a]) && AllSpace(s[b..]);
  }

  function LowerChar(c: char): char {
    if 'A' <= c <= 'Z' then (c as int + 32) as char else c
  }

  /** `s.lower()`, restricted to the ASCII letters. */
  function Lower(s: string): string {
    seq(|s|, k requires 0 <= k < |s| => LowerChar(s[k]))
  }

  predicate StartsWith(s: string, p: string) { |p| <= |s| && s[..|p|] == p }

  /** Python's `sub in s`. */
  predicate Contains(s: string, sub: string)
    decreases |s|
  {
    if StartsWith(s, sub) then true
    else if s == [] then false
    else Contains(s[1..], sub)
  }

  lemma {:induction false} ContainsNeedsRoom(s: string, sub: string)
    ensures Contains(s, sub) ==> |sub| <= |s|
    decreases |s|
  {
    if !StartsWith(s, sub) && s != [] { ContainsNeedsRoom(s[1..], sub); }
  }

  /** `s.replace(pat, rep)`: replaces every non-overlapping occurrence, scanning left to right.
      Replacing by something no longer never lengthens the text, and replacing by something
      strictly shorter shortens any text that contains the pattern. */
  function ReplaceAll(s: string, pat: string, rep: string): (r: string)
    requires pat != []
    ensures |rep| <= |pat| ==> |r| <= |s|
    ensures |rep| < |pat| && Contains(s, pat) ==> |r| < |s|
    decreases |s|
  {
    if |s| < |pat| then ContainsNeedsRoom(s, pat); s
    else if s[..|pat|] == pat then rep + ReplaceAll(s[|pat|..], pat, rep)
    else [s[0]] + ReplaceAll(s[1..], pat, rep)
  }

  /** Stated once so that proofs about output built piece by piece need not re-derive it
      element by element. */
  lemma AppendAssoc<T>(a: seq<T>, b: seq<T>, c: seq<T>)
    ensures (a + b) + c == a + (b + c)
  {
  }

  /** Python's `s[:n]` for a non-negative `n`. */
  function Take<T>(s: seq<T>, n: nat): (r: seq<T>)
    ensures |r| == if |s| <= n then |s| else n
    ensures r == s[..|r|]
  {
    if |s| <= n then s else s[..n]
  }

  /** The pieces of `s.split(sep)`, with `cur` the part of the current piece read so far. */
  function SplitFrom(s: string, sep: string, cur: string): (r: seq<string>)
    requires sep != []
    ensures r != []
    decreases |s|
  {
    if |s| < |sep| then [cur + s]
    else if s[..|sep|] == sep then [cur] + SplitFrom(s[|sep|..], sep, [])
    else SplitFrom(s[1..], sep, cur + [s[0]])
  }

  /** `s.split(sep)` for a non-empty separator. */
  function Split(s: string, sep: string): seq<string>
    requires sep != []
  {
    SplitFrom(s, sep, [])
  }

  /** No piece of `s.split("\n")` holds a newline, so the pieces are exactly the lines. */
  lemma {:induction false} SplitLinesFrom(s: string, cur: string)
    requires '\n' !in cur
    ensures forall p <- SplitFrom(s, "\n", cur) :: '\n' !in p
    decreases |s|
  {
    if |s| >= 1 {
      if s[..1] == "\n" {
        SplitLinesFrom(s[1..], []);
      } else {
        assert s[..1] == [s[0]];
        SplitLinesFrom(s[1..], cur + [s[0]]);
      }
    }
  }

  lemma SplitLinesHaveNoNewline(s: string)
    ensures forall p <- Split(s, "\n") :: '\n' !in p
  {
    SplitLinesFrom(s, []);
  }

  /** `s` holds no blank-line separator `"\n\n"`. */
  predicate NoBlankLine(s: string) {
    forall k :: 0 <= k < |s| - 1 ==> !(s[k] == '\n' && s[k + 1] == '\n')
  }

  predicate EndsInNewline(s: string) { s != [] && s[|s| - 1] == '\n' }

  /** Splitting at `"\n\n"` cuts at the leftmost occurrence: no piece holds the separator, and
      no piece but the last ends in a newline, which would have begun an earlier separator.
      `cur` never ends in a newline that the rest of the text continues with another. */
  lemma {:induction false} SplitBlocksFrom(s: string, cur: string)
    requires NoBlankLine(cur)
    requires EndsInNewline(cur) && s != [] ==> s[0] != '\n'
    ensures forall p <- SplitFrom(s, "\n\n", cur) :: NoBlankLine(p)
    ensures forall k :: 0 <= k < |SplitFrom(s, "\n\n", cur)| - 1 ==> !EndsInNewline(SplitFrom(s, "\n\n", cur)[k])
    decreases |s|
  {
    if |s| < 2 {
      assert SplitFrom(s, "\n\n", cur) == [cur + s];
      if s != [] {
        forall k | 0 <= k < |cur + s| - 1 ensures !((cur + s)[k] == '\n' && (cur + s)[k + 1] == '\n') {
          if k < |cur| - 1 { assert (cur + s)[k] == cur[k] && (cur + s)[k + 1] == cur[k + 1]; }
        }
      }
    } else if s[..2] == "\n\n" {
      var rest := SplitFrom(s[2..], "\n\n", []);
      SplitBlocksFrom(s[2..], []);
      assert SplitFrom(s, "\n\n", cur) == [cur] + rest;
      assert forall k :: 0 < k < |rest| + 1 ==> ([cur] + rest)[k] == rest[k - 1];
    } else {
      var next := cur + [s[0]];
      assert s[..2] == [s[0], s[1]];
      forall k | 0 <= k < |next| - 1 ensures !(next[k] == '\n' && next[k + 1] == '\n') {
        if k < |cur| - 1 { assert next[k] == cur[k] && next[k + 1] == cur[k + 1]; }
      }
      assert SplitFrom(s, "\n\n", cur) == SplitFrom(s[1..], "\n\n", next);
      SplitBlocksFrom(s[1..], next);
    }
  }

  lemma SplitBlocksShape(s: string)
    ensures var r := Split(s, "\n\n");
            && (forall p <- r :: NoBlankLine(p))
            && (forall k :: 0 <= k < |r| - 1 ==> !EndsInNewline(r[k]))
  {
    assert Split(s, "\n\n") == SplitFrom(s, "\n\n", []);
    SplitBlocksFrom(s, []);
  }

  /** `sep.join(xs)` */
  function Join(xs: seq<string>, sep: string): string
    decreases |xs|
  {
    if xs == [] then []
    else if |xs| == 1 then xs[0]
    else xs[0] + sep + Join(xs[1..], sep)
  }

  lemma {:induction false} SplitFromJoin(s: string, sep: string, cur: string)
    requires sep != []
    ensures Join(SplitFrom(s, sep, cur), sep) == cur + s
    decreases |s|
  {
    if |s| < |sep| {
    } else if s[..|sep|] == sep {
      SplitFromJoin(s[|sep|..], sep, []);
      assert s == sep + s[|sep|..];
    } else {
      SplitFromJoin(s[1..], sep, cur + [s[0]]);
      assert s == [s[0]] + s[1..];
    }
  }

  /** Joining the pieces of a split with the same separator gives back the text. */
  lemma SplitJoin(s: string, sep: string)
    requires sep != []
    ensures Join(Split(s, sep), sep) == s
  {
    SplitFromJoin(s, sep, []);
  }

  function DigitChar(d: nat): char
    requires d < 10
  {
    ('0' as int + d) as char
  }

  function DigitValue(c: char): nat
    requires IsDigit(c)
  {
    c as int - '0' as int
  }

  /** `str(n)` for a non-negative integer: its decimal digits, without leading zeros. */
  function NatToString(n: nat): (r: string)
    ensures r != [] && forall k :: 0 <= k < |r| ==> IsDigit(r[k])
    decreases n
  {
    if n < 10 then [DigitChar(n)] else NatToString(n / 10) + [DigitChar(n % 10)]
  }

  /** `int(s)` for a string of decimal digits. */
  function ParseNat(s: string): nat
    requires forall k :: 0 <= k < |s| ==> IsDigit(s[k])
    decreases |s|
  {
    if s == [] then 0 else ParseNat(s[..|s| - 1]) * 10 + DigitValue(s[|s| - 1])
  }

  /** `str` and `int` are inverse on the non-negative integers. */
  lemma {:induction false} NatToStringRoundTrip(n: nat)
    ensures ParseNat(NatToString(n)) == n
    decreases n
  {
    if n >= 10 {
      var s := NatToString(n);
      NatToStringRoundTrip(n / 10);
      assert s[..|s| - 1] == NatToString(n / 10);
    }
  }

  /** Different counts give different strings. */
  lemma NatToStringInjective(m: nat, n: nat)
    requires NatToString(m) == NatToString(n)
    ensures m == n
  {
    NatToStringRoundTrip(m);
    NatToStringRoundTrip(n);
  }
}
