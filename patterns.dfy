/** Hand-coded scanners for the two regular expressions of tools.py and for Python's
    `re.findall` and `re.search` over them.

    Money:   `\$[\d,]+\.?\d*\s*(?:million|billion|M|B|K)?`, matched with `re.IGNORECASE`.
    Percent: `[\d]+\.?\d*\s*%`.

    Every quantifier in both patterns is greedy and everything after `[\d,]+` in the money
    pattern is optional, so the first path a backtracking matcher tries is the one that
    succeeds: take each run as far as it goes, try the units in their listed order and with
    case ignored, otherwise take none. In the percentage pattern the `%` is required; no
    shorter run can put a `%` where a digit, `.` or white-space character stands, so the
    greedy path fails exactly when no match starts there. */
module Patterns {
  import opened Strings
  import opened Options

  datatype Pattern = Money | Percent

  /** The end of the run of digits (and, when `commas`, also `,`) that starts at `i`. */
  function DigitRun(s: string, i: nat, commas: bool): (j: nat)
    requires i <= |s|
    ensures i <= j <= |s|
    ensures forall k :: i <= k < j ==> IsDigit(s[k]) || (commas && s[k] == ',')
    ensures j < |s| ==> !(IsDigit(s[j]) || (commas && s[j] == ','))
    decreases |s| - i
  {
    if i < |s| && (IsDigit(s[i]) || (commas && s[i] == ',')) then DigitRun(s, i + 1, commas) else i
  }

  /** The end of the run of white space (`\s`) that starts at `i`. */
  function SpaceRun(s: string, i: nat): (j: nat)
    requires i <= |s|
    ensures i <= j <= |s|
    ensures forall k :: i <= k < j ==> IsSpace(s[k])
    ensures j < |s| ==> !IsSpace(s[j])
    decreases |s| - i
  {
    if i < |s| && IsSpace(s[i]) then SpaceRun(s, i + 1) else i
  }

  /** `word` (in lower case) stands at position `i` of `s`, case ignored. */
  predicate WordAt(s: string, i: nat, word: string)
    requires i <= |s|
  {
    |word| <= |s| - i && Lower(s[i..i + |word|]) == word
  }

  /** How much of `(?:million|billion|M|B|K)?` matches at `i`, alternatives tried in order. */
  function UnitLength(s: string, i: nat): (n: nat)
    requires i <= |s|
    ensures i + n <= |s|
    ensures n == 7 || n == 1 || n == 0
  {
    if WordAt(s, i, "million") || WordAt(s, i, "billion") then 7
    else if i < |s| && (LowerChar(s[i]) == 'm' || LowerChar(s[i]) == 'b' || LowerChar(s[i]) == 'k') then 1
    else 0
  }

  /** The end of the match of `p` that starts at `i`, if one does. */
  function MatchAt(p: Pattern, s: string, i: nat): (r: Option<nat>)
    requires i <= |s|
    ensures r.Some? ==> i + 2 <= r.value <= |s|
    ensures r.Some? && p.Money? ==> s[i] == '$' && (IsDigit(s[i + 1]) || s[i + 1] == ',')
    ensures r.Some? && p.Percent? ==> IsDigit(s[i]) && s[r.value - 1] == '%'
  {
    match p
    case Money =>
      if i < |s| && s[i] == '$' then
        var j1 := DigitRun(s, i + 1, true);
        if j1 == i + 1 then None
        else
          var j2 := if j1 < |s| && s[j1] == '.' then j1 + 1 else j1;
          var j3 := DigitRun(s, j2, false);
          var j4 := SpaceRun(s, j3);
          Some(j4 + UnitLength(s, j4))
      else None
    case Percent =>
      if i < |s| && IsDigit(s[i]) then
        var j1 := DigitRun(s, i, false);
        var j2 := if j1 < |s| && s[j1] == '.' then j1 + 1 else j1;
        var j3 := DigitRun(s, j2, false);
        var j4 := SpaceRun(s, j3);
        if j4 < |s| && s[j4] == '%' then Some(j4 + 1) else None
      else None
  }

  /** `re.findall(p, s[i:])`, scanning from `i`: after a match the scan resumes where it
      ended, otherwise one character later. */
  function FindFrom(p: Pattern, s: string, i: nat): seq<string>
    requires i <= |s|
    decreases |s| - i
  {
    if i == |s| then []
    else match MatchAt(p, s, i)
      case Some(j) => [s[i..j]] + FindFrom(p, s, j)
      case None => FindFrom(p, s, i + 1)
  }

  /** `re.findall(p, s)` */
  function FindAll(p: Pattern, s: string): seq<string> {
    FindFrom(p, s, 0)
  }

  /** `re.search(p, s) is not None` */
  predicate Search(p: Pattern, s: string) {
    exists i | 0 <= i <= |s| :: MatchAt(p, s, i).Some?
  }

  lemma {:induction false} FindFromEmptyIff(p: Pattern, s: string, i: nat)
    requires i <= |s|
    ensures FindFrom(p, s, i) != [] <==> exists k | i <= k <= |s| :: MatchAt(p, s, k).Some?
    decreases |s| - i
  {
    if i == |s| {
      assert MatchAt(p, s, i).None?;
    } else {
      var m := MatchAt(p, s, i);
      if m.Some? {
        assert FindFrom(p, s, i) == [s[i..m.value]] + FindFrom(p, s, m.value);
      } else {
        assert FindFrom(p, s, i) == FindFrom(p, s, i + 1);
        FindFromEmptyIff(p, s, i + 1);
        if exists k | i <= k <= |s| :: MatchAt(p, s, k).Some? {
          var k :| i <= k <= |s| && MatchAt(p, s, k).Some?;
          assert k != i;
          assert i + 1 <= k;
        }
      }
    }
  }

  /** `re.search` finds something exactly when `re.findall` returns a non-empty list. */
  lemma SearchIffFindAll(p: Pattern, s: string)
    ensures Search(p, s) <==> FindAll(p, s) != []
  {
    FindFromEmptyIff(p, s, 0);
  }

  lemma {:induction false} FindFromShape(p: Pattern, s: string, i: nat)
    requires i <= |s|
    ensures forall m <- FindFrom(p, s, i) :: MatchShape(p, m)
    decreases |s| - i
  {
    if i < |s| {
      match MatchAt(p, s, i)
      case Some(j) =>
        MatchAtShape(p, s, i);
        FindFromShape(p, s, j);
        assert FindFrom(p, s, i) == [s[i..j]] + FindFrom(p, s, j);
      case None =>
        FindFromShape(p, s, i + 1);
        assert FindFrom(p, s, i) == FindFrom(p, s, i + 1);
    }
  }

  /** The text of one match has the shape of its pattern. */
  lemma MatchAtShape(p: Pattern, s: string, i: nat)
    requires i <= |s| && MatchAt(p, s, i).Some?
    ensures MatchShape(p, s[i..MatchAt(p, s, i).value])
  {
  }

  /** What every match of `p` looks like: a money match is `$` followed by a digit or a
      comma, a percentage match starts with a digit and ends with `%`. */
  predicate MatchShape(p: Pattern, m: string) {
    |m| >= 2
    && (p.Money? ==> m[0] == '$' && (IsDigit(m[1]) || m[1] == ','))
    && (p.Percent? ==> IsDigit(m[0]) && m[|m| - 1] == '%')
  }

  /** Every string `re.findall` returns has the shape of its pattern. */
  lemma FindAllShape(p: Pattern, s: string)
    ensures forall m <- FindAll(p, s) :: MatchShape(p, m)
  {
    FindFromShape(p, s, 0);
  }
}
