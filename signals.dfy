/** The list comprehensions both signal extractors of tools.py share: cutting the text into
    paragraphs, keeping the keywords a paragraph mentions, and `list(dict.fromkeys(xs))`. */
module Signals {
  import opened Strings

  /** `[p.strip() for p in chunks if p.strip()]` */
  function StrippedNonEmpty(chunks: seq<string>): (r: seq<string>)
    ensures |r| <= |chunks|
    ensures forall k :: 0 <= k < |r| ==> r[k] != [] && IsStripped(r[k])
    decreases |chunks|
  {
    if chunks == [] then []
    else
      var p := Strip(chunks[0]);
      var rest := StrippedNonEmpty(chunks[1..]);
      if p != [] then [p] + rest else rest
  }

  /** `[p.strip() for p in chunks if len(p.strip()) > n]` */
  function StrippedLonger(chunks: seq<string>, n: nat): (r: seq<string>)
    ensures |r| <= |chunks|
    ensures forall k :: 0 <= k < |r| ==> |r[k]| > n && IsStripped(r[k])
    decreases |chunks|
  {
    if chunks == [] then []
    else
      var p := Strip(chunks[0]);
      var rest := StrippedLonger(chunks[1..], n);
      if |p| > n then
        assert IsStripped(p);
        assert forall k :: 0 < k < |rest| + 1 ==> ([p] + rest)[k] == rest[k - 1];
        [p] + rest
      else rest
  }

  /** A strip is kept exactly when it is not empty: the result holds the non-blank strips of
      the chunks and nothing else. */
  lemma {:induction false} StrippedNonEmptyExact(chunks: seq<string>)
    ensures forall p :: p in StrippedNonEmpty(chunks) <==>
              exists k :: 0 <= k < |chunks| && p == Strip(chunks[k]) && p != []
    decreases |chunks|
  {
    if chunks != [] {
      var tail := chunks[1..];
      StrippedNonEmptyExact(tail);
      forall p | p in StrippedNonEmpty(chunks)
        ensures exists k :: 0 <= k < |chunks| && p == Strip(chunks[k]) && p != []
      {
        if p == Strip(chunks[0]) && p != [] {
        } else {
          assert p in StrippedNonEmpty(tail);
          var k :| 0 <= k < |tail| && p == Strip(tail[k]) && p != [];
          assert tail[k] == chunks[k + 1];
        }
      }
      forall k | 0 <= k < |chunks| && Strip(chunks[k]) != []
        ensures Strip(chunks[k]) in StrippedNonEmpty(chunks)
      {
        if k > 0 { assert tail[k - 1] == chunks[k]; }
      }
    }
  }

  /** A strip is kept exactly when it is longer than `n`: the result holds those strips of
      the chunks and nothing else. */
  lemma StrippedLongerExact(chunks: seq<string>, n: nat)
    ensures forall p :: p in StrippedLonger(chunks, n) <==>
              exists k :: 0 <= k < |chunks| && p == Strip(chunks[k]) && |p| > n
  {
    StrippedLongerSound(chunks, n);
    StrippedLongerComplete(chunks, n);
  }

  /** Everything kept is the strip of some chunk, longer than `n`. */
  lemma {:induction false} StrippedLongerSound(chunks: seq<string>, n: nat)
    ensures forall p :: p in StrippedLonger(chunks, n) ==>
              exists k :: 0 <= k < |chunks| && p == Strip(chunks[k]) && |p| > n
    decreases |chunks|
  {
    if chunks != [] {
      var tail := chunks[1..];
      StrippedLongerSound(tail, n);
      var head := Strip(chunks[0]);
      assert StrippedLonger(chunks, n) == if |head| > n then [head] + StrippedLonger(tail, n) else StrippedLonger(tail, n);
      forall p | p in StrippedLonger(chunks, n)
        ensures exists k :: 0 <= k < |chunks| && p == Strip(chunks[k]) && |p| > n
      {
        if p == head && |p| > n {
          assert p == Strip(chunks[0]);
        } else {
          assert p in StrippedLonger(tail, n);
          var k :| 0 <= k < |tail| && p == Strip(tail[k]) && |p| > n;
          assert tail[k] == chunks[k + 1];
        }
      }
    }
  }

  /** Every strip longer than `n` is kept. */
  lemma {:induction false} StrippedLongerComplete(chunks: seq<string>, n: nat)
    ensures forall k :: 0 <= k < |chunks| && |Strip(chunks[k])| > n ==> Strip(chunks[k]) in StrippedLonger(chunks, n)
    decreases |chunks|
  {
    if chunks != [] {
      var tail := chunks[1..];
      StrippedLongerComplete(tail, n);
      forall k | 0 <= k < |chunks| && |Strip(chunks[k])| > n
        ensures Strip(chunks[k]) in StrippedLonger(chunks, n)
      {
        if k > 0 { assert tail[k - 1] == chunks[k]; }
      }
    }
  }

  /** The paragraphs of tools.py:112-114 (minimum line length 30) and 198-200 (50): the
      stripped non-empty blocks between blank lines, or, when there are fewer than five of
      those, the stripped lines longer than the minimum. */
  function Paragraphs(text: string, minLine: nat): seq<string> {
    var blocks := StrippedNonEmpty(Split(text, "\n\n"));
    if |blocks| < 5 then StrippedLonger(Split(text, "\n"), minLine) else blocks
  }

  /** Every paragraph is non-empty and stripped. With five or more non-blank blocks the
      paragraphs are exactly the non-blank strips of the blank-line blocks; otherwise they are
      exactly the strips of the lines that are longer than the minimum. */
  lemma ParagraphsShape(text: string, minLine: nat)
    ensures forall p <- Paragraphs(text, minLine) :: p != [] && IsStripped(p)
    ensures |StrippedNonEmpty(Split(text, "\n\n"))| >= 5 ==>
              Paragraphs(text, minLine) == StrippedNonEmpty(Split(text, "\n\n"))
    ensures |StrippedNonEmpty(Split(text, "\n\n"))| < 5 ==>
              forall p <- Paragraphs(text, minLine) :: |p| > minLine
    ensures var blocks := Split(text, "\n\n");
            |StrippedNonEmpty(blocks)| >= 5 ==>
              forall p :: p in Paragraphs(text, minLine) <==>
                exists k :: 0 <= k < |blocks| && p == Strip(blocks[k]) && p != []
    ensures var lines := Split(text, "\n");
            |StrippedNonEmpty(Split(text, "\n\n"))| < 5 ==>
              forall p :: p in Paragraphs(text, minLine) <==>
                exists k :: 0 <= k < |lines| && p == Strip(lines[k]) && |p| > minLine
  {
    StrippedNonEmptyExact(Split(text, "\n\n"));
    StrippedLongerExact(Split(text, "\n"), minLine);
  }

  /** `xs` can be obtained from `ys` by leaving elements out. */
  predicate IsSubsequence<T(==)>(xs: seq<T>, ys: seq<T>)
    decreases |ys|
  {
    xs == [] || (ys != [] && ((xs[0] == ys[0] && IsSubsequence(xs[1..], ys[1..])) || IsSubsequence(xs, ys[1..])))
  }

  /** `[kw for kw in keywords if kw in lowered]`: exactly the keywords the text contains, in
      the order of the keyword list. */
  function MatchedKeywords(keywords: seq<string>, lowered: string): (r: seq<string>)
    ensures forall kw :: kw in r <==> kw in keywords && Contains(lowered, kw)
    ensures IsSubsequence(r, keywords)
    decreases |keywords|
  {
    if keywords == [] then []
    else
      var rest := MatchedKeywords(keywords[1..], lowered);
      if Contains(lowered, keywords[0]) then
        assert ([keywords[0]] + rest)[1..] == rest;
        [keywords[0]] + rest
      else rest
  }

  predicate Distinct<T(==)>(xs: seq<T>) {
    forall i, j :: 0 <= i < j < |xs| ==> xs[i] != xs[j]
  }

  /** Position of the first occurrence of `x` in `xs`. */
  function FirstIndex<T(==)>(xs: seq<T>, x: T): (i: nat)
    requires x in xs
    ensures i < |xs| && xs[i] == x && x !in xs[..i]
    decreases |xs|
  {
    if xs[0] == x then 0
    else
      var i := FirstIndex(xs[1..], x);
      assert xs[..i + 1] == [xs[0]] + xs[1..][..i];
      i + 1
  }

  lemma {:induction false} FirstIndexInPrefix<T>(xs: seq<T>, m: nat, x: T)
    requires m <= |xs| && x in xs[..m]
    ensures FirstIndex(xs, x) == FirstIndex(xs[..m], x)
    decreases m
  {
    if xs[0] != x {
      assert xs[..m][1..] == xs[1..][..m - 1];
      FirstIndexInPrefix(xs[1..], m - 1, x);
    }
  }

  /** `list(dict.fromkeys(xs))`: the first occurrence of each element, in order. */
  function Dedup(xs: seq<string>): (r: seq<string>)
    ensures Distinct(r)
    ensures forall x :: x in r <==> x in xs
    ensures |r| <= |xs|
    decreases |xs|
  {
    if xs == [] then []
    else
      var r := Dedup(xs[..|xs| - 1]);
      var last := xs[|xs| - 1];
      assert xs == xs[..|xs| - 1] + [last];
      if last in r then r else r + [last]
  }

  /** The kept elements appear in the order of their first occurrences. */
  lemma {:induction false} DedupKeepsFirstOrder(xs: seq<string>)
    ensures forall i, j :: 0 <= i < j < |Dedup(xs)| ==>
              FirstIndex(xs, Dedup(xs)[i]) < FirstIndex(xs, Dedup(xs)[j])
    decreases |xs|
  {
    if xs != [] {
      var n := |xs| - 1;
      var init := xs[..n];
      var r := Dedup(init);
      DedupKeepsFirstOrder(init);
      assert xs == init + [xs[n]];
      forall i, j | 0 <= i < j < |Dedup(xs)|
        ensures FirstIndex(xs, Dedup(xs)[i]) < FirstIndex(xs, Dedup(xs)[j])
      {
        assert Dedup(xs)[i] == r[i] && r[i] in init;
        FirstIndexInPrefix(xs, n, r[i]);
        if j < |r| {
          assert Dedup(xs)[j] == r[j];
          FirstIndexInPrefix(xs, n, r[j]);
        } else {
          assert Dedup(xs)[j] == xs[n] && xs[n] !in init;
          assert FirstIndex(xs, xs[n]) == n;
        }
      }
    }
  }

  /** Deduplicating a list without repeats changes nothing. */
  lemma {:induction false} DedupOfDistinct(xs: seq<string>)
    requires Distinct(xs)
    ensures Dedup(xs) == xs
    decreases |xs|
  {
    if xs != [] {
      var n := |xs| - 1;
      DedupOfDistinct(xs[..n]);
      assert xs[n] !in xs[..n];
      assert xs == xs[..n] + [xs[n]];
    }
  }
}
