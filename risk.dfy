/** `assess_risk_factors` (tools.py:156-228): for each of five risk categories, the
    paragraphs that mention one of its keywords (compared against the lower-cased paragraph),
    grouped under the category, with a total at the end. */
module Risk {
  import opened Strings
  import opened Signals

  /** A risk category and the keywords that place a paragraph in it. */
  datatype Category = Category(name: string, keywords: seq<string>)

  /** The categories in the order the dictionary of tools.py:175-196 lists them. */
  const RiskCategories: seq<Category> := [
    Category("Credit & Debt Risk", [
      "debt", "default", "credit", "leverage", "borrowing",
      "interest expense", "covenant", "downgrade"]),
    Category("Market & Volatility Risk", [
      "volatility", "market risk", "currency", "exchange rate",
      "interest rate", "commodity", "inflation"]),
    Category("Legal & Regulatory Risk", [
      "litigation", "regulatory", "compliance", "lawsuit",
      "investigation", "penalty", "sanction", "SEC"]),
    Category("Operational Risk", [
      "restructuring", "impairment", "write-off", "supply chain",
      "cybersecurity", "disruption", "workforce"]),
    Category("Financial Health Concerns", [
      "decline", "loss", "adverse", "uncertainty", "contingent",
      "liability", "going concern", "liquidity risk"])
  ]

  const NoDataMessage := "No financial data provided for risk assessment."
  const Title := "=== Risk-Relevant Sections Extracted for Analysis ===\n"
  const NoRisksLine := "No explicit risk-related sections detected in the document."
  const ReviewImplicitLine := "The agent should review the full document for implicit risks."
  const AnalyseLine := "The agent should now perform qualitative analysis on these extracts."
  const ExtractTextCap: nat := 500
  const ExtractsShown: nat := 5
  const MinLineLength: nat := 50

  /** A paragraph kept for a category: its first 500 characters and the keywords it names. */
  datatype Extract = Extract(text: string, terms: seq<string>)

  function Terms(keywords: seq<string>, para: string): seq<string> {
    MatchedKeywords(keywords, Lower(para))
  }

  function ExtractOf(keywords: seq<string>, para: string): Extract {
    Extract(Take(para, ExtractTextCap), Terms(keywords, para))
  }

  /** `relevant` for one category after the loop over `paras` (tools.py:206-211). */
  function Relevant(keywords: seq<string>, paras: seq<string>): seq<Extract>
    decreases |paras|
  {
    if paras == [] then []
    else
      var rest := Relevant(keywords, paras[..|paras| - 1]);
      var para := paras[|paras| - 1];
      if Terms(keywords, para) != [] then rest + [ExtractOf(keywords, para)] else rest
  }

  function CategoryHeader(name: string, n: nat): string {
    "\n\U{2500}\U{2500} " + name + " (" + NatToString(n) + " section(s)) \U{2500}\U{2500}"
  }

  function EntryLines(e: Extract): seq<string> {
    ["  Indicators: " + Join(e.terms, ", "), "  Text: \"" + e.text + "\"", ""]
  }

  function Entries(extracts: seq<Extract>): seq<string>
    decreases |extracts|
  {
    if extracts == [] then []
    else Entries(extracts[..|extracts| - 1]) + EntryLines(extracts[|extracts| - 1])
  }

  /** The lines a category contributes (tools.py:213-218): nothing when no paragraph is
      relevant, otherwise the count of all relevant paragraphs and the first five. */
  function CategoryBlock(c: Category, paras: seq<string>): seq<string> {
    var relevant := Relevant(c.keywords, paras);
    if relevant == [] then []
    else [CategoryHeader(c.name, |relevant|)] + Entries(Take(relevant, ExtractsShown))
  }

  function CategoryBlocks(cats: seq<Category>, paras: seq<string>): seq<string>
    decreases |cats|
  {
    if cats == [] then []
    else CategoryBlocks(cats[..|cats| - 1], paras) + CategoryBlock(cats[|cats| - 1], paras)
  }

  /** `total_extracts`: every relevant paragraph of every category, listed or not. */
  function TotalExtracts(cats: seq<Category>, paras: seq<string>): nat
    decreases |cats|
  {
    if cats == [] then 0
    else TotalExtracts(cats[..|cats| - 1], paras) + |Relevant(cats[|cats| - 1].keywords, paras)|
  }

  function TotalLine(total: nat, categories: nat): string {
    "\nTotal: " + NatToString(total) + " risk-relevant sections found across "
    + NatToString(categories) + " categories."
  }

  function Closing(total: nat, categories: nat): seq<string> {
    if total == 0 then [NoRisksLine, ReviewImplicitLine]
    else [TotalLine(total, categories), AnalyseLine]
  }

  /** The lines of the report for the categories `cats` over the paragraphs `paras`. */
  function LinesFor(cats: seq<Category>, paras: seq<string>): seq<string> {
    [Title] + CategoryBlocks(cats, paras) + Closing(TotalExtracts(cats, paras), |cats|)
  }

  function RiskLines(text: string): seq<string> {
    LinesFor(RiskCategories, Paragraphs(text, MinLineLength))
  }

  /** The string assess_risk_factors returns. */
  function RiskReport(text: string): string {
    if Strip(text) == [] then NoDataMessage else Join(RiskLines(text), "\n")
  }

  /** The paragraph loop of one category (tools.py:206-211). */
  method CollectRelevant(keywords: seq<string>, paragraphs: seq<string>) returns (relevant: seq<Extract>)
    ensures relevant == Relevant(keywords, paragraphs)
  {
    relevant := [];
    for i := 0 to |paragraphs|
      invariant relevant == Relevant(keywords, paragraphs[..i])
    {
      assert paragraphs[..i + 1][..i] == paragraphs[..i];
      var para := paragraphs[i];
      var paraLower := Lower(para);
      var matchedTerms := MatchedKeywords(keywords, paraLower);
      if matchedTerms != [] {
        relevant := relevant + [Extract(Take(para, ExtractTextCap), matchedTerms)];
      }
    }
    assert paragraphs[..|paragraphs|] == paragraphs;
  }

  /** The entry loop of one category (tools.py:215-218). */
  method AppendEntries(output: seq<string>, shown: seq<Extract>) returns (out: seq<string>)
    ensures out == output + Entries(shown)
  {
    out := output;
    for i := 0 to |shown|
      invariant out == output + Entries(shown[..i])
    {
      assert shown[..i + 1][..i] == shown[..i];
      out := out + EntryLines(shown[i]);
    }
    assert shown[..|shown|] == shown;
  }

  /** One round of the category loop (tools.py:206-219): the category's block and the
      number of its relevant paragraphs. */
  method AppendCategory(output: seq<string>, category: Category, paragraphs: seq<string>)
    returns (out: seq<string>, count: nat)
    ensures out == output + CategoryBlock(category, paragraphs)
    ensures count == |Relevant(category.keywords, paragraphs)|
  {
    out := output;
    var relevant := CollectRelevant(category.keywords, paragraphs);
    count := 0;
    if relevant != [] {
      out := out + [CategoryHeader(category.name, |relevant|)];
      out := AppendEntries(out, Take(relevant, ExtractsShown));
      count := |relevant|;
    }
  }

  /** The category loop of tools.py:205-219, with `total_extracts` as the second result. */
  method AppendCategories(output: seq<string>, cats: seq<Category>, paragraphs: seq<string>)
    returns (out: seq<string>, totalExtracts: nat)
    ensures out == output + CategoryBlocks(cats, paragraphs)
    ensures totalExtracts == TotalExtracts(cats, paragraphs)
  {
    out := output;
    totalExtracts := 0;
    for i := 0 to |cats|
      invariant out == output + CategoryBlocks(cats[..i], paragraphs)
      invariant totalExtracts == TotalExtracts(cats[..i], paragraphs)
    {
      CategoriesSnoc(cats, i, paragraphs);
      AppendAssoc(output, CategoryBlocks(cats[..i], paragraphs), CategoryBlock(cats[i], paragraphs));
      var count;
      out, count := AppendCategory(out, cats[i], paragraphs);
      totalExtracts := totalExtracts + count;
    }
    assert cats[..|cats|] == cats;
  }

  /** The category loop's step: one more category adds its block and its count. */
  lemma CategoriesSnoc(cats: seq<Category>, i: nat, paras: seq<string>)
    requires i < |cats|
    ensures CategoryBlocks(cats[..i + 1], paras) == CategoryBlocks(cats[..i], paras) + CategoryBlock(cats[i], paras)
    ensures TotalExtracts(cats[..i + 1], paras) == TotalExtracts(cats[..i], paras) + |Relevant(cats[i].keywords, paras)|
  {
    assert cats[..i + 1][..i] == cats[..i];
  }

  /** assess_risk_factors (tools.py:156-228). */
  method AssessRiskFactors(financialText: string) returns (report: string)
    ensures report == RiskReport(financialText)
  {
    if Strip(financialText) == [] {
      return NoDataMessage;
    }
    var paragraphs := Paragraphs(financialText, MinLineLength);
    var output, totalExtracts := AppendCategories([Title], RiskCategories, paragraphs);
    if totalExtracts == 0 {
      output := output + [NoRisksLine, ReviewImplicitLine];
    } else {
      output := output + [TotalLine(totalExtracts, |RiskCategories|), AnalyseLine];
    }
    report := Join(output, "\n");
  }

  /** A category has no relevant paragraph exactly when no paragraph names one of its
      keywords. */
  lemma {:induction false} RelevantEmptyIff(keywords: seq<string>, paras: seq<string>)
    ensures Relevant(keywords, paras) == [] <==> forall p <- paras :: Terms(keywords, p) == []
    decreases |paras|
  {
    if paras != [] {
      var init := paras[..|paras| - 1];
      RelevantEmptyIff(keywords, init);
      assert paras == init + [paras[|paras| - 1]];
    }
  }

  /** Every paragraph that names a keyword of the category is kept, cut to 500 characters,
      with the keywords it names; nothing else is kept, and never more than there are
      paragraphs. */
  lemma {:induction false} RelevantExact(keywords: seq<string>, paras: seq<string>)
    ensures |Relevant(keywords, paras)| <= |paras|
    ensures forall p <- paras :: Terms(keywords, p) != [] ==> ExtractOf(keywords, p) in Relevant(keywords, paras)
    ensures forall e <- Relevant(keywords, paras) ::
              |e.text| <= ExtractTextCap && exists p <- paras :: Terms(keywords, p) != [] && e == ExtractOf(keywords, p)
    decreases |paras|
  {
    if paras != [] {
      var init := paras[..|paras| - 1];
      RelevantExact(keywords, init);
      assert paras == init + [paras[|paras| - 1]];
      forall e <- Relevant(keywords, paras)
        ensures exists p <- paras :: Terms(keywords, p) != [] && e == ExtractOf(keywords, p)
      {
        if e in Relevant(keywords, init) {
          var p :| p in init && Terms(keywords, p) != [] && e == ExtractOf(keywords, p);
          assert p in paras;
        } else {
          assert e == ExtractOf(keywords, paras[|paras| - 1]);
        }
      }
    }
  }

  /** An extract's indicators are exactly the category's keywords its paragraph names, in the
      order of the keyword list. */
  lemma ExtractTerms(keywords: seq<string>, para: string)
    ensures forall kw :: kw in ExtractOf(keywords, para).terms <==> kw in keywords && Contains(Lower(para), kw)
    ensures IsSubsequence(ExtractOf(keywords, para).terms, keywords)
  {
  }

  /** The total is zero exactly when no category has a relevant paragraph. */
  lemma {:induction false} TotalZeroIffNoneRelevant(cats: seq<Category>, paras: seq<string>)
    ensures TotalExtracts(cats, paras) == 0 <==> forall c <- cats :: Relevant(c.keywords, paras) == []
    decreases |cats|
  {
    if cats != [] {
      var init := cats[..|cats| - 1];
      var last := cats[|cats| - 1];
      TotalZeroIffNoneRelevant(init, paras);
      assert TotalExtracts(cats, paras) == TotalExtracts(init, paras) + |Relevant(last.keywords, paras)|;
      assert cats == init + [last];
      assert forall c <- cats :: c in init || c == last;
    }
  }

  /** No category block is written exactly when the total is zero. */
  lemma {:induction false} BlocksEmptyIffTotalZero(cats: seq<Category>, paras: seq<string>)
    ensures CategoryBlocks(cats, paras) == [] <==> TotalExtracts(cats, paras) == 0
    decreases |cats|
  {
    if cats != [] {
      var init := cats[..|cats| - 1];
      var last := cats[|cats| - 1];
      BlocksEmptyIffTotalZero(init, paras);
      CategoryBlockEmptyIff(last, paras);
      assert CategoryBlocks(cats, paras) == CategoryBlocks(init, paras) + CategoryBlock(last, paras);
      assert TotalExtracts(cats, paras) == TotalExtracts(init, paras) + |Relevant(last.keywords, paras)|;
    }
  }

  /** The total is zero exactly when no category has a relevant paragraph, and exactly when
      no category block is written. */
  lemma TotalZeroIff(cats: seq<Category>, paras: seq<string>)
    ensures TotalExtracts(cats, paras) == 0 <==> forall c <- cats :: Relevant(c.keywords, paras) == []
    ensures TotalExtracts(cats, paras) == 0 <==> CategoryBlocks(cats, paras) == []
  {
    TotalZeroIffNoneRelevant(cats, paras);
    BlocksEmptyIffTotalZero(cats, paras);
  }

  lemma CategoryBlockEmptyIff(c: Category, paras: seq<string>)
    ensures CategoryBlock(c, paras) == [] <==> Relevant(c.keywords, paras) == []
  {
  }

  /** No category has a relevant paragraph exactly when no paragraph names any keyword of
      any category. */
  lemma NothingRelevantIff(cats: seq<Category>, paras: seq<string>)
    ensures TotalExtracts(cats, paras) == 0 <==> forall c <- cats, p <- paras :: Terms(c.keywords, p) == []
  {
    TotalZeroIff(cats, paras);
    forall c <- cats { RelevantEmptyIff(c.keywords, paras); }
  }

  /** For any categories: the closing lines report no risk exactly when no paragraph names
      any keyword of any category, and the report then holds the title and these two lines
      alone; otherwise they give the positive total and the number of categories. */
  lemma ClosingIff(cats: seq<Category>, paras: seq<string>)
    ensures var none := forall c <- cats, p <- paras :: Terms(c.keywords, p) == [];
            && (none ==> LinesFor(cats, paras) == [Title, NoRisksLine, ReviewImplicitLine])
            && (!none ==> TotalExtracts(cats, paras) > 0
                          && LinesFor(cats, paras) == [Title] + CategoryBlocks(cats, paras)
                             + [TotalLine(TotalExtracts(cats, paras), |cats|), AnalyseLine])
  {
    NothingRelevantIff(cats, paras);
    TotalZeroIff(cats, paras);
  }

  /** The report closes with the total over five categories, or with the no-risk lines
      exactly when no paragraph names any keyword. */
  lemma NoRisksIff(text: string)
    ensures var paras := Paragraphs(text, MinLineLength);
            var none := forall c <- RiskCategories, p <- paras :: Terms(c.keywords, p) == [];
            && (none ==> RiskLines(text) == [Title, NoRisksLine, ReviewImplicitLine])
            && (!none ==> RiskLines(text)[|RiskLines(text)| - 2] == TotalLine(TotalExtracts(RiskCategories, paras), 5))
  {
    var paras := Paragraphs(text, MinLineLength);
    ClosingIff(RiskCategories, paras);
    assert RiskLines(text) == LinesFor(RiskCategories, paras);
    assert |RiskCategories| == 5;
  }

  lemma {:induction false} EntriesLength(extracts: seq<Extract>)
    ensures |Entries(extracts)| == 3 * |extracts|
    decreases |extracts|
  {
    if extracts != [] { EntriesLength(extracts[..|extracts| - 1]); }
  }

  /** A category's header counts all its relevant paragraphs, while at most five of them are
      listed, three lines each. */
  lemma CategoryBlockShape(c: Category, paras: seq<string>)
    ensures var relevant := Relevant(c.keywords, paras);
            var block := CategoryBlock(c, paras);
            && (relevant == [] <==> block == [])
            && (relevant != [] ==>
                  && block[0] == CategoryHeader(c.name, |relevant|)
                  && |block| == 1 + 3 * (if |relevant| <= ExtractsShown then |relevant| else ExtractsShown))
  {
    EntriesLength(Take(Relevant(c.keywords, paras), ExtractsShown));
  }

  /** `lower` leaves no upper-case ASCII letter. */
  predicate NoUpper(t: string) {
    forall k :: 0 <= k < |t| ==> !('A' <= t[k] <= 'Z')
  }

  lemma LowerHasNoUpper(s: string)
    ensures NoUpper(Lower(s))
  {
  }

  /** A text without upper-case letters does not contain a word that starts with one. */
  lemma {:induction false} NoUpperDoesNotContain(t: string, sub: string)
    requires NoUpper(t) && sub != [] && 'A' <= sub[0] <= 'Z'
    ensures !Contains(t, sub)
    decreases |t|
  {
    if t != [] {
      assert !StartsWith(t, sub) by {
        if |sub| <= |t| { assert t[..|sub|][0] == t[0]; }
      }
      NoUpperDoesNotContain(t[1..], sub);
    }
  }

  /** The keyword "SEC" is compared against the lower-cased paragraph, so it never matches:
      it is never an indicator, whatever the paragraph says. */
  lemma SecNeverMatches(para: string)
    ensures "SEC" in RiskCategories[2].keywords
    ensures "SEC" !in Terms(RiskCategories[2].keywords, para)
  {
    LowerHasNoUpper(para);
    NoUpperDoesNotContain(Lower(para), "SEC");
  }
}
