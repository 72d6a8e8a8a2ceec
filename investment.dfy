/** `analyze_investment_data` (tools.py:82-153): the monetary and percentage figures of a
    text, deduplicated and capped, and the paragraphs that name a financial metric next to a
    figure, assembled into the lines of a report. */
module Investment {
  import opened Strings
  import opened Patterns
  import opened Signals

  const MetricKeywords: seq<string> := [
    "revenue", "net income", "gross profit", "operating income",
    "ebitda", "eps", "earnings per share", "free cash flow",
    "operating cash flow", "total assets", "total liabilities",
    "shareholders equity", "debt", "margin", "growth",
    "year-over-year", "quarter", "guidance", "outlook",
    "dividend", "buyback", "repurchase"
  ]

  const NoDataMessage := "No financial data provided for analysis."
  const Title := "=== Financial Metrics Extraction ==="
  const NoFiguresLine := "No structured financial figures detected."
  const ReviewDirectlyLine := "The agent should review the full document text directly."
  const UseFiguresLine := "The agent should now use these extracted figures for investment analysis."
  const MoneyCap: nat := 20
  const PercentCap: nat := 15
  const SectionTextCap: nat := 600
  const SectionsShown: nat := 10
  const MinLineLength: nat := 30

  /** A paragraph kept for the report: its first 600 characters and the keywords it names. */
  datatype Section = Section(text: string, keywords: seq<string>)

  /** A paragraph is a metric section when it names a metric keyword (compared in lower case)
      and holds a monetary or a percentage figure. */
  predicate IsMetricParagraph(para: string) {
    MatchedKeywords(MetricKeywords, Lower(para)) != [] && (Search(Money, para) || Search(Percent, para))
  }

  function SectionOf(para: string): Section {
    Section(Take(para, SectionTextCap), MatchedKeywords(MetricKeywords, Lower(para)))
  }

  /** `metric_sections` after the loop over `paras` (tools.py:133-138). */
  function MetricSections(paras: seq<string>): seq<Section>
    decreases |paras|
  {
    if paras == [] then []
    else
      var rest := MetricSections(paras[..|paras| - 1]);
      var para := paras[|paras| - 1];
      if IsMetricParagraph(para) then rest + [SectionOf(para)] else rest
  }

  function Bullet(figure: string): string {
    "  \U{2022} " + Strip(figure)
  }

  /** One bullet line per figure, in order. */
  function Bullets(figures: seq<string>): seq<string>
    decreases |figures|
  {
    if figures == [] then [] else Bullets(figures[..|figures| - 1]) + [Bullet(figures[|figures| - 1])]
  }

  /** The line that opens a pattern's block: the number of all its matches. */
  function CountLine(kind: string, n: nat): string {
    kind + " figures found (" + NatToString(n) + " total):"
  }

  /** The lines written for all matches of one pattern (tools.py:118-123 and 126-131): the
      count of all matches, then a bullet for each of the first `cap` distinct ones. */
  function FigureBlock(kind: string, matches: seq<string>, cap: nat): seq<string> {
    if matches == [] then []
    else [CountLine(kind, |matches|)] + Bullets(Take(Dedup(matches), cap)) + [""]
  }

  function SectionEntry(s: Section): seq<string> {
    ["  Keywords: " + Join(s.keywords, ", "), "  Text: \"" + s.text + "\"", ""]
  }

  function SectionLines(sections: seq<Section>): seq<string>
    decreases |sections|
  {
    if sections == [] then []
    else SectionLines(sections[..|sections| - 1]) + SectionEntry(sections[|sections| - 1])
  }

  function SectionCountLine(n: nat): string {
    "Key financial sections (" + NatToString(n) + " found):"
  }

  /** The lines written for the metric sections (tools.py:140-145): their count, then the
      first ten. */
  function SectionBlock(sections: seq<Section>): seq<string> {
    if sections == [] then []
    else [SectionCountLine(|sections|)] + SectionLines(Take(sections, SectionsShown))
  }

  /** The report's lines before the closing message. */
  function ReportBody(text: string): seq<string> {
    [Title, ""]
    + FigureBlock("Monetary", FindAll(Money, text), MoneyCap)
    + FigureBlock("Percentage", FindAll(Percent, text), PercentCap)
    + SectionBlock(MetricSections(Paragraphs(text, MinLineLength)))
  }

  function Closing(body: seq<string>): seq<string> {
    if |body| <= 2 then [NoFiguresLine, ReviewDirectlyLine] else [UseFiguresLine]
  }

  function InvestmentLines(text: string): seq<string> {
    var body := ReportBody(text);
    body + Closing(body)
  }

  /** The string analyze_investment_data returns. */
  function InvestmentReport(text: string): string {
    if Strip(text) == [] then NoDataMessage else Join(InvestmentLines(text), "\n")
  }

  /** The bullet loop of one pattern's block (tools.py:120-121 and 128-129). */
  method AppendBullets(output: seq<string>, figures: seq<string>) returns (out: seq<string>)
    ensures out == output + Bullets(figures)
  {
    out := output;
    for i := 0 to |figures|
      invariant out == output + Bullets(figures[..i])
    {
      assert figures[..i + 1][..i] == figures[..i];
      out := out + [Bullet(figures[i])];
    }
    assert figures[..|figures|] == figures;
  }

  /** The block of one pattern, appended to `output` (tools.py:117-123 and 125-131). */
  method AppendFigures(output: seq<string>, kind: string, matches: seq<string>, cap: nat) returns (out: seq<string>)
    ensures out == output + FigureBlock(kind, matches, cap)
  {
    out := output;
    if matches != [] {
      var unique := Take(Dedup(matches), cap);
      out := out + [CountLine(kind, |matches|)];
      out := AppendBullets(out, unique);
      out := out + [""];
    }
  }

  /** The paragraph loop of tools.py:133-138. */
  method CollectSections(paragraphs: seq<string>) returns (sections: seq<Section>)
    ensures sections == MetricSections(paragraphs)
  {
    sections := [];
    for i := 0 to |paragraphs|
      invariant sections == MetricSections(paragraphs[..i])
    {
      assert paragraphs[..i + 1][..i] == paragraphs[..i];
      var para := paragraphs[i];
      var paraLower := Lower(para);
      var matched := MatchedKeywords(MetricKeywords, paraLower);
      if matched != [] && (Search(Money, para) || Search(Percent, para)) {
        sections := sections + [Section(Take(para, SectionTextCap), matched)];
      }
    }
    assert paragraphs[..|paragraphs|] == paragraphs;
  }

  /** The entry loop of tools.py:142-145. */
  method AppendSectionLines(output: seq<string>, shown: seq<Section>) returns (out: seq<string>)
    ensures out == output + SectionLines(shown)
  {
    out := output;
    for i := 0 to |shown|
      invariant out == output + SectionLines(shown[..i])
    {
      assert shown[..i + 1][..i] == shown[..i];
      out := out + SectionEntry(shown[i]);
    }
    assert shown[..|shown|] == shown;
  }

  /** The section block appended to `output` (tools.py:140-145). */
  method AppendSections(output: seq<string>, sections: seq<Section>) returns (out: seq<string>)
    ensures out == output + SectionBlock(sections)
  {
    out := output;
    if sections != [] {
      out := out + [SectionCountLine(|sections|)];
      out := AppendSectionLines(out, Take(sections, SectionsShown));
    }
  }

  /** analyze_investment_data (tools.py:82-153). */
  method AnalyzeInvestmentData(financialText: string) returns (report: string)
    ensures report == InvestmentReport(financialText)
  {
    if Strip(financialText) == [] {
      return NoDataMessage;
    }
    var paragraphs := Paragraphs(financialText, MinLineLength);
    var output := [Title, ""];
    output := AppendFigures(output, "Monetary", FindAll(Money, financialText), MoneyCap);
    output := AppendFigures(output, "Percentage", FindAll(Percent, financialText), PercentCap);
    var metricSections := CollectSections(paragraphs);
    output := AppendSections(output, metricSections);
    if |output| <= 2 {
      output := output + [NoFiguresLine, ReviewDirectlyLine];
    } else {
      output := output + [UseFiguresLine];
    }
    report := Join(output, "\n");
  }

  /** A pattern's block is empty exactly when the pattern has no match; otherwise it holds
      the number of ALL matches and one bullet each for the first `cap` distinct matches,
      in the order they first occur. */
  lemma FigureBlockFacts(kind: string, matches: seq<string>, cap: nat)
    ensures FigureBlock(kind, matches, cap) == [] <==> matches == []
    ensures matches != [] ==>
              var block := FigureBlock(kind, matches, cap);
              var shown := Take(Dedup(matches), cap);
              && |shown| <= cap && Distinct(shown)
              && (forall m <- shown :: m in matches)
              && |block| == |shown| + 2
              && block[0] == CountLine(kind, |matches|)
              && (forall k :: 0 <= k < |shown| ==> block[k + 1] == Bullet(shown[k]))
              && block[|block| - 1] == ""
  {
    if matches != [] {
      var shown := Take(Dedup(matches), cap);
      BulletsAt(shown);
    }
  }

  lemma {:induction false} BulletsAt(figures: seq<string>)
    ensures |Bullets(figures)| == |figures|
    ensures forall k :: 0 <= k < |figures| ==> Bullets(figures)[k] == Bullet(figures[k])
    decreases |figures|
  {
    if figures != [] {
      var init := figures[..|figures| - 1];
      BulletsAt(init);
      assert Bullets(figures) == Bullets(init) + [Bullet(figures[|figures| - 1])];
      forall k | 0 <= k < |figures| ensures Bullets(figures)[k] == Bullet(figures[k]) {
        if k < |init| {
          assert figures[k] == init[k];
        }
      }
    }
  }

  /** The body is the title and the blank line alone exactly when every block is empty. */
  lemma BodyShortIff(money: seq<string>, pcts: seq<string>, sections: seq<Section>)
    ensures |[Title, ""] + FigureBlock("Monetary", money, MoneyCap)
             + FigureBlock("Percentage", pcts, PercentCap) + SectionBlock(sections)| <= 2
            <==> money == [] && pcts == [] && sections == []
  {
  }

  /** The closing message says no figures were detected exactly when there is no monetary
      match, no percentage match and no metric section; otherwise the report carries the
      blocks and sends the agent on to use them. */
  lemma NoFiguresIff(text: string)
    ensures var none := FindAll(Money, text) == [] && FindAll(Percent, text) == []
                        && MetricSections(Paragraphs(text, MinLineLength)) == [];
            && (none ==> InvestmentLines(text) == [Title, "", NoFiguresLine, ReviewDirectlyLine])
            && (!none ==> |ReportBody(text)| > 2 && InvestmentLines(text) == ReportBody(text) + [UseFiguresLine])
  {
    var money := FindAll(Money, text);
    var pcts := FindAll(Percent, text);
    var sections := MetricSections(Paragraphs(text, MinLineLength));
    var body := ReportBody(text);
    assert body == [Title, ""] + FigureBlock("Monetary", money, MoneyCap)
                   + FigureBlock("Percentage", pcts, PercentCap) + SectionBlock(sections);
    BodyShortIff(money, pcts, sections);
    if money == [] && pcts == [] && sections == [] {
      assert body == [Title, ""];
    }
  }

  /** Every paragraph that names a metric next to a figure becomes a section, and every
      section comes from such a paragraph; a section's text is at most 600 characters. */
  lemma {:induction false} MetricSectionsExact(paras: seq<string>)
    ensures forall p <- paras :: IsMetricParagraph(p) ==> SectionOf(p) in MetricSections(paras)
    ensures forall s <- MetricSections(paras) :: exists p <- paras :: IsMetricParagraph(p) && s == SectionOf(p)
    ensures forall s <- MetricSections(paras) :: |s.text| <= SectionTextCap && s.keywords != []
    decreases |paras|
  {
    if paras != [] {
      var init := paras[..|paras| - 1];
      MetricSectionsExact(init);
      assert paras == init + [paras[|paras| - 1]];
      forall s <- MetricSections(paras)
        ensures exists p <- paras :: IsMetricParagraph(p) && s == SectionOf(p)
      {
        if s in MetricSections(init) {
          var p :| p in init && IsMetricParagraph(p) && s == SectionOf(p);
          assert p in paras;
        } else {
          assert s == SectionOf(paras[|paras| - 1]);
        }
      }
    }
  }

  /** A section's keywords are exactly the metric keywords its paragraph names, in list order. */
  lemma SectionKeywords(para: string)
    ensures forall kw :: kw in SectionOf(para).keywords <==> kw in MetricKeywords && Contains(Lower(para), kw)
    ensures IsSubsequence(SectionOf(para).keywords, MetricKeywords)
  {
  }

  /** At most ten sections are listed, three lines each, after the count line. */
  lemma {:induction false} SectionLinesLength(sections: seq<Section>)
    ensures |SectionLines(sections)| == 3 * |sections|
    decreases |sections|
  {
    if sections != [] { SectionLinesLength(sections[..|sections| - 1]); }
  }

  lemma SectionBlockBound(sections: seq<Section>)
    ensures |SectionBlock(sections)| <= 1 + 3 * SectionsShown
    ensures sections != [] ==> SectionBlock(sections)[0] == SectionCountLine(|sections|)
  {
    SectionLinesLength(Take(sections, SectionsShown));
  }

  /** The count line counts every match while the bullets list distinct ones: a repeated
      figure is counted twice and listed once. */
  lemma RepeatedFigureCountedTwice()
    ensures FigureBlock("Monetary", ["$1", "$1"], MoneyCap) == [CountLine("Monetary", 2), Bullet("$1"), ""]
  {
    assert Dedup(["$1", "$1"]) == ["$1"] by {
      assert ["$1", "$1"][..1] == ["$1"];
      assert Dedup(["$1"]) == ["$1"] by { assert ["$1"][..0] == []; }
    }
    assert Take(["$1"], MoneyCap) == ["$1"];
    assert Bullets(["$1"]) == [Bullet("$1")] by { assert ["$1"][..0] == []; }
  }

  /** Deduplication compares matches before they are stripped, so a figure matched once with
      the white space the pattern swallows after it and once without is listed twice. */
  lemma SameBulletTwice()
    ensures var block := FigureBlock("Monetary", ["$5 ", "$5"], MoneyCap);
            |block| == 4 && block[1] == block[2]
  {
    var ms := ["$5 ", "$5"];
    assert ms[0] != ms[1] by { assert |ms[0]| != |ms[1]|; }
    assert Dedup(ms) == ms by {
      assert ms[..1] == ["$5 "];
      assert Dedup(["$5 "]) == ["$5 "] by { assert ["$5 "][..0] == []; }
    }
    assert Take(ms, MoneyCap) == ms;
    BulletsAt(ms);
    assert Strip("$5 ") == Strip("$5") by {
      assert "$5 "[..2] == "$5";
    }
  }
}
