/** The pure parts of main.py: the query default, the upload and report paths, the
    report file name, and the two readers `get_analysis` and `list_analyses`. */
module Requests {
  import opened Strings
  import opened Options
  import opened Database

  /** The settings of config.py the handlers read: `DATA_DIR`, `OUTPUTS_DIR` and
      `MAX_UPLOAD_SIZE_MB`. */
  datatype Config = Config(dataDir: string, outputsDir: string, maxUploadSizeMb: nat)

  const DefaultQuery := "Analyze this financial document for investment insights"
  const UnknownFilename := "unknown.pdf"

  /** `if not query or query.strip() == "": query = <default>` (main.py:152-153 and 221-222). */
  function NormalizeQuery(q: string): string {
    if Strip(q) == [] then DefaultQuery else q
  }

  /** A blank query is replaced by the default and any other is kept as it is; either way
      there is something left after stripping, and normalising twice changes nothing. */
  lemma NormalizeQueryFacts(q: string)
    ensures AllSpace(q) ==> NormalizeQuery(q) == DefaultQuery
    ensures !AllSpace(q) ==> NormalizeQuery(q) == q
    ensures Strip(NormalizeQuery(q)) != []
    ensures NormalizeQuery(NormalizeQuery(q)) == NormalizeQuery(q)
  {
    assert !IsSpace(DefaultQuery[|DefaultQuery| - 1]);
  }

  /** The query the pipeline receives, `query.strip()` after the default: never blank and
      without surrounding white space. */
  function PipelineQuery(q: string): (r: string)
    ensures r != [] && IsStripped(r)
  {
    NormalizeQueryFacts(q);
    Strip(NormalizeQuery(q))
  }

  /** `file.filename or "unknown.pdf"`: a missing or empty upload name falls back. */
  function FilenameOrDefault(name: Option<string>): (r: string)
    ensures r != []
    ensures name.Some? && name.value != [] ==> r == name.value
    ensures !(name.Some? && name.value != []) ==> r == UnknownFilename
  {
    if name.Some? && name.value != [] then name.value else UnknownFilename
  }

  /** `i` is where `s.rfind(c)` points: -1 or an occurrence of `c`, with none after it. */
  predicate IsLast(s: string, c: char, i: int) {
    -1 <= i < |s| && (i >= 0 ==> s[i] == c) && forall k :: i < k < |s| ==> s[k] != c
  }

  /** `s.rfind(c)`: the last position of `c`, or -1. */
  function LastIndex(s: string, c: char): (r: int)
    ensures -1 <= r < |s|
    ensures r >= 0 ==> s[r] == c
    decreases |s|
  {
    if s == [] then -1
    else if s[|s| - 1] == c then |s| - 1
    else LastIndex(s[..|s| - 1], c)
  }

  /** No occurrence of `c` follows the one `LastIndex` finds. */
  lemma {:induction false} LastIndexIsLast(s: string, c: char)
    ensures IsLast(s, c, LastIndex(s, c))
    decreases |s|
  {
    if s != [] && s[|s| - 1] != c {
      var init := s[..|s| - 1];
      LastIndexIsLast(init, c);
      forall k | LastIndex(s, c) < k < |s| ensures s[k] != c {
        if k < |s| - 1 { assert s[k] == init[k]; }
      }
    }
  }

  /** Every character is a dot. */
  predicate AllDots(s: string)
    decreases |s|
  {
    s == [] || (s[0] == '.' && AllDots(s[1..]))
  }

  /** `os.path.splitext(p)` for POSIX paths: the extension starts at the last dot of the
      last path component, unless everything before that dot in the component is dots. */
  function SplitExt(p: string): (string, string) {
    SplitExtAt(p, LastIndex(p, '/'), LastIndex(p, '.'))
  }

  /** The split of `p` given the last separator at `sepIndex` and the last dot at `dotIndex`. */
  function SplitExtAt(p: string, sepIndex: int, dotIndex: int): (string, string) {
    if -1 <= sepIndex < dotIndex < |p| && !AllDots(p[sepIndex + 1..dotIndex]) then (p[..dotIndex], p[dotIndex..])
    else (p, "")
  }

  /** The two parts make up the path; an extension is a dot followed by neither a dot nor a
      slash, and the root it leaves still has a name before the dot. */
  lemma SplitExtParts(p: string)
    ensures SplitExt(p).0 + SplitExt(p).1 == p
    ensures var ext := SplitExt(p).1;
            ext == [] || (ext[0] == '.' && forall k :: 1 <= k < |ext| ==> ext[k] != '.' && ext[k] != '/')
    ensures SplitExt(p).1 != [] ==> SplitExt(p).0 != []
    ensures (forall k :: 0 <= k < |p| ==> p[k] != '.') ==> SplitExt(p) == (p, "")
  {
    var sepIndex := LastIndex(p, '/');
    var dotIndex := LastIndex(p, '.');
    LastIndexIsLast(p, '/');
    LastIndexIsLast(p, '.');
    SplitExtAtParts(p, sepIndex, dotIndex);
  }

  lemma SplitExtAtParts(p: string, sepIndex: int, dotIndex: int)
    requires IsLast(p, '/', sepIndex) && IsLast(p, '.', dotIndex)
    ensures SplitExtAt(p, sepIndex, dotIndex).0 + SplitExtAt(p, sepIndex, dotIndex).1 == p
    ensures var ext := SplitExtAt(p, sepIndex, dotIndex).1;
            ext == [] || (ext[0] == '.' && forall k :: 1 <= k < |ext| ==> ext[k] != '.' && ext[k] != '/')
    ensures SplitExtAt(p, sepIndex, dotIndex).1 != [] ==> SplitExtAt(p, sepIndex, dotIndex).0 != []
    ensures (forall k :: 0 <= k < |p| ==> p[k] != '.') ==> SplitExtAt(p, sepIndex, dotIndex) == (p, "")
  {
    if dotIndex > sepIndex && !AllDots(p[sepIndex + 1..dotIndex]) {
      ExtensionShape(p, sepIndex, dotIndex);
      var ext := p[dotIndex..];
      forall k | 1 <= k < |ext| ensures ext[k] != '.' && ext[k] != '/' {
        assert ext[k] == p[dotIndex + k];
      }
    } else if dotIndex >= 0 {
      assert p[dotIndex] == '.';
    }
  }

  /** When the last dot follows the last separator and does not open a dot-only name, the
      split is at that dot: the root is not empty and the tail has no dot or slash. */
  lemma ExtensionShape(p: string, sepIndex: int, dotIndex: int)
    requires IsLast(p, '/', sepIndex) && IsLast(p, '.', dotIndex)
    requires dotIndex > sepIndex && !AllDots(p[sepIndex + 1..dotIndex])
    ensures SplitExtAt(p, sepIndex, dotIndex) == (p[..dotIndex], p[dotIndex..])
    ensures p[..dotIndex] + p[dotIndex..] == p
    ensures p[..dotIndex] != [] && p[dotIndex] == '.'
    ensures forall k :: dotIndex < k < |p| ==> p[k] != '.' && p[k] != '/'
  {
    RootNonEmpty(sepIndex, dotIndex, p[sepIndex + 1..dotIndex]);
    assert p[..dotIndex] + p[dotIndex..] == p;
    TailHasNoSeparator(p, sepIndex, dotIndex);
  }

  lemma RootNonEmpty(sepIndex: int, dotIndex: int, between: string)
    requires -1 <= sepIndex < dotIndex && |between| == dotIndex - sepIndex - 1 && !AllDots(between)
    ensures dotIndex > 0
  {
  }

  lemma TailHasNoSeparator(p: string, sepIndex: int, dotIndex: int)
    requires IsLast(p, '/', sepIndex) && IsLast(p, '.', dotIndex) && sepIndex < dotIndex
    ensures forall k :: dotIndex < k < |p| ==> p[k] != '.' && p[k] != '/'
  {
  }

  /** `os.path.splitext(filename)[0].replace(" ", "_")[:50]` (main.py:36). */
  function SafeName(filename: string): string {
    Take(ReplaceAll(SplitExt(filename).0, " ", "_"), 50)
  }

  /** `f"{safe_name}_{analysis_id[:8]}.txt"` (main.py:37). */
  function OutputFileName(filename: string, id: string): string {
    SafeName(filename) + "_" + Take(id, 8) + ".txt"
  }

  lemma {:induction false} ReplaceSpaceLeavesNone(s: string)
    ensures forall k :: 0 <= k < |ReplaceAll(s, " ", "_")| ==> ReplaceAll(s, " ", "_")[k] != ' '
    decreases |s|
  {
    if |s| >= 1 {
      ReplaceSpaceLeavesNone(s[1..]);
      var rest := ReplaceAll(s[1..], " ", "_");
      if s[..1] == " " {
        assert ReplaceAll(s, " ", "_") == "_" + rest by { assert s[1..] == s[|" "|..]; }
      } else {
        assert ReplaceAll(s, " ", "_") == [s[0]] + rest;
      }
    }
  }

  /** The safe name has at most fifty characters and no space, and the file name is the
      safe name, an underscore, the first eight characters of the id and ".txt". */
  lemma OutputFileNameFacts(filename: string, id: string)
    ensures |SafeName(filename)| <= 50
    ensures forall k :: 0 <= k < |SafeName(filename)| ==> SafeName(filename)[k] != ' '
    ensures var name := OutputFileName(filename, id);
            var n := |SafeName(filename)|;
            && name[..n] == SafeName(filename)
            && name[n] == '_'
            && name[n + 1..|name| - 4] == Take(id, 8)
            && name[|name| - 4..] == ".txt"
    ensures |id| >= 8 ==> |OutputFileName(filename, id)| == |SafeName(filename)| + 13
  {
    ReplaceSpaceLeavesNone(SplitExt(filename).0);
    var name := OutputFileName(filename, id);
    var n := |SafeName(filename)|;
    assert name == SafeName(filename) + ("_" + Take(id, 8) + ".txt");
  }

  /** `os.path.join(a, b)` for POSIX paths: an absolute `b` replaces `a`. */
  function PathJoin(a: string, b: string): string {
    if b != [] && b[0] == '/' then b
    else if a == [] || a[|a| - 1] == '/' then a + b
    else a + "/" + b
  }

  /** The report path is the outputs directory joined with the file name; a file name
      whose stem starts with a slash is absolute and replaces the directory. */
  function OutputPath(cfg: Config, filename: string, id: string): string {
    PathJoin(cfg.outputsDir, OutputFileName(filename, id))
  }

  /** Where the report lands: inside the outputs directory when the safe name is relative,
      and at the file name itself when the safe name is absolute. */
  lemma OutputPathShape(cfg: Config, filename: string, id: string)
    ensures SafeName(filename) == [] || SafeName(filename)[0] != '/' ==>
              var dir := cfg.outputsDir;
              OutputPath(cfg, filename, id) == if dir == [] || dir[|dir| - 1] == '/' then dir + OutputFileName(filename, id)
                                               else dir + "/" + OutputFileName(filename, id)
    ensures SafeName(filename) != [] && SafeName(filename)[0] == '/' ==>
              OutputPath(cfg, filename, id) == OutputFileName(filename, id)
  {
    var name := OutputFileName(filename, id);
    if SafeName(filename) == [] {
      assert name[0] == '_';
    } else {
      assert name[0] == SafeName(filename)[0];
    }
  }

  /** `os.path.join(DATA_DIR, f"financial_document_{file_id}.pdf")` (main.py:131 and 210). */
  function UploadPath(cfg: Config, id: string): string {
    PathJoin(cfg.dataDir, "financial_document_" + id + ".pdf")
  }

  /** Distinct ids give distinct upload paths. */
  lemma UploadPathInjective(cfg: Config, id1: string, id2: string)
    requires UploadPath(cfg, id1) == UploadPath(cfg, id2)
    ensures id1 == id2
  {
    var p := "financial_document_";
    var a := p + id1 + ".pdf";
    var b := p + id2 + ".pdf";
    assert a[0] == 'f' && b[0] == 'f';
    var dir := cfg.dataDir;
    if dir == [] || dir[|dir| - 1] == '/' {
      assert dir + a == dir + b;
      assert a == (dir + a)[|dir|..];
      assert b == (dir + b)[|dir|..];
    } else {
      assert a == (dir + "/" + a)[|dir| + 1..];
      assert b == (dir + "/" + b)[|dir| + 1..];
    }
    assert id1 == a[|p|..|a| - 4];
    assert id2 == b[|p|..|b| - 4];
  }

  /** `MAX_UPLOAD_SIZE_MB * 1024 * 1024`: uploads strictly larger are refused. */
  function UploadLimit(cfg: Config): nat {
    cfg.maxUploadSizeMb * 1024 * 1024
  }

  function TooLargeDetail(cfg: Config): string {
    "File exceeds " + NatToString(cfg.maxUploadSizeMb) + " MB limit."
  }

  /** The body of a successful `GET /analysis/{analysis_id}` (main.py:248-257). */
  datatype AnalysisView = AnalysisView(
    analysisId: string, status: string, filename: string, query: string,
    result: Option<string>, error: Option<string>, createdAt: nat, completedAt: Option<nat>)

  datatype Lookup = Found(view: AnalysisView) | NotFound404

  /** get_analysis (main.py:242-257). */
  function GetAnalysis(t: Table, id: string): Lookup {
    if id !in t.rows then NotFound404
    else
      var r := t.rows[id];
      Found(AnalysisView(r.id, StatusValue(r.status), r.filename, r.query, r.result, r.error,
                         r.createdAt, r.completedAt))
  }

  /** An unknown id is a 404; a known one is reported field for field, its status as the
      value that names it back. */
  lemma GetAnalysisFacts(t: Table, clock: nat, id: string)
    requires TableValid(t, clock)
    ensures GetAnalysis(t, id).NotFound404? <==> id !in t.rows
    ensures id in t.rows ==>
              var v := GetAnalysis(t, id).view;
              var r := t.rows[id];
              && v.analysisId == id
              && ParseStatus(v.status) == Some(r.status)
              && v.filename == r.filename && v.query == r.query
              && v.result == r.result && v.error == r.error
              && v.createdAt == r.createdAt && v.completedAt == r.completedAt
  {
    if id in t.rows {
      assert RowValid(t.rows[id], id, clock);
      StatusValueRoundTrip(t.rows[id].status, "");
    }
  }

  /** One element of `GET /analyses` (main.py:273-280). */
  datatype Summary = Summary(
    analysisId: string, status: string, filename: string, query: string,
    createdAt: nat, completedAt: Option<nat>)

  function Summarize(r: Record): Summary {
    Summary(r.id, StatusValue(r.status), r.filename, r.query, r.createdAt, r.completedAt)
  }

  function Reverse<T>(s: seq<T>): (r: seq<T>)
    ensures |r| == |s|
    ensures forall k :: 0 <= k < |s| ==> r[k] == s[|s| - 1 - k]
    decreases |s|
  {
    if s == [] then [] else [s[|s| - 1]] + Reverse(s[..|s| - 1])
  }

  /** `.offset(skip).limit(limit)`: the elements from position `skip` on, in order, and at
      most `limit` of them; nothing when `skip` is at or past the end. */
  function Window<T>(s: seq<T>, skip: nat, limit: nat): (r: seq<T>)
    ensures |r| == (if skip >= |s| then 0 else if |s| - skip <= limit then |s| - skip else limit)
    ensures forall k :: 0 <= k < |r| ==> r[k] == s[skip + k]
  {
    if skip <= |s| then Take(s[skip..], limit) else []
  }

  function Summaries(rows: map<string, Record>, keys: seq<string>): (r: seq<Summary>)
    requires forall k :: 0 <= k < |keys| ==> keys[k] in rows
    ensures |r| == |keys|
    ensures forall i :: 0 <= i < |keys| ==> r[i] == Summarize(rows[keys[i]])
    decreases |keys|
  {
    if keys == [] then [] else [Summarize(rows[keys[0]])] + Summaries(rows, keys[1..])
  }

  /** list_analyses (main.py:260-282): the rows newest first, `skip` of them left out, at
      most `limit` of them kept. Creation times are distinct, so newest first is the
      insertion order reversed. */
  function ListAnalyses(t: Table, skip: nat, limit: nat): seq<Summary>
    requires KeysListed(t)
  {
    Summaries(t.rows, Window(Reverse(t.order), skip, limit))
  }

  /** The listing holds `min(limit, max(0, n - skip))` rows; its k-th element is the
      (skip + k)-th newest row; creation times strictly decrease along it. */
  lemma ListAnalysesFacts(t: Table, clock: nat, skip: nat, limit: nat)
    requires TableValid(t, clock)
    ensures var r := ListAnalyses(t, skip, limit);
            var n := |t.order|;
            && |r| == (if skip >= n then 0 else if n - skip <= limit then n - skip else limit)
            && (forall k :: 0 <= k < |r| ==> r[k] == Summarize(t.rows[t.order[n - 1 - skip - k]]))
            && (forall i, j :: 0 <= i < j < |r| ==> r[i].createdAt > r[j].createdAt)
  {
    ListedRows(t, skip, limit);
    ListedNewestFirst(t, skip, limit);
  }

  lemma ListedRows(t: Table, skip: nat, limit: nat)
    requires KeysListed(t)
    ensures var r := ListAnalyses(t, skip, limit);
            var n := |t.order|;
            && |r| == (if skip >= n then 0 else if n - skip <= limit then n - skip else limit)
            && (forall k :: 0 <= k < |r| ==> r[k] == Summarize(t.rows[t.order[n - 1 - skip - k]]))
  {
    WindowOfNewest(t.order, skip, limit);
  }

  lemma ListedNewestFirst(t: Table, skip: nat, limit: nat)
    requires KeysListed(t) && CreationOrdered(t)
    ensures var r := ListAnalyses(t, skip, limit);
            forall i, j :: 0 <= i < j < |r| ==> r[i].createdAt > r[j].createdAt
  {
    var w := Window(Reverse(t.order), skip, limit);
    WindowOfNewest(t.order, skip, limit);
    KeysNewestFirst(t, w, skip);
  }

  /** Keys read off the insertion order backwards from position n - 1 - skip have strictly
      decreasing creation times. */
  lemma KeysNewestFirst(t: Table, keys: seq<string>, skip: nat)
    requires KeysListed(t) && CreationOrdered(t)
    requires keys != [] ==> skip + |keys| <= |t.order|
    requires forall k :: 0 <= k < |keys| ==> keys[k] == t.order[|t.order| - 1 - skip - k]
    ensures forall i, j :: 0 <= i < j < |keys| ==> t.rows[keys[i]].createdAt > t.rows[keys[j]].createdAt
  {
    var n := |t.order|;
    forall i, j | 0 <= i < j < |keys| ensures t.rows[keys[i]].createdAt > t.rows[keys[j]].createdAt {
      var a := n - 1 - skip - j;
      var b := n - 1 - skip - i;
      assert keys[i] == t.order[b] && keys[j] == t.order[a];
    }
  }

  /** The window over the newest-first order, position by position. */
  lemma WindowOfNewest(order: seq<string>, skip: nat, limit: nat)
    ensures var w := Window(Reverse(order), skip, limit);
            var n := |order|;
            && |w| == (if skip >= n then 0 else if n - skip <= limit then n - skip else limit)
            && (w != [] ==> skip + |w| <= n)
            && (forall k :: 0 <= k < |w| ==> w[k] == order[n - 1 - skip - k])
  {
    var n := |order|;
    var w := Window(Reverse(order), skip, limit);
    if skip <= n {
      forall k | 0 <= k < |w| ensures w[k] == order[n - 1 - skip - k] {
        assert w[k] == Reverse(order)[skip..][k];
      }
    }
  }
}
