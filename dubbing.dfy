/**
  * The dubbing studio panel: a script (or a batch of scripts) is translated and
  * rewritten for voice-over, one service call per script, for the chosen target
  * language, tone and voice sample. Every script gets a result holding either its
  * dubbed text or its error; the usage counter grows by the number of successes.
  * The results can be exported as a text file or as CSV.
  */
module DubbingStudio {
  import opened Text
  import opened BatchRunner
  import opened Storage
  import opened GeminiService

  const LANGUAGES: seq<string> := ["Auto-detect", "Spanish", "French", "German", "Japanese", "Mandarin",
                                   "Russian", "Vietnamese", "Korean", "Arabic"]
  const TONES: seq<string> := ["Default", "Professional", "Casual", "Excited", "Documentary", "Cinematic",
                               "Mysterious", "Humorous", "Authoritative", "Inspirational", "Friendly"]
  const CLONED_VOICES: seq<string> := ["Sample Voice A", "Sample Voice B", "Narrator Luke"]

  /** One script's result: `dubbedScript` or `error`, the other one null. */
  datatype DubbingResult = DubbingResult(source: string, dubbedScript: Option<string>, error: Option<string>)

  /** What a rejected submission reports (the localised wording is not modelled). */
  datatype Notice = ScriptRequired

  /** The generation call for one script, with the panel's language, tone and voice sample. */
  type Dubber = (string, string, string, string) -> Outcome<string>

  /** The service call the panel makes. */
  function Dubbing(endpoint: string -> Outcome<string>): Dubber {
    (script, targetLanguage, tone, voiceSampleName) =>
      GenerateDubbingScript(script, targetLanguage, tone, voiceSampleName, endpoint)
  }

  /** Every call of a run is the service's `generateDubbingScript`: the endpoint's text
      for the dubbing prompt of that script and those settings, or the fixed message. */
  lemma DubbingCallsService(endpoint: string -> Outcome<string>, script: string, targetLanguage: string,
                            tone: string, voiceSampleName: string)
    ensures Dubbing(endpoint)(script, targetLanguage, tone, voiceSampleName).Success? ==>
      Dubbing(endpoint)(script, targetLanguage, tone, voiceSampleName)
      == endpoint(DubbingPrompt(script, targetLanguage, tone, voiceSampleName))
    ensures Dubbing(endpoint)(script, targetLanguage, tone, voiceSampleName).Failure? ==>
      Dubbing(endpoint)(script, targetLanguage, tone, voiceSampleName).message == DUBBING_FAILED
  {
  }

  /** The per-script call with the settings fixed. */
  function WithSettings(dub: Dubber, targetLanguage: string, tone: string, voiceSampleName: string): string -> Outcome<string> {
    script => dub(script, targetLanguage, tone, voiceSampleName)
  }

  /** The record pushed for a call: exactly one of `dubbedScript` and `error` is set,
      holding the call's text or its message. */
  function ToDubbingResult(source: string, outcome: Outcome<string>): (r: DubbingResult)
    ensures r.source == source
    ensures r.dubbedScript.Some? != r.error.Some?
    ensures r.dubbedScript.Some? <==> outcome.Success?
    ensures outcome.Success? ==> r.dubbedScript.value == outcome.value
    ensures outcome.Failure? ==> r.error.value == outcome.message
  {
    match outcome
    case Success(text) => DubbingResult(source, Some(text), None)
    case Failure(message) => DubbingResult(source, None, Some(message))
  }

  function ToDubbingResults(items: seq<string>, outcomes: seq<Outcome<string>>): seq<DubbingResult>
    requires |outcomes| == |items|
  {
    seq(|items|, k requires 0 <= k < |items| => ToDubbingResult(items[k], outcomes[k]))
  }

  /** The counter's increment is the number of results that carry a dubbed script. */
  lemma {:induction false} SuccessesAreDubbedResults(items: seq<string>, outcomes: seq<Outcome<string>>)
    requires |outcomes| == |items|
    ensures SuccessCount(outcomes) == DubbedCount(ToDubbingResults(items, outcomes))
    decreases |items|
  {
    if items != [] {
      var n := |items|;
      SuccessesAreDubbedResults(items[..n - 1], outcomes[..n - 1]);
      var rs := ToDubbingResults(items, outcomes);
      assert rs[..n - 1] == ToDubbingResults(items[..n - 1], outcomes[..n - 1]);
    }
  }

  function DubbedCount(rs: seq<DubbingResult>): nat
    decreases |rs|
  {
    if rs == [] then 0 else DubbedCount(rs[..|rs| - 1]) + (if rs[|rs| - 1].dubbedScript.Some? then 1 else 0)
  }

  // ---------------------------------------------------------------------------
  // Text export
  // ---------------------------------------------------------------------------

  /** `${res.dubbedScript}`: the text, or "null". */
  function Shown(s: Option<string>): string {
    match s
    case Some(text) => text
    case None => "null"
  }

  function TxtHeader(caption: string, i: nat): string {
    "--- " + ToUpper(caption) + " " + NatToString(i + 1) + " ---"
  }

  /** What follows a block's header: the error when the result has a non-empty one,
      and the dubbed script otherwise. */
  function TxtBody(res: DubbingResult): string {
    if Truthy(res.error) then "Error: " + res.error.value else Shown(res.dubbedScript)
  }

  /** One result's block: the header line, then the body. */
  function TxtBlock(caption: string, i: nat, res: DubbingResult): string {
    TxtHeader(caption, i) + "\n" + TxtBody(res)
  }

  /** `formatResultsForTxt`, with `caption` the localised "result for script" text. */
  function FormatResultsForTxt(results: seq<DubbingResult>, caption: string): string {
    Join(seq(|results|, i requires 0 <= i < |results| => TxtBlock(caption, i, results[i])), BATCH_SEPARATOR)
  }

  /** The text export accounts for every result: its block, the numbered header followed
      by its error message when it failed with one, its dubbed script otherwise. */
  lemma TxtHasEveryResult(results: seq<DubbingResult>, caption: string, i: nat)
    requires i < |results|
    ensures Contains(FormatResultsForTxt(results, caption), TxtBlock(caption, i, results[i]))
    ensures Contains(FormatResultsForTxt(results, caption), TxtHeader(caption, i))
    ensures Contains(FormatResultsForTxt(results, caption), TxtBody(results[i]))
    ensures Truthy(results[i].error) ==> TxtBody(results[i]) == "Error: " + results[i].error.value
    ensures !Truthy(results[i].error) ==> TxtBody(results[i]) == Shown(results[i].dubbedScript)
  {
    var blocks := seq(|results|, i requires 0 <= i < |results| => TxtBlock(caption, i, results[i]));
    JoinContainsEach(blocks, BATCH_SEPARATOR, i);
    BlockHasParts(TxtHeader(caption, i), TxtBody(results[i]));
    ContainsTrans(FormatResultsForTxt(results, caption), blocks[i], TxtHeader(caption, i));
    ContainsTrans(FormatResultsForTxt(results, caption), blocks[i], TxtBody(results[i]));
  }

  /** The blocks come in result order: the export starts with the first result's block,
      and block i follows the export of the results before it and the separator. */
  lemma TxtBlocksInOrder(results: seq<DubbingResult>, caption: string, i: nat)
    requires i < |results|
    ensures i == 0 ==> TxtBlock(caption, 0, results[0]) <= FormatResultsForTxt(results, caption)
    ensures i > 0 ==>
      FormatResultsForTxt(results[..i], caption) + BATCH_SEPARATOR + TxtBlock(caption, i, results[i])
      <= FormatResultsForTxt(results, caption)
  {
    var blocks := seq(|results|, i requires 0 <= i < |results| => TxtBlock(caption, i, results[i]));
    if i == 0 {
      JoinStartsWithFirst(blocks, BATCH_SEPARATOR);
    } else {
      var front := results[..i];
      assert blocks[..i] == seq(|front|, k requires 0 <= k < |front| => TxtBlock(caption, k, front[k]));
      JoinPlacesEach(blocks, BATCH_SEPARATOR, i);
    }
  }

  lemma BlockHasParts(header: string, body: string)
    ensures Contains(header + "\n" + body, header) && Contains(header + "\n" + body, body)
  {
    OccursBetween("", header, "\n" + body);
    assert "" + header + ("\n" + body) == header + "\n" + body;
    OccursBetween(header + "\n", body, "");
    assert header + "\n" + body + "" == header + "\n" + body;
  }

  /** A call that failed with an empty message is not shown as an error: its block
      prints the missing script as "null". */
  lemma EmptyErrorShowsNull(caption: string)
    ensures FormatResultsForTxt([DubbingResult("s", None, Some(""))], caption) == TxtHeader(caption, 0) + "\nnull"
  {
  }

  /** The text download's name. */
  function TxtFileName(isBatchMode: bool, language: string): string {
    if isBatchMode then "batch_dubbing_scripts.txt" else language + "_dubbing_script.txt"
  }

  /** `handleExport`: nothing without results, otherwise the text file. */
  function ExportTxt(results: seq<DubbingResult>, caption: string, isBatchMode: bool, language: string): (r: Option<(string, string)>)
    ensures r.None? <==> results == []
    ensures r.Some? ==> r.value.1 == FormatResultsForTxt(results, caption)
  {
    if results == [] then None else Some((TxtFileName(isBatchMode, language), FormatResultsForTxt(results, caption)))
  }

  // ---------------------------------------------------------------------------
  // CSV export (section 2 of RFC 4180)
  // ---------------------------------------------------------------------------

  /** Every double quote written twice. */
  function DoubleQuotes(s: string): (r: string)
    decreases |s|
  {
    if s == [] then []
    else if s[0] == '"' then "\"\"" + DoubleQuotes(s[1..])
    else [s[0]] + DoubleQuotes(s[1..])
  }

  function QuoteCount(s: string): nat
    decreases |s|
  {
    if s == [] then 0 else (if s[0] == '"' then 1 else 0) + QuoteCount(s[1..])
  }

  /** Doubling adds one character per quote and keeps every other character. */
  lemma {:induction false} DoubleQuotesLength(s: string)
    ensures |DoubleQuotes(s)| == |s| + QuoteCount(s)
    decreases |s|
  {
    if s != [] {
      DoubleQuotesLength(s[1..]);
    }
  }

  /** `escapeCSV`: null becomes an empty quoted field; any other value is enclosed in
      double quotes with its own double quotes doubled (section 2, rule 7 of RFC 4180). */
  function EscapeCsv(s: Option<string>): (r: string)
    ensures |r| >= 2 && r[0] == '"' && r[|r| - 1] == '"'
  {
    match s
    case None => "\"\""
    case Some(text) => "\"" + DoubleQuotes(text) + "\""
  }

  /** Reading a quoted field's content up to its closing quote: `""` stands for one
      quote, a lone quote closes the field and must be its last character. */
  function ReadQuoted(t: string): Option<string>
    decreases |t|
  {
    if t == [] then None
    else if t[0] == '"' then
      if |t| == 1 then Some("")
      else if t[1] == '"' then
        match ReadQuoted(t[2..]) case Some(rest) => Some("\"" + rest) case None => None
      else None
    else
      match ReadQuoted(t[1..]) case Some(rest) => Some([t[0]] + rest) case None => None
  }

  /** A reader of one escaped field of RFC 4180: `DQUOTE *(TEXTDATA / 2DQUOTE) DQUOTE`. */
  function ParseEscapedField(f: string): Option<string> {
    if |f| >= 1 && f[0] == '"' then ReadQuoted(f[1..]) else None
  }

  lemma {:induction false} ReadDoubledQuotes(s: string)
    ensures ReadQuoted(DoubleQuotes(s) + "\"") == Some(s)
    decreases |s|
  {
    if s == [] {
      assert DoubleQuotes(s) + "\"" == "\"";
    } else {
      ReadDoubledQuotes(s[1..]);
      var rest := DoubleQuotes(s[1..]) + "\"";
      if s[0] == '"' {
        var t := "\"\"" + rest;
        assert DoubleQuotes(s) + "\"" == t;
        assert t[2..] == rest;
        assert "\"" + s[1..] == s;
      } else {
        var t := [s[0]] + rest;
        assert DoubleQuotes(s) + "\"" == t;
        assert t[1..] == rest;
        assert [s[0]] + s[1..] == s;
      }
    }
  }

  /** Reading an escaped value back gives the value: the escaping is lossless for every
      string, quotes, commas and line breaks included. */
  lemma EscapeRoundTrip(s: string)
    ensures ParseEscapedField(EscapeCsv(Some(s))) == Some(s)
  {
    ReadDoubledQuotes(s);
    assert EscapeCsv(Some(s))[1..] == DoubleQuotes(s) + "\"";
  }

  /** Null and the empty string are escaped alike, so the CSV cannot tell them apart. */
  lemma NullLooksEmpty()
    ensures EscapeCsv(None) == EscapeCsv(Some(""))
  {
  }

  /** A quoted value: `"x"` is written `"""x"""`. */
  lemma EscapeExample()
    ensures EscapeCsv(Some("\"x\"")) == "\"\"\"x\"\"\""
  {
    assert DoubleQuotes("\"") == "\"\"";
    assert DoubleQuotes("x\"") == "x\"\"";
    assert DoubleQuotes("\"x\"") == "\"\"x\"\"";
  }

  const CSV_HEADER: string := "\"Script Number\",\"Source Script\",\"Dubbed Script\",\"Error\""

  /** A result's row: its number, then its three escaped fields. */
  function CsvRow(i: nat, res: DubbingResult): string {
    NatToString(i + 1) + "," + EscapeCsv(Some(res.source)) + "," + EscapeCsv(res.dubbedScript) + "," + EscapeCsv(res.error)
  }

  function CsvRows(results: seq<DubbingResult>): seq<string> {
    seq(|results|, i requires 0 <= i < |results| => CsvRow(i, results[i]))
  }

  /** The CSV text: the header line, then one row per result, separated by line feeds. */
  function Csv(results: seq<DubbingResult>): string {
    Join([CSV_HEADER] + CsvRows(results), "\n")
  }

  /** `handleExportCSV`: nothing without results, otherwise the CSV text. */
  function ExportCsv(results: seq<DubbingResult>): (r: Option<string>)
    ensures r.None? <==> results == []
    ensures r.Some? ==> r.value == Csv(results)
  {
    if results == [] then None else Some(Csv(results))
  }

  predicate NoLineFeed(s: string) {
    forall k :: 0 <= k < |s| ==> s[k] != '\n'
  }

  lemma NoLineFeedNotContained(s: string)
    requires NoLineFeed(s)
    ensures !Contains(s, "\n")
  {
    forall i | 0 <= i < |s| ensures !OccursAt(s, "\n", i) {
      assert s[i..i + 1][0] == s[i];
    }
  }

  lemma {:induction false} DoubleQuotesNoLineFeed(s: string)
    requires NoLineFeed(s)
    ensures NoLineFeed(DoubleQuotes(s))
    decreases |s|
  {
    if s != [] {
      DoubleQuotesNoLineFeed(s[1..]);
    }
  }

  lemma EscapeNoLineFeed(s: Option<string>)
    requires s.Some? ==> NoLineFeed(s.value)
    ensures NoLineFeed(EscapeCsv(s))
  {
    if s.Some? {
      DoubleQuotesNoLineFeed(s.value);
    }
  }

  /** The CSV is the header line followed by the rows; when no source, script or error
      holds a line break, the text after the header splits at line feeds into exactly
      one row per result, in order. (A line break inside a value stays inside its
      quoted field, as RFC 4180 allows, and then spans lines.) */
  lemma CsvLines(results: seq<DubbingResult>)
    requires results != []
    requires forall i :: 0 <= i < |results| ==>
      && NoLineFeed(results[i].source)
      && (results[i].dubbedScript.Some? ==> NoLineFeed(results[i].dubbedScript.value))
      && (results[i].error.Some? ==> NoLineFeed(results[i].error.value))
    ensures Csv(results) == CSV_HEADER + "\n" + Join(CsvRows(results), "\n")
    ensures Split(Join(CsvRows(results), "\n"), "\n") == CsvRows(results)
  {
    var rows := CsvRows(results);
    JoinCons(CSV_HEADER, rows, "\n");
    assert ([CSV_HEADER] + rows)[1..] == rows;
    forall k | 0 <= k < |rows| ensures !Contains(rows[k], "\n") {
      var res := results[k];
      EscapeNoLineFeed(Some(res.source));
      EscapeNoLineFeed(res.dubbedScript);
      EscapeNoLineFeed(res.error);
      assert NoLineFeed(NatToString(k + 1));
      RowNoLineFeed(NatToString(k + 1), EscapeCsv(Some(res.source)), EscapeCsv(res.dubbedScript), EscapeCsv(res.error));
      NoLineFeedNotContained(rows[k]);
    }
    SplitJoin(rows, "\n");
  }

  lemma RowNoLineFeed(a: string, b: string, c: string, d: string)
    requires NoLineFeed(a) && NoLineFeed(b) && NoLineFeed(c) && NoLineFeed(d)
    ensures NoLineFeed(a + "," + b + "," + c + "," + d)
  {
  }

  /** Row `i` starts with the result's number `i + 1`, unquoted, and a comma; the three
      quoted fields follow. */
  lemma CsvRowNumbered(results: seq<DubbingResult>, i: nat)
    requires i < |results|
    ensures NatToString(i + 1) + "," <= CsvRows(results)[i]
    ensures |CsvRows(results)[i]| >= |NatToString(i + 1)| + 7
  {
    var res := results[i];
    assert CsvRows(results)[i] == CsvRow(i, res);
    RowStartsWith(NatToString(i + 1), EscapeCsv(Some(res.source)), EscapeCsv(res.dubbedScript), EscapeCsv(res.error));
  }

  lemma RowStartsWith(n: string, a: string, b: string, c: string)
    requires |a| >= 2 && |b| >= 2 && |c| >= 2
    ensures n + "," <= n + "," + a + "," + b + "," + c
    ensures |n + "," + a + "," + b + "," + c| >= |n| + 7
  {
    var row := n + "," + a + "," + b + "," + c;
    assert row[..|n| + 1] == n + ",";
  }

  // ---------------------------------------------------------------------------
  // The panel
  // ---------------------------------------------------------------------------

  class DubbingPanel {
    var script: string
    var language: string
    var tone: string
    var results: seq<DubbingResult>
    var isLoading: bool
    var error: Option<Notice>
    var isBatchMode: bool
    var voiceSampleName: string

    constructor ()
      ensures script == "" && language == "Spanish" && tone == "Default" && results == []
      ensures !isLoading && error == None && !isBatchMode && voiceSampleName == ""
    {
      script := "";
      language := "Spanish";
      tone := "Default";
      results := [];
      isLoading := false;
      error := None;
      isBatchMode := false;
      voiceSampleName := "";
    }

    /** `handleSubmit`. A blank script is reported and no call is made; otherwise every
        work item is dubbed in order with the panel's language, tone and voice sample,
        the results replace the old ones, and the counter grows by the number of
        successes. Returns the calls made and the progress values shown. `dub` is the
        service's dubbing call, which the application binds as `Dubbing(endpoint)`. */
    method Submit(dub: Dubber, store: LocalStorage) returns (calls: seq<string>, progress: seq<Progress>)
      modifies this`results, this`error, this`isLoading, store`counters
      ensures var work := old(Submission(script, isBatchMode));
        work.None? ==>
          && error == Some(ScriptRequired) && calls == [] && progress == [] && isLoading == old(isLoading)
          && results == old(results) && store.counters == old(store.counters)
      ensures var work := old(Submission(script, isBatchMode));
        work.Some? ==>
          var outcomes := Outcomes(work.value, WithSettings(dub, language, tone, voiceSampleName));
          && error == None && !isLoading
          && calls == work.value
          && results == ToDubbingResults(work.value, outcomes)
          && progress == ProgressTrail(|work.value|)
          && store.counters == AddedJobs(old(store.counters), DUBBING_JOBS, SuccessCount(outcomes))
    {
      var work := Submission(script, isBatchMode);
      if work.None? {
        error := Some(ScriptRequired);
        calls, progress := [], [];
      } else {
        calls, progress := RunAndRecord(dub, store, work.value);
      }
    }

    /** A submission that passed validation: the run, then the results and the counter. */
    method RunAndRecord(dub: Dubber, store: LocalStorage, items: seq<string>) returns (calls: seq<string>, progress: seq<Progress>)
      modifies this`results, this`error, this`isLoading, store`counters
      ensures !isLoading
      ensures var outcomes := Outcomes(items, WithSettings(dub, language, tone, voiceSampleName));
        && error == None
        && calls == items
        && results == ToDubbingResults(items, outcomes)
        && progress == ProgressTrail(|items|)
        && store.counters == AddedJobs(old(store.counters), DUBBING_JOBS, SuccessCount(outcomes))
    {
      isLoading := true;
      error := None;
      results := [];
      var outcomes, successfulJobs;
      outcomes, calls, progress, successfulJobs := Run(items, WithSettings(dub, language, tone, voiceSampleName));
      store.AddJobs(DUBBING_JOBS, successfulJobs);
      results := ToDubbingResults(items, outcomes);
      isLoading := false;
    }
  }
}
