/**
  * The subtitle generator panel: a transcript (or a batch of transcripts) is sent
  * once per selected language, item by item and, within an item, language by
  * language; every call's subtitles or error is kept under its language; the
  * usage counter grows by the number of transcripts that got at least one language.
  * Results can be downloaded one by one, as SRT or converted to WebVTT, or exported
  * together as one text file.
  */
module SubtitleGenerator {
  import opened Text
  import opened BatchRunner
  import opened Storage
  import opened Selection
  import opened GeminiService

  const LANGUAGES: seq<string> := ["Spanish", "French", "German", "Japanese", "Mandarin", "Russian",
                                   "Portuguese", "Italian", "Korean", "Arabic", "Vietnamese"]

  /** A subtitle result per language: the SRT text, or `{ error: message }`. */
  type SubtitleResult = map<string, Outcome<string>>

  /** One transcript's results, `id` being its position in the batch. */
  datatype BatchResult = BatchResult(id: nat, results: SubtitleResult)

  /** What a rejected submission reports (the localised wording is not modelled). */
  datatype Notice = TranscriptRequired | LanguageRequired

  // ---------------------------------------------------------------------------
  // Language selection
  // ---------------------------------------------------------------------------

  /** The tab shown after the selection changed to `newLangs`: the current tab while it
      is still selected, otherwise the first selected language, or '' when none is. So
      the tab always names a selected language, unless nothing is selected. */
  function ActiveTabAfter(newLangs: seq<string>, activeTab: string): (r: string)
    ensures activeTab != "" && activeTab in newLangs ==> r == activeTab
    ensures r != "" ==> r in newLangs
    ensures newLangs == [] ==> r == ""
    ensures newLangs != [] && !(activeTab != "" && activeTab in newLangs) ==> r == newLangs[0]
  {
    if activeTab == "" || activeTab !in newLangs then
      (if |newLangs| > 0 then newLangs[0] else "")
    else activeTab
  }

  // ---------------------------------------------------------------------------
  // The run: items × languages
  // ---------------------------------------------------------------------------

  /** One item's calls, in language order. */
  function Row(item: string, langs: seq<string>): seq<(string, string)>
  {
    seq(|langs|, k requires 0 <= k < |langs| => (item, langs[k]))
  }

  /** Every (transcript, language) call of a run, item-major. */
  function Jobs(items: seq<string>, langs: seq<string>): seq<(string, string)>
    decreases |items|
  {
    if items == [] then [] else Jobs(items[..|items| - 1], langs) + Row(items[|items| - 1], langs)
  }

  /** The calls are item-major and language-minor: there are items × languages of them,
      and call number `i * |langs| + j` is transcript `i` in language `j`. */
  lemma {:induction false} JobsAreItemMajor(items: seq<string>, langs: seq<string>, i: nat, j: nat)
    requires i < |items| && j < |langs|
    ensures |Jobs(items, langs)| == |items| * |langs|
    ensures i * |langs| + j < |items| * |langs|
    ensures Jobs(items, langs)[i * |langs| + j] == (items[i], langs[j])
    decreases |items|
  {
    var m, n := |items|, |langs|;
    var init := items[..m - 1];
    JobsLength(items, langs);
    JobIndexBound(i, j, m, n);
    if i == m - 1 {
      JobsLength(init, langs);
      assert Jobs(items, langs)[i * n + j] == Row(items[m - 1], langs)[j];
    } else {
      JobsAreItemMajor(init, langs, i, j);
      assert Jobs(items, langs)[i * n + j] == Jobs(init, langs)[i * n + j];
    }
  }

  lemma {:induction false} JobsLength(items: seq<string>, langs: seq<string>)
    ensures |Jobs(items, langs)| == |items| * |langs|
    decreases |items|
  {
    if items != [] {
      var m := |items|;
      JobsLength(items[..m - 1], langs);
      assert (m - 1) * |langs| + |langs| == m * |langs|;
    }
  }

  lemma JobIndexBound(i: nat, j: nat, m: nat, n: nat)
    requires i < m && j < n
    ensures i * n + j < m * n
  {
    assert (i + 1) * n <= m * n by {
      MultiplyMonotone(i + 1, m, n);
    }
  }

  lemma MultiplyMonotone(a: nat, b: nat, n: nat)
    requires a <= b
    ensures a * n <= b * n
  {
    assert b * n == a * n + (b - a) * n;
  }

  /** The service call the panel makes for one transcript and one language. */
  function Subtitles(endpoint: string -> Outcome<string>): (string, string) -> Outcome<string> {
    (transcript, language) => GenerateSubtitles(transcript, language, endpoint)
  }

  /** Every call of a run is the service's `generateSubtitles`: it gives the endpoint's
      subtitles for that transcript and language, or an error naming the language. */
  lemma SubtitlesCallService(endpoint: string -> Outcome<string>, transcript: string, language: string)
    ensures Subtitles(endpoint)(transcript, language).Success? ==>
      Subtitles(endpoint)(transcript, language) == endpoint(SubtitlePrompt(transcript, language))
    ensures Subtitles(endpoint)(transcript, language).Failure? ==>
      Subtitles(endpoint)(transcript, language).message == SubtitlesFailed(language)
  {
  }

  /** The number of calls of a run, `totalJobs`. */
  function JobCount(items: seq<string>, langs: seq<string>): nat {
    |items| * |langs|
  }

  /** The results of one transcript: one entry per selected language. */
  function ResultsFor(item: string, langs: seq<string>, generate: (string, string) -> Outcome<string>): (r: SubtitleResult)
    ensures r.Keys == set l | l in langs
    ensures forall l :: l in langs ==> r[l] == generate(item, l)
  {
    map l | l in langs :: generate(item, l)
  }

  /** Every transcript's results, numbered from 0 in item order. */
  function BatchResults(items: seq<string>, langs: seq<string>, generate: (string, string) -> Outcome<string>): seq<BatchResult>
  {
    seq(|items|, i requires 0 <= i < |items| => BatchResult(i, ResultsFor(items[i], langs, generate)))
  }

  /** One language's call for a transcript succeeded. */
  predicate ItemSucceeded(item: string, langs: seq<string>, generate: (string, string) -> Outcome<string>) {
    exists k :: 0 <= k < |langs| && generate(item, langs[k]).Success?
  }

  /** The number of transcripts with at least one successful language. */
  function SuccessfulItems(items: seq<string>, langs: seq<string>, generate: (string, string) -> Outcome<string>): nat
    decreases |items|
  {
    if items == [] then 0
    else SuccessfulItems(items[..|items| - 1], langs, generate)
         + (if ItemSucceeded(items[|items| - 1], langs, generate) then 1 else 0)
  }

  /** The counter increment counts transcripts, not calls: at most one per transcript,
      and none exactly when every call of the run failed. */
  lemma {:induction false} SuccessfulItemsBounds(items: seq<string>, langs: seq<string>, generate: (string, string) -> Outcome<string>)
    ensures SuccessfulItems(items, langs, generate) <= |items|
    ensures SuccessfulItems(items, langs, generate) == 0 <==>
      forall i, k :: 0 <= i < |items| && 0 <= k < |langs| ==> generate(items[i], langs[k]).Failure?
    decreases |items|
  {
    if items != [] {
      var init := items[..|items| - 1];
      SuccessfulItemsBounds(init, langs, generate);
      assert forall i :: 0 <= i < |init| ==> init[i] == items[i];
    }
  }

  /** The progress values reported for the `count` calls after the first `from`. */
  function ProgressFrom(from: nat, count: nat, total: nat): seq<Progress> {
    seq(count, k requires 0 <= k < count => Progress(from + k + 1, total))
  }

  lemma ProgressTrailSplit(total: nat, from: nat, count: nat)
    requires from + count <= total
    ensures ProgressTrail(total)[..from + count] == ProgressTrail(total)[..from] + ProgressFrom(from, count, total)
  {
  }

  /** The inner loop for one transcript: one call per selected language, in order, each
      result kept under its language, progress reported after every call. */
  method RunLanguages(item: string, langs: seq<string>, generate: (string, string) -> Outcome<string>, from: nat, total: nat)
    returns (transcriptResult: SubtitleResult, batchSuccess: bool, calls: seq<(string, string)>, progress: seq<Progress>)
    ensures transcriptResult == ResultsFor(item, langs, generate)
    ensures batchSuccess == ItemSucceeded(item, langs, generate)
    ensures calls == Row(item, langs)
    ensures progress == ProgressFrom(from, |langs|, total)
  {
    transcriptResult, batchSuccess, calls, progress := map[], false, [], [];
    for j := 0 to |langs|
      invariant transcriptResult == ResultsFor(item, langs[..j], generate)
      invariant batchSuccess == ItemSucceeded(item, langs[..j], generate)
      invariant calls == Row(item, langs[..j])
      invariant progress == ProgressFrom(from, j, total)
    {
      var lang := langs[j];
      assert langs[..j + 1] == langs[..j] + [lang];
      calls := calls + [(item, lang)];
      var result := generate(item, lang);
      transcriptResult := transcriptResult[lang := result];
      if result.Success? {
        batchSuccess := true;
      }
      assert ItemSucceeded(item, langs[..j + 1], generate) == (ItemSucceeded(item, langs[..j], generate) || result.Success?) by {
        if result.Success? {
          assert langs[..j + 1][j] == lang;
        }
        if ItemSucceeded(item, langs[..j + 1], generate) && !result.Success? {
          var k :| 0 <= k < j + 1 && generate(item, langs[..j + 1][k]).Success?;
          assert langs[..j][k] == langs[..j + 1][k];
        }
      }
      progress := progress + [Progress(from + j + 1, total)];
    }
    assert langs[..|langs|] == langs;
  }

  /** `handleSubmit`'s nested loop: for each transcript, for each selected language, one
      call; each transcript gets one result keyed by language; progress is reported
      after every call, out of items × languages; the transcripts with a success are
      counted. */
  method RunSubtitles(items: seq<string>, langs: seq<string>, generate: (string, string) -> Outcome<string>)
    returns (results: seq<BatchResult>, calls: seq<(string, string)>, progress: seq<Progress>, successfulBatches: nat)
    ensures results == BatchResults(items, langs, generate)
    ensures calls == Jobs(items, langs)
    ensures progress == ProgressTrail(JobCount(items, langs))
    ensures successfulBatches == SuccessfulItems(items, langs, generate)
  {
    var total := JobCount(items, langs);
    results, calls, progress, successfulBatches := [], [], [], 0;
    var jobsCompleted := 0;
    for i := 0 to |items|
      invariant |results| == i
      invariant forall k :: 0 <= k < i ==> results[k] == BatchResult(k, ResultsFor(items[k], langs, generate))
      invariant calls == Jobs(items[..i], langs)
      invariant jobsCompleted == i * |langs| <= total
      invariant progress == ProgressTrail(total)[..jobsCompleted]
      invariant successfulBatches == SuccessfulItems(items[..i], langs, generate)
    {
      JobsStep(items, langs, i);
      SuccessStep(items, langs, generate, i);
      NextRowBound(i, |items|, |langs|);
      ProgressTrailSplit(total, jobsCompleted, |langs|);
      var transcriptResult, batchSuccess, row, rowProgress := RunLanguages(items[i], langs, generate, jobsCompleted, total);
      calls := calls + row;
      progress := progress + rowProgress;
      jobsCompleted := jobsCompleted + |langs|;
      if batchSuccess {
        successfulBatches := successfulBatches + 1;
      }
      results := results + [BatchResult(i, transcriptResult)];
    }
    assert items[..|items|] == items;
  }

  lemma NextRowBound(i: nat, m: nat, n: nat)
    requires i < m
    ensures i * n + n == (i + 1) * n <= m * n
  {
    MultiplyMonotone(i + 1, m, n);
  }

  lemma JobsStep(items: seq<string>, langs: seq<string>, i: nat)
    requires i < |items|
    ensures Jobs(items[..i + 1], langs) == Jobs(items[..i], langs) + Row(items[i], langs)
  {
    assert items[..i + 1][..i] == items[..i];
  }

  lemma SuccessStep(items: seq<string>, langs: seq<string>, generate: (string, string) -> Outcome<string>, i: nat)
    requires i < |items|
    ensures SuccessfulItems(items[..i + 1], langs, generate)
            == SuccessfulItems(items[..i], langs, generate) + (if ItemSucceeded(items[i], langs, generate) then 1 else 0)
  {
    assert items[..i + 1][..i] == items[..i];
  }

  // ---------------------------------------------------------------------------
  // SRT to WebVTT
  // ---------------------------------------------------------------------------

  predicate IsDigit(c: char) {
    '0' <= c <= '9'
  }

  /** `s` holds a match of `\d{2}:\d{2}:\d{2},\d{3}` at index `i`. */
  predicate TimestampAt(s: string, i: int) {
    0 <= i && i + 12 <= |s|
    && IsDigit(s[i]) && IsDigit(s[i + 1]) && s[i + 2] == ':'
    && IsDigit(s[i + 3]) && IsDigit(s[i + 4]) && s[i + 5] == ':'
    && IsDigit(s[i + 6]) && IsDigit(s[i + 7]) && s[i + 8] == ','
    && IsDigit(s[i + 9]) && IsDigit(s[i + 10]) && IsDigit(s[i + 11])
  }

  /** `s.replace(/(\d{2}:\d{2}:\d{2}),(\d{3})/g, '$1.$2')`: the search runs left to right
      and resumes after each match, and each match keeps its digits and colons and
      gets '.' for its comma. */
  function ReplaceTimestampCommas(s: string): (r: string)
    ensures |r| == |s|
    decreases |s|
  {
    if TimestampAt(s, 0) then s[..8] + "." + s[9..12] + ReplaceTimestampCommas(s[12..])
    else if s == [] then []
    else [s[0]] + ReplaceTimestampCommas(s[1..])
  }

  const VTT_HEADER: string := "WEBVTT\n\n"

  /** The WebVTT download: the header line and a blank line, then the converted text. */
  function ToVtt(srt: string): (r: string)
    ensures |r| == |srt| + 8
    ensures r[..8] == VTT_HEADER
    ensures r[8..] == ReplaceTimestampCommas(srt)
  {
    VTT_HEADER + ReplaceTimestampCommas(srt)
  }

  lemma TimestampShift(s: string, d: nat, i: int)
    requires d <= |s|
    ensures TimestampAt(s[d..], i) <==> (i >= 0 && TimestampAt(s, i + d))
  {
    if i >= 0 && i + 12 <= |s| - d {
      assert forall m :: i <= m < i + 12 ==> s[d..][m] == s[m + d];
    }
  }

  /** The conversion only ever turns a comma into a full stop, and only the comma of a
      timestamp. */
  lemma {:induction false} OnlyTimestampCommasChange(s: string, k: nat)
    requires k < |s| && ReplaceTimestampCommas(s)[k] != s[k]
    ensures s[k] == ',' && ReplaceTimestampCommas(s)[k] == '.'
    ensures k >= 8 && TimestampAt(s, k - 8)
    decreases |s|
  {
    var r := ReplaceTimestampCommas(s);
    if TimestampAt(s, 0) {
      if k >= 12 {
        var tail := s[12..];
        assert r[k] == ReplaceTimestampCommas(tail)[k - 12];
        OnlyTimestampCommasChange(tail, k - 12);
        TimestampShift(s, 12, k - 20);
      } else {
        assert k == 8;
      }
    } else {
      var tail := s[1..];
      assert r[k] == ReplaceTimestampCommas(tail)[k - 1];
      OnlyTimestampCommasChange(tail, k - 1);
      TimestampShift(s, 1, k - 9);
    }
  }

  /** Two timestamps can overlap only when the second starts 10 or 11 characters after
      the first. */
  lemma TimestampsOverlapLate(s: string, i: nat, d: nat)
    requires 1 <= d <= 9 && TimestampAt(s, i)
    ensures !TimestampAt(s, i + d)
  {
  }

  /** Every timestamp the left-to-right search reaches has its comma converted; the
      search can only miss one that overlaps a match 10 or 11 characters before it. */
  lemma {:induction false} TimestampsConverted(s: string, i: nat)
    requires TimestampAt(s, i) && !TimestampAt(s, i - 10) && !TimestampAt(s, i - 11)
    ensures ReplaceTimestampCommas(s)[i + 8] == '.'
    decreases |s|
  {
    var r := ReplaceTimestampCommas(s);
    if TimestampAt(s, 0) {
      if i == 0 {
        assert r[8] == '.';
      } else if i < 12 {
        TimestampsOverlapLate(s, 0, i);
      } else {
        var tail := s[12..];
        TimestampShift(s, 12, i - 12);
        TimestampShift(s, 12, i - 22);
        TimestampShift(s, 12, i - 23);
        TimestampsConverted(tail, i - 12);
        assert r[i + 8] == ReplaceTimestampCommas(tail)[i - 4];
      }
    } else {
      var tail := s[1..];
      TimestampShift(s, 1, i - 1);
      TimestampShift(s, 1, i - 11);
      TimestampShift(s, 1, i - 12);
      TimestampsConverted(tail, i - 1);
      assert r[i + 8] == ReplaceTimestampCommas(tail)[i + 7];
    }
  }

  // ---------------------------------------------------------------------------
  // Downloads and export
  // ---------------------------------------------------------------------------

  datatype Format = Srt | Vtt
  datatype Download = Download(fileName: string, content: string)

  function Extension(format: Format): string {
    match format
    case Srt => "srt"
    case Vtt => "vtt"
  }

  /** `batchResults.find(item => item.id === id)`: the first result with that id. */
  function FindById(batchResults: seq<BatchResult>, id: nat): (r: Option<BatchResult>)
    ensures r.Some? <==> exists k :: 0 <= k < |batchResults| && batchResults[k].id == id
    ensures r.Some? ==> exists k :: 0 <= k < |batchResults| && batchResults[k] == r.value
                                    && r.value.id == id
                                    && forall j :: 0 <= j < k ==> batchResults[j].id != id
  {
    if batchResults == [] then None
    else if batchResults[0].id == id then
      assert batchResults[0] == batchResults[0];
      Some(batchResults[0])
    else
      var rest := FindById(batchResults[1..], id);
      assert forall k :: 1 <= k < |batchResults| ==> batchResults[k] == batchResults[1..][k - 1];
      rest
  }

  /** `handleDownloadSubtitle`: nothing for an unknown transcript, a language without a
      result, or a failed call; otherwise the subtitles, converted for WebVTT, under
      `transcript_<id + 1>_<language>.<format>`. */
  function DownloadSubtitle(batchResults: seq<BatchResult>, transcriptId: nat, language: string, format: Format): (r: Option<Download>)
    ensures r.Some? <==> (FindById(batchResults, transcriptId).Some?
                          && language in FindById(batchResults, transcriptId).value.results
                          && FindById(batchResults, transcriptId).value.results[language].Success?)
    ensures r.Some? ==>
      var srt := FindById(batchResults, transcriptId).value.results[language].value;
      && r.value.content == (if format == Srt then srt else ToVtt(srt))
      && r.value.fileName == "transcript_" + NatToString(transcriptId + 1) + "_" + language + "." + Extension(format)
  {
    match FindById(batchResults, transcriptId)
    case None => None
    case Some(item) =>
      if language !in item.results || item.results[language].Failure? then None
      else
        var srt := item.results[language].value;
        var content := if format == Vtt then ToVtt(srt) else srt;
        Some(Download("transcript_" + NatToString(transcriptId + 1) + "_" + language + "." + Extension(format), content))
  }

  const EXPORT_DIVIDER: string := "\n\n" + BATCH_SEPARATOR + "\n\n"

  /** One language's section of the export. */
  function Section(lang: string, result: Outcome<string>): string {
    "--- Language: " + lang + " ---\n" + (match result case Success(srt) => srt case Failure(m) => "Error: " + m)
  }

  function TranscriptHeader(index: nat): string {
    "--- TRANSCRIPT " + NatToString(index + 1) + " ---\n"
  }

  /** The export block of one transcript, as written: a language selected after the run
      has no result, and reading `.error` of the missing result throws, represented by
      None. */
  function BlockAsWritten(index: nat, item: BatchResult, langs: seq<string>): (r: Option<string>)
    ensures r.None? <==> exists k :: 0 <= k < |langs| && langs[k] !in item.results
  {
    if forall k :: 0 <= k < |langs| ==> langs[k] in item.results then
      Some(TranscriptHeader(index)
           + Join(seq(|langs|, k requires 0 <= k < |langs| && langs[k] in item.results =>
                    Section(langs[k], item.results[langs[k]])), "\n\n"))
    else None
  }

  /** `handleExportAll`'s text as written; None when it throws. */
  function ExportTextAsWritten(batchResults: seq<BatchResult>, langs: seq<string>): (r: Option<string>)
    ensures r.None? <==> exists i, k :: 0 <= i < |batchResults| && 0 <= k < |langs| && langs[k] !in batchResults[i].results
  {
    if forall i :: 0 <= i < |batchResults| ==> BlockAsWritten(i, batchResults[i], langs).Some? then
      Some(Join(seq(|batchResults|, i requires 0 <= i < |batchResults| && BlockAsWritten(i, batchResults[i], langs).Some? =>
                  BlockAsWritten(i, batchResults[i], langs).value), EXPORT_DIVIDER))
    else
      var i :| 0 <= i < |batchResults| && BlockAsWritten(i, batchResults[i], langs).None?;
      None
  }

  /** A run for one language, then a second language selected, then Export all: the
      export throws instead of producing a file. */
  lemma ExportAfterNewLanguageThrows()
    ensures ExportTextAsWritten([BatchResult(0, map["Spanish" := Success("1")])], ["Spanish", "French"]).None?
  {
    var b := [BatchResult(0, map["Spanish" := Success("1")])];
    assert ["Spanish", "French"][1] !in b[0].results;
  }

  /** The languages of `langs` a transcript has a result for, in selection order. */
  function WithResult(item: BatchResult, langs: seq<string>): (r: seq<string>)
    ensures forall k :: 0 <= k < |r| ==> r[k] in item.results
  {
    FilterMembers(langs, HasResult(item));
    Filter(langs, HasResult(item))
  }

  function HasResult(item: BatchResult): string -> bool {
    l => l in item.results
  }

  /** The export block of one transcript, skipping the languages it has no result for. */
  function Block(index: nat, item: BatchResult, langs: seq<string>): string {
    var present := WithResult(item, langs);
    TranscriptHeader(index)
    + Join(seq(|present|, k requires 0 <= k < |present| => Section(present[k], item.results[present[k]])), "\n\n")
  }

  /** `handleExportAll`'s text, corrected to skip languages without a result. */
  function ExportText(batchResults: seq<BatchResult>, langs: seq<string>): string {
    Join(seq(|batchResults|, i requires 0 <= i < |batchResults| => Block(i, batchResults[i], langs)), EXPORT_DIVIDER)
  }

  /** `handleExportAll`: nothing without results, otherwise the export file's text. */
  function ExportAll(batchResults: seq<BatchResult>, langs: seq<string>): (r: Option<string>)
    ensures r.None? <==> batchResults == []
  {
    if batchResults == [] then None else Some(ExportText(batchResults, langs))
  }

  /** Whenever the export as written produces a file, the corrected one produces the
      same file. */
  lemma ExportAgreesWhenAllPresent(batchResults: seq<BatchResult>, langs: seq<string>)
    requires ExportTextAsWritten(batchResults, langs).Some?
    ensures ExportTextAsWritten(batchResults, langs) == Some(ExportText(batchResults, langs))
  {
    forall i | 0 <= i < |batchResults|
      ensures BlockAsWritten(i, batchResults[i], langs) == Some(Block(i, batchResults[i], langs))
    {
      var item := batchResults[i];
      assert BlockAsWritten(i, item, langs).Some?;
      assert forall k :: 0 <= k < |langs| ==> HasResult(item)(langs[k]);
      FilterKeepsAll(langs, HasResult(item));
      assert WithResult(item, langs) == langs;
      var written := seq(|langs|, k requires 0 <= k < |langs| && langs[k] in item.results =>
                       Section(langs[k], item.results[langs[k]]));
      assert written == seq(|langs|, k requires 0 <= k < |langs| => Section(langs[k], item.results[langs[k]]));
    }
    var asWritten := seq(|batchResults|, i requires 0 <= i < |batchResults| && BlockAsWritten(i, batchResults[i], langs).Some? =>
                       BlockAsWritten(i, batchResults[i], langs).value);
    assert asWritten == seq(|batchResults|, i requires 0 <= i < |batchResults| => Block(i, batchResults[i], langs));
  }

  /** The export accounts for every result: each transcript's block, which starts with
      the transcript's header and holds, for each language it has a result for, that
      language's subtitles or its error message. */
  lemma ExportHasEveryResult(batchResults: seq<BatchResult>, langs: seq<string>, i: nat, lang: string)
    requires i < |batchResults| && lang in langs && lang in batchResults[i].results
    ensures Contains(ExportText(batchResults, langs), Block(i, batchResults[i], langs))
    ensures TranscriptHeader(i) <= Block(i, batchResults[i], langs)
    ensures Contains(Block(i, batchResults[i], langs), Section(lang, batchResults[i].results[lang]))
    ensures Contains(ExportText(batchResults, langs), TranscriptHeader(i))
    ensures Contains(ExportText(batchResults, langs), Section(lang, batchResults[i].results[lang]))
  {
    var item := batchResults[i];
    var blocks := seq(|batchResults|, i requires 0 <= i < |batchResults| => Block(i, batchResults[i], langs));
    var present := WithResult(item, langs);
    var sections := seq(|present|, k requires 0 <= k < |present| => Section(present[k], item.results[present[k]]));
    var joined := Join(sections, "\n\n");
    JoinContainsEach(blocks, EXPORT_DIVIDER, i);
    assert blocks[i] == TranscriptHeader(i) + joined + "";
    OccursBetween("", TranscriptHeader(i), joined + "");
    assert "" + TranscriptHeader(i) + (joined + "") == blocks[i];
    ContainsTrans(ExportText(batchResults, langs), blocks[i], TranscriptHeader(i));
    var k0 :| 0 <= k0 < |langs| && langs[k0] == lang;
    FilterMembers(langs, HasResult(item));
    assert HasResult(item)(langs[k0]);
    var k :| 0 <= k < |present| && present[k] == lang;
    JoinContainsEach(sections, "\n\n", k);
    OccursBetween(TranscriptHeader(i), joined, "");
    ContainsTrans(blocks[i], joined, sections[k]);
    ContainsTrans(ExportText(batchResults, langs), blocks[i], sections[k]);
  }

  /** The blocks come in transcript order: the export starts with the first transcript's
      block, and block i follows the export of the transcripts before it and the divider. */
  lemma ExportInOrder(batchResults: seq<BatchResult>, langs: seq<string>, i: nat)
    requires i < |batchResults|
    ensures i == 0 ==> Block(0, batchResults[0], langs) <= ExportText(batchResults, langs)
    ensures i > 0 ==>
      ExportText(batchResults[..i], langs) + EXPORT_DIVIDER + Block(i, batchResults[i], langs)
      <= ExportText(batchResults, langs)
  {
    var blocks := seq(|batchResults|, i requires 0 <= i < |batchResults| => Block(i, batchResults[i], langs));
    if i == 0 {
      JoinStartsWithFirst(blocks, EXPORT_DIVIDER);
    } else {
      var front := batchResults[..i];
      assert blocks[..i] == seq(|front|, k requires 0 <= k < |front| => Block(k, front[k], langs));
      JoinPlacesEach(blocks, EXPORT_DIVIDER, i);
    }
  }

  // ---------------------------------------------------------------------------
  // The panel
  // ---------------------------------------------------------------------------

  class SubtitlePanel {
    var transcript: string
    var selectedLanguages: seq<string>
    var batchResults: seq<BatchResult>
    var isLoading: bool
    var error: Option<Notice>
    var isBatchMode: bool
    var activeTab: string

    constructor ()
      ensures transcript == "" && selectedLanguages == ["Spanish"] && batchResults == []
      ensures !isLoading && error == None && !isBatchMode && activeTab == "Spanish"
    {
      transcript := "";
      selectedLanguages := ["Spanish"];
      batchResults := [];
      isLoading := false;
      error := None;
      isBatchMode := false;
      activeTab := "Spanish";
    }

    /** `handleLanguageToggle`. */
    method ToggleLanguage(lang: string)
      modifies this
      ensures selectedLanguages == Toggle(old(selectedLanguages), lang)
      ensures activeTab == ActiveTabAfter(selectedLanguages, old(activeTab))
      ensures transcript == old(transcript) && batchResults == old(batchResults) && error == old(error)
      ensures isLoading == old(isLoading) && isBatchMode == old(isBatchMode)
    {
      var newLangs := Toggle(selectedLanguages, lang);
      selectedLanguages := newLangs;
      if activeTab == "" || activeTab !in newLangs {
        activeTab := if |newLangs| > 0 then newLangs[0] else "";
      }
    }

    /** `handleSubmit`. A blank transcript or an empty selection is reported and no call
        is made; otherwise the results of the run replace the old ones, the first
        selected language becomes the active tab, and the counter grows by the number of
        transcripts with at least one successful language. Returns the calls made and
        the progress values shown. `generate` is the service's subtitle call, which the
        application binds to its endpoint as `Subtitles(endpoint)`. */
    method Submit(generate: (string, string) -> Outcome<string>, store: LocalStorage)
      returns (calls: seq<(string, string)>, progress: seq<Progress>)
      modifies this`batchResults, this`error, this`isLoading, this`activeTab, store`counters
      ensures var work := old(Submission(transcript, isBatchMode));
        work.None? ==>
        && error == Some(TranscriptRequired) && calls == [] && progress == [] && isLoading == old(isLoading)
        && batchResults == old(batchResults) && activeTab == old(activeTab) && store.counters == old(store.counters)
      ensures var work := old(Submission(transcript, isBatchMode));
        work.Some? && |selectedLanguages| == 0 ==>
        && error == Some(LanguageRequired) && calls == [] && progress == [] && isLoading == old(isLoading)
        && batchResults == old(batchResults) && activeTab == old(activeTab) && store.counters == old(store.counters)
      ensures var work := old(Submission(transcript, isBatchMode));
        work.Some? && |selectedLanguages| > 0 ==>
          var items := work.value;
          && error == None && !isLoading
          && activeTab == selectedLanguages[0]
          && batchResults == BatchResults(items, selectedLanguages, generate)
          && calls == Jobs(items, selectedLanguages)
          && progress == ProgressTrail(JobCount(items, selectedLanguages))
          && store.counters == AddedJobs(old(store.counters), SUBTITLE_JOBS, SuccessfulItems(items, selectedLanguages, generate))
    {
      var work := Submission(transcript, isBatchMode);
      if work.None? {
        error := Some(TranscriptRequired);
        calls, progress := [], [];
      } else if |selectedLanguages| == 0 {
        error := Some(LanguageRequired);
        calls, progress := [], [];
      } else {
        calls, progress := RunAndRecord(generate, store, work.value);
      }
    }

    /** A submission that passed validation: the run, then the results and the counter. */
    method RunAndRecord(generate: (string, string) -> Outcome<string>, store: LocalStorage, items: seq<string>)
      returns (calls: seq<(string, string)>, progress: seq<Progress>)
      requires |selectedLanguages| > 0
      modifies this`batchResults, this`error, this`isLoading, this`activeTab, store`counters
      ensures error == None && !isLoading
      ensures activeTab == selectedLanguages[0]
      ensures batchResults == BatchResults(items, selectedLanguages, generate)
      ensures calls == Jobs(items, selectedLanguages)
      ensures progress == ProgressTrail(JobCount(items, selectedLanguages))
      ensures store.counters == AddedJobs(old(store.counters), SUBTITLE_JOBS, SuccessfulItems(items, selectedLanguages, generate))
    {
      error := None;
      activeTab := selectedLanguages[0];
      var results, successfulBatches;
      results, calls, progress, successfulBatches := RunSubtitles(items, selectedLanguages, generate);
      store.AddJobs(SUBTITLE_JOBS, successfulBatches);
      batchResults := results;
      isLoading := false;
    }
  }
}
