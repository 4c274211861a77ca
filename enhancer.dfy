/**
  * The audio enhancer panel: file names (one per line) are analysed against the
  * selected preset, one service call per file, and every file gets a report or an
  * error; the usage counter grows by the number of reports. Besides the four
  * default presets the user keeps a list of custom presets, stored in local
  * storage, whose names are unique ignoring case. In real-time mode only the first
  * file is analysed, when processing is stopped. The reports export as Markdown or
  * plain text.
  */
module AudioEnhancer {
  import opened Text
  import opened BatchRunner
  import opened Storage
  import opened GeminiService
  import opened Markup

  const DEFAULT_PRESETS: seq<string> := ["Podcast", "Outdoor Interview", "Meeting Room Recording", "Vocal Recording"]
  /** The preset selected at first and after deleting a custom one. */
  const DEFAULT_PRESET: string := "Podcast"

  /** What a rejected action reports (the localised wording is not modelled). */
  datatype Notice = PresetNameEmpty | PresetExists(name: string) | PresetSaveFailed | PresetDeleteFailed
                | NoFiles | MultipleFiles

  // ---------------------------------------------------------------------------
  // Custom presets
  // ---------------------------------------------------------------------------

  /** `names.map(p => p.toLowerCase())`. */
  function Lowered(names: seq<string>): (r: seq<string>)
    ensures |r| == |names|
    ensures forall k :: 0 <= k < |names| ==> r[k] == ToLower(names[k])
  {
    seq(|names|, k requires 0 <= k < |names| => ToLower(names[k]))
  }

  /** A name is taken when a default or a custom preset matches it ignoring case. */
  predicate Taken(customs: seq<string>, name: string) {
    ToLower(name) in Lowered(DEFAULT_PRESETS + customs)
  }

  /** The custom lists saving can build: trimmed, non-empty names, no two of them equal
      ignoring case, and none equal ignoring case to a default. */
  predicate WellFormedPresets(customs: seq<string>) {
    && (forall k :: 0 <= k < |customs| ==> TrimmedNonEmpty(customs[k]))
    && (forall j, k :: 0 <= j < k < |customs| ==> ToLower(customs[j]) != ToLower(customs[k]))
    && (forall k, d :: 0 <= k < |customs| && 0 <= d < |DEFAULT_PRESETS| ==>
          ToLower(customs[k]) != ToLower(DEFAULT_PRESETS[d]))
  }

  /** What a save leads to: the new list and the preset to select, or the rejection. */
  datatype SaveOutcome = Saved(presets: seq<string>, selected: string) | Rejected(notice: Notice)

  /** `handleSavePreset` on the custom list and the typed name. */
  function PresetsAfterSave(customs: seq<string>, input: string): SaveOutcome {
    var name := Trim(input);
    if name == "" then Rejected(PresetNameEmpty)
    else if Taken(customs, name) then Rejected(PresetExists(name))
    else Saved(customs + [name], name)
  }

  /** A save is rejected exactly when the trimmed name is empty or taken; an accepted
      save appends the trimmed name at the end and selects it. */
  lemma SaveAcceptsExactlyFreshNames(customs: seq<string>, input: string)
    ensures PresetsAfterSave(customs, input).Rejected? <==> IsBlank(input) || Taken(customs, Trim(input))
    ensures IsBlank(input) ==> PresetsAfterSave(customs, input) == Rejected(PresetNameEmpty)
    ensures PresetsAfterSave(customs, input).Saved? ==>
      && PresetsAfterSave(customs, input).presets == customs + [Trim(input)]
      && PresetsAfterSave(customs, input).selected == Trim(input)
  {
  }

  /** Appending a trimmed, non-empty name that is not taken keeps the list well formed. */
  lemma FreshNameKeepsPresetsWellFormed(customs: seq<string>, name: string)
    requires WellFormedPresets(customs) && TrimmedNonEmpty(name) && !Taken(customs, name)
    ensures WellFormedPresets(customs + [name])
  {
    var all := Lowered(DEFAULT_PRESETS + customs);
    forall k | 0 <= k < |customs| ensures ToLower(customs[k]) != ToLower(name) {
      assert all[|DEFAULT_PRESETS| + k] == ToLower(customs[k]);
    }
    forall d | 0 <= d < |DEFAULT_PRESETS| ensures ToLower(name) != ToLower(DEFAULT_PRESETS[d]) {
      assert all[d] == ToLower(DEFAULT_PRESETS[d]);
    }
    var list := customs + [name];
    assert list[|customs|] == name;
    assert forall k :: 0 <= k < |customs| ==> list[k] == customs[k];
  }

  /** Saving keeps the list well formed: the new name differs, ignoring case, from every
      default and every custom preset, and it is trimmed and not empty; and the preset
      it selects is one the picker offers. */
  lemma SaveKeepsPresetsWellFormed(customs: seq<string>, input: string)
    requires WellFormedPresets(customs)
    ensures var outcome := PresetsAfterSave(customs, input);
      outcome.Saved? ==> WellFormedPresets(outcome.presets) && outcome.selected in DEFAULT_PRESETS + outcome.presets
  {
    var outcome := PresetsAfterSave(customs, input);
    if outcome.Saved? {
      TrimmedNonEmptyIsTrim(input);
      FreshNameKeepsPresetsWellFormed(customs, Trim(input));
      assert (DEFAULT_PRESETS + outcome.presets)[|DEFAULT_PRESETS| + |customs|] == outcome.selected;
    }
  }

  /** Saving the same name again straight after a save is rejected as a duplicate. */
  lemma SaveTwiceRejected(customs: seq<string>, input: string)
    requires PresetsAfterSave(customs, input).Saved?
    ensures PresetsAfterSave(PresetsAfterSave(customs, input).presets, input) == Rejected(PresetExists(Trim(input)))
  {
    var list := customs + [Trim(input)];
    assert DEFAULT_PRESETS + list == (DEFAULT_PRESETS + customs) + [Trim(input)];
    assert Lowered(DEFAULT_PRESETS + list)[|DEFAULT_PRESETS| + |customs|] == ToLower(Trim(input));
  }

  /** The check ignores case: a name whose lower case matches a default or a custom
      preset is rejected as a duplicate, named as typed (trimmed). */
  lemma SaveRejectsAnyCase(customs: seq<string>, input: string, k: nat)
    requires k < |DEFAULT_PRESETS + customs| && !IsBlank(input)
    requires ToLower(Trim(input)) == ToLower((DEFAULT_PRESETS + customs)[k])
    ensures PresetsAfterSave(customs, input) == Rejected(PresetExists(Trim(input)))
  {
    assert Lowered(DEFAULT_PRESETS + customs)[k] == ToLower(Trim(input));
  }

  /** `handleDeletePreset` on the custom list: nothing happens unless the selected preset
      is a custom one, which is then filtered out of the list. */
  function PresetsAfterDelete(customs: seq<string>, preset: string): (r: Option<seq<string>>)
    ensures r.None? <==> preset !in customs
    ensures r.Some? ==> preset !in r.value && forall p :: p != preset ==> (p in r.value <==> p in customs)
  {
    if preset in customs then
      FilterMembers(customs, Other(preset));
      Some(Filter(customs, Other(preset)))
    else None
  }

  /** A deleted custom preset is offered no more: it is not a default, and it is gone
      from the list. */
  lemma DeletedNotOffered(customs: seq<string>, preset: string)
    requires WellFormedPresets(customs) && preset in customs
    ensures preset !in DEFAULT_PRESETS + PresetsAfterDelete(customs, preset).value
  {
    var k :| 0 <= k < |customs| && customs[k] == preset;
    forall d | 0 <= d < |DEFAULT_PRESETS| ensures DEFAULT_PRESETS[d] != preset {
      assert ToLower(customs[k]) != ToLower(DEFAULT_PRESETS[d]);
    }
  }

  /** The filter's test `p => p !== preset`. */
  function Other(preset: string): string -> bool {
    p => p != preset
  }

  /** In a well-formed list, deleting a custom preset cuts exactly that entry out and
      keeps the others in order, and the list stays well formed. */
  lemma DeleteRemovesOnlyIt(customs: seq<string>, i: nat)
    requires WellFormedPresets(customs) && i < |customs|
    ensures PresetsAfterDelete(customs, customs[i]) == Some(customs[..i] + customs[i + 1..])
    ensures WellFormedPresets(customs[..i] + customs[i + 1..])
  {
    forall k | 0 <= k < |customs| ensures Other(customs[i])(customs[k]) <==> k != i {
      if k < i {
        assert ToLower(customs[k]) != ToLower(customs[i]);
      } else if k > i {
        assert ToLower(customs[i]) != ToLower(customs[k]);
      }
    }
    FilterOutUnique(customs, Other(customs[i]), i);
    var r := customs[..i] + customs[i + 1..];
    forall a | 0 <= a < |r| ensures r[a] == customs[if a < i then a else a + 1] {
    }
  }

  // ---------------------------------------------------------------------------
  // The run
  // ---------------------------------------------------------------------------

  predicate NonEmpty(s: string) {
    s != ""
  }

  /** `lines.map(f => f.trim())`. */
  function TrimmedLines(lines: seq<string>): seq<string> {
    seq(|lines|, k requires 0 <= k < |lines| => Trim(lines[k]))
  }

  /** `fileNames.split('\n').map(f => f.trim()).filter(f => f)`. */
  function FilesToProcess(fileNames: string): seq<string> {
    Filter(TrimmedLines(Split(fileNames, "\n")), NonEmpty)
  }

  /** Every file to process is a non-empty trimmed line of the input, and every line
      with something besides whitespace in it gives a file. */
  lemma FilesAreTrimmedLines(fileNames: string)
    ensures var files := FilesToProcess(fileNames);
      forall k :: 0 <= k < |files| ==> TrimmedNonEmpty(files[k]) && files[k] in TrimmedLines(Split(fileNames, "\n"))
    ensures forall line :: line in Split(fileNames, "\n") && !IsBlank(line) ==> Trim(line) in FilesToProcess(fileNames)
  {
    var lines := Split(fileNames, "\n");
    var trimmed := TrimmedLines(lines);
    var files := FilesToProcess(fileNames);
    FilterMembers(trimmed, NonEmpty);
    forall k | 0 <= k < |files| ensures TrimmedNonEmpty(files[k]) {
      var j :| 0 <= j < |trimmed| && trimmed[j] == files[k];
      TrimmedNonEmptyIsTrim(lines[j]);
    }
    forall line | line in lines && !IsBlank(line) ensures Trim(line) in files {
      var j :| 0 <= j < |lines| && lines[j] == line;
      assert NonEmpty(trimmed[j]);
    }
  }

  /** The check before a run: no file at all, or several files outside batch and
      real-time mode, is rejected. */
  function Rejection(files: seq<string>, isBatchMode: bool, isRealTime: bool): Option<Notice> {
    if files == [] then Some(NoFiles)
    else if !isBatchMode && |files| > 1 && !isRealTime then Some(MultipleFiles)
    else None
  }

  /** The files the run analyses: in real-time mode only the first one. */
  function FinalFiles(files: seq<string>, isRealTime: bool): seq<string>
    requires files != []
  {
    if isRealTime then [files[0]] else files
  }

  /** What a submission does: refuse with a notice, or analyse these files in order. */
  datatype Plan = Refuse(notice: Notice) | Analyse(run: seq<string>)

  /** The check and the choice of files `handleSubmit` makes before its loop. */
  function SubmitPlan(fileNames: string, isBatchMode: bool, isRealTime: bool): Plan {
    var files := FilesToProcess(fileNames);
    match Rejection(files, isBatchMode, isRealTime)
    case Some(notice) => Refuse(notice)
    case None => Analyse(FinalFiles(files, isRealTime))
  }

  /** No file refuses the submission, and so do several files outside batch and
      real-time mode; an accepted submission analyses at least one file, all of them
      files to process: exactly one outside batch mode and always in real-time mode,
      and all of them, in order, in batch mode outside real time. */
  lemma SubmitPlanChoosesFiles(fileNames: string, isBatchMode: bool, isRealTime: bool)
    ensures var files := FilesToProcess(fileNames);
      var plan := SubmitPlan(fileNames, isBatchMode, isRealTime);
      && (plan == Refuse(NoFiles) <==> files == [])
      && (plan == Refuse(MultipleFiles) <==> files != [] && !isBatchMode && !isRealTime && |files| > 1)
      && (plan.Analyse? ==>
            && |plan.run| >= 1
            && (forall k :: 0 <= k < |plan.run| ==> plan.run[k] in files)
            && ((!isBatchMode || isRealTime) ==> plan.run == [files[0]])
            && (isBatchMode && !isRealTime ==> plan.run == files))
  {
    var files := FilesToProcess(fileNames);
    if files != [] && !isBatchMode && !isRealTime && |files| <= 1 {
      assert files == [files[0]];
    }
  }

  /** One file's entry in the results: exactly one of `report` and `error` is set,
      holding the call's report or its message. */
  datatype BatchResult = BatchResult(filename: string, report: Option<AudioAnalysis>, error: Option<string>)

  /** The analysis call for one file under one preset. */
  type Analyzer = (string, string) -> Outcome<AudioAnalysis>

  /** The service call the panel makes. */
  function Analysis(endpoint: string -> Outcome<AudioAnalysis>): Analyzer {
    (filename, preset) => AnalyzeAudioForEnhancement(filename, preset, endpoint)
  }

  /** Every call of a run is the service's `analyzeAudioForEnhancement`: the endpoint's
      report for that file and preset, or the fixed message. */
  lemma AnalysisCallsService(endpoint: string -> Outcome<AudioAnalysis>, filename: string, preset: string)
    ensures Analysis(endpoint)(filename, preset).Success? ==>
      Analysis(endpoint)(filename, preset) == endpoint(AnalysisPrompt(filename, preset))
    ensures Analysis(endpoint)(filename, preset).Failure? ==>
      Analysis(endpoint)(filename, preset).message == ANALYSIS_FAILED
  {
  }

  /** The per-file call with the panel's preset fixed. */
  function WithPreset(analyze: Analyzer, preset: string): string -> Outcome<AudioAnalysis> {
    filename => analyze(filename, preset)
  }

  function ToBatchResult(filename: string, outcome: Outcome<AudioAnalysis>): (r: BatchResult)
    ensures r.filename == filename
    ensures r.report.Some? != r.error.Some?
    ensures r.report.Some? <==> outcome.Success?
    ensures outcome.Success? ==> r.report.value == outcome.value
    ensures outcome.Failure? ==> r.error.value == outcome.message
  {
    match outcome
    case Success(report) => BatchResult(filename, Some(report), None)
    case Failure(message) => BatchResult(filename, None, Some(message))
  }

  function ToBatchResults(files: seq<string>, outcomes: seq<Outcome<AudioAnalysis>>): seq<BatchResult>
    requires |outcomes| == |files|
  {
    seq(|files|, k requires 0 <= k < |files| => ToBatchResult(files[k], outcomes[k]))
  }

  function ReportCount(rs: seq<BatchResult>): nat
    decreases |rs|
  {
    if rs == [] then 0 else ReportCount(rs[..|rs| - 1]) + (if rs[|rs| - 1].report.Some? then 1 else 0)
  }

  /** The counter's increment is the number of results that carry a report. */
  lemma {:induction false} SuccessesAreReports(files: seq<string>, outcomes: seq<Outcome<AudioAnalysis>>)
    requires |outcomes| == |files|
    ensures SuccessCount(outcomes) == ReportCount(ToBatchResults(files, outcomes))
    decreases |files|
  {
    if files != [] {
      var n := |files|;
      SuccessesAreReports(files[..n - 1], outcomes[..n - 1]);
      var rs := ToBatchResults(files, outcomes);
      assert rs[..n - 1] == ToBatchResults(files[..n - 1], outcomes[..n - 1]);
    }
  }

  // ---------------------------------------------------------------------------
  // The report
  // ---------------------------------------------------------------------------

  /** The horizontal rule between the report's parts. */
  function Rule(format: ExportFormat): string {
    if format == Markdown then "\n---\n" else "\n---------------------------------\n"
  }

  const REPORT_TITLE: string := "AI Audio Analysis Report\n"
  const FILE_LABEL: string := "\n**File:** "
  const PRESET_LABEL: string := "\n**Preset:** "
  const SCORE_LABEL: string := "Vocal Clarity Score: "
  const SCORE_TAIL: string := " / 10\n"
  const ISSUES_HEADING: string := "Detected Issues:\n"
  const ACTIONS_HEADING: string := "Recommended Actions:\n"
  const TIPS_HEADING: string := "Pro Tips for Clarity Improvement:\n"
  /** The template literal's last line, the indentation before its closing backtick. */
  const REPORT_END: string := "\n        "

  function Lines(format: ExportFormat, entries: seq<string>): string {
    Join(Bullets(format, entries), "\n")
  }

  /** The pieces of the report template literal, in order. */
  function ReportParts(report: AudioAnalysis, filename: string, preset: string, format: ExportFormat): (r: seq<string>)
    ensures |r| == 27
  {
    ["\n", H1(format), REPORT_TITLE, Rule(format),
     FILE_LABEL, filename, PRESET_LABEL, preset, "\n\n",
     H2(format), SCORE_LABEL, IntToString(report.vocalClarityScore), SCORE_TAIL, Rule(format),
     "\n", H3(format), ISSUES_HEADING, Lines(format, report.detectedIssues),
     "\n\n", H3(format), ACTIONS_HEADING, Lines(format, report.recommendedActions),
     "\n\n", H3(format), TIPS_HEADING, Lines(format, report.clarityImprovementTips), REPORT_END]
  }

  /** The filled-in report template, trimmed. */
  function Report(report: AudioAnalysis, filename: string, preset: string, format: ExportFormat): string {
    Trim(Concat(ReportParts(report, filename, preset, format)))
  }

  /** Trimming only reaches into the template's first and last pieces: every piece from
      the first rule to the heading of the tips survives verbatim. */
  lemma ReportKeepsPart(report: AudioAnalysis, filename: string, preset: string, format: ExportFormat, k: nat)
    requires 3 <= k <= 23
    ensures Contains(Report(report, filename, preset, format), ReportParts(report, filename, preset, format)[k])
  {
    var parts := ReportParts(report, filename, preset, format);
    assert REPORT_TITLE[0] == 'A' && TIPS_HEADING[0] == 'P';
    TrimKeepsPart(parts, k, 2, 24);
  }

  lemma PartsCarryFile(report: AudioAnalysis, filename: string, preset: string, format: ExportFormat)
    ensures ReportParts(report, filename, preset, format)[5] == filename
  {
  }

  lemma PartsCarryPreset(report: AudioAnalysis, filename: string, preset: string, format: ExportFormat)
    ensures ReportParts(report, filename, preset, format)[7] == preset
  {
  }

  lemma PartsCarryScore(report: AudioAnalysis, filename: string, preset: string, format: ExportFormat)
    ensures ReportParts(report, filename, preset, format)[11] == IntToString(report.vocalClarityScore)
  {
  }

  lemma PartsCarryIssues(report: AudioAnalysis, filename: string, preset: string, format: ExportFormat)
    ensures ReportParts(report, filename, preset, format)[17] == Lines(format, report.detectedIssues)
  {
  }

  lemma PartsCarryActions(report: AudioAnalysis, filename: string, preset: string, format: ExportFormat)
    ensures ReportParts(report, filename, preset, format)[21] == Lines(format, report.recommendedActions)
  {
  }

  /** The report names the file, the preset and the clarity score verbatim. */
  lemma ReportNamesFilePresetAndScore(report: AudioAnalysis, filename: string, preset: string, format: ExportFormat)
    ensures Contains(Report(report, filename, preset, format), filename)
    ensures Contains(Report(report, filename, preset, format), preset)
    ensures Contains(Report(report, filename, preset, format), IntToString(report.vocalClarityScore))
  {
    PartsCarryFile(report, filename, preset, format);
    ReportKeepsPart(report, filename, preset, format, 5);
    PartsCarryPreset(report, filename, preset, format);
    ReportKeepsPart(report, filename, preset, format, 7);
    PartsCarryScore(report, filename, preset, format);
    ReportKeepsPart(report, filename, preset, format, 11);
  }

  /** The report has a list line for every detected issue. */
  lemma ReportHasEveryIssue(report: AudioAnalysis, filename: string, preset: string, format: ExportFormat, k: nat)
    requires k < |report.detectedIssues|
    ensures Contains(Report(report, filename, preset, format), Li(format) + report.detectedIssues[k])
  {
    var lines := Bullets(format, report.detectedIssues);
    JoinContainsEach(lines, "\n", k);
    ReportKeepsPart(report, filename, preset, format, 17);
    PartsCarryIssues(report, filename, preset, format);
    ContainsTrans(Report(report, filename, preset, format), Lines(format, report.detectedIssues), lines[k]);
  }

  /** The report has a list line for every recommended action. */
  lemma ReportHasEveryAction(report: AudioAnalysis, filename: string, preset: string, format: ExportFormat, k: nat)
    requires k < |report.recommendedActions|
    ensures Contains(Report(report, filename, preset, format), Li(format) + report.recommendedActions[k])
  {
    var lines := Bullets(format, report.recommendedActions);
    JoinContainsEach(lines, "\n", k);
    ReportKeepsPart(report, filename, preset, format, 21);
    PartsCarryActions(report, filename, preset, format);
    ContainsTrans(Report(report, filename, preset, format), Lines(format, report.recommendedActions), lines[k]);
  }

  const FAILED_LEAD: string := "Analysis for "
  const FAILED_TAIL: string := " failed: "
  const NO_REPORT_LEAD: string := "No report generated for "

  /** `formatReport`: a non-empty error gives the failure line, a result without a
      report the "no report" line, and a report the filled-in template. The preset
      shown is the panel's current one, passed in by the export. */
  function FormatReport(result: BatchResult, preset: string, format: ExportFormat): string {
    if Truthy(result.error) then FAILED_LEAD + result.filename + FAILED_TAIL + result.error.value
    else if result.report.None? then NO_REPORT_LEAD + result.filename + "."
    else Report(result.report.value, result.filename, preset, format)
  }

  /** A failed analysis exports as the one line naming the file and the service's
      message, in either format and whatever the preset. */
  lemma FailedAnalysisExportsMessage(endpoint: string -> Outcome<AudioAnalysis>, filename: string, preset: string,
                                     shown: string, format: ExportFormat)
    requires Analysis(endpoint)(filename, preset).Failure?
    ensures FormatReport(ToBatchResult(filename, Analysis(endpoint)(filename, preset)), shown, format)
            == FAILED_LEAD + filename + FAILED_TAIL + ANALYSIS_FAILED
  {
    assert ANALYSIS_FAILED == "Failed to analyze audio. Please check your API key and network connection.";
  }

  /** A failure line names the file and the message. */
  lemma FailureLineNamesFileAndMessage(result: BatchResult, preset: string, format: ExportFormat)
    requires Truthy(result.error)
    ensures Contains(FormatReport(result, preset, format), result.filename)
    ensures Contains(FormatReport(result, preset, format), result.error.value)
  {
    OccursBetweenTwo(FAILED_LEAD, result.filename, FAILED_TAIL, result.error.value, "");
    assert FAILED_LEAD + result.filename + FAILED_TAIL + result.error.value + ""
           == FormatReport(result, preset, format);
  }

  const REPORT_DIVIDER: string := "\n\n========================\n\n"

  /** The text of the report export: every result's report, divided by a rule. */
  function ReportText(results: seq<BatchResult>, preset: string, format: ExportFormat): string {
    Join(seq(|results|, i requires 0 <= i < |results| => FormatReport(results[i], preset, format)), REPORT_DIVIDER)
  }

  /** `handleExport`: nothing without results, otherwise the file's name and text. */
  function ExportReport(results: seq<BatchResult>, preset: string, format: ExportFormat): (r: Option<(string, string)>)
    ensures r.None? <==> results == []
    ensures r.Some? ==> r.value.0 == "audio_analysis_report_batch." + Extension(format)
    ensures r.Some? ==> r.value.1 == ReportText(results, preset, format)
  {
    if results == [] then None
    else Some(("audio_analysis_report_batch." + Extension(format), ReportText(results, preset, format)))
  }

  /** The export accounts for every result. */
  lemma ExportHasEveryResult(results: seq<BatchResult>, preset: string, format: ExportFormat, i: nat)
    requires i < |results|
    ensures Contains(ReportText(results, preset, format), FormatReport(results[i], preset, format))
  {
    var parts := seq(|results|, i requires 0 <= i < |results| => FormatReport(results[i], preset, format));
    JoinContainsEach(parts, REPORT_DIVIDER, i);
  }

  /** The export joins the reports in result order: it starts with the first result's
      report, and report i follows the export of the results before it and the divider. */
  lemma ExportInOrder(results: seq<BatchResult>, preset: string, format: ExportFormat, i: nat)
    requires i < |results|
    ensures i == 0 ==> FormatReport(results[0], preset, format) <= ReportText(results, preset, format)
    ensures i > 0 ==>
      ReportText(results[..i], preset, format) + REPORT_DIVIDER + FormatReport(results[i], preset, format)
      <= ReportText(results, preset, format)
  {
    var parts := seq(|results|, i requires 0 <= i < |results| => FormatReport(results[i], preset, format));
    if i == 0 {
      JoinStartsWithFirst(parts, REPORT_DIVIDER);
    } else {
      var front := results[..i];
      assert parts[..i] == seq(|front|, k requires 0 <= k < |front| => FormatReport(front[k], preset, format));
      JoinPlacesEach(parts, REPORT_DIVIDER, i);
    }
  }

  // ---------------------------------------------------------------------------
  // The panel
  // ---------------------------------------------------------------------------

  class EnhancerPanel {
    var preset: string
    var fileNames: string
    var results: seq<BatchResult>
    var isLoading: bool
    var error: Option<Notice>
    var isBatchMode: bool
    var customPresets: seq<string>
    var newPresetName: string
    var isRealTime: bool
    var isProcessingRealTime: bool

    /** The custom list is one saving can build, and batch mode is only on in standard
        mode. */
    predicate Valid()
      reads this
    {
      && WellFormedPresets(customPresets)
      && (isRealTime ==> !isBatchMode)
    }

    /** The selected preset is one the picker offers. */
    predicate Offered()
      reads this
    {
      preset in DEFAULT_PRESETS + customPresets
    }

    /** The panel as mounted: the custom presets are loaded from storage. */
    constructor (store: LocalStorage)
      ensures preset == DEFAULT_PRESET && fileNames == "" && results == [] && newPresetName == ""
      ensures !isLoading && error == None && !isBatchMode && !isRealTime && !isProcessingRealTime
      ensures customPresets == (if store.customPresets.Some? then store.customPresets.value else [])
      ensures (store.customPresets.None? || WellFormedPresets(store.customPresets.value)) ==> Valid()
      ensures Offered()
    {
      preset := DEFAULT_PRESET;
      fileNames := "";
      results := [];
      isLoading := false;
      error := None;
      isBatchMode := false;
      customPresets := if store.customPresets.Some? then store.customPresets.value else [];
      newPresetName := "";
      isRealTime := false;
      isProcessingRealTime := false;
      new;
      assert (DEFAULT_PRESETS + customPresets)[0] == DEFAULT_PRESET;
    }

    /** The preset picker's `onChange`: it offers the defaults and the custom presets. */
    method SelectPreset(name: string)
      requires Valid() && name in DEFAULT_PRESETS + customPresets
      modifies this
      ensures Valid() && Offered() && preset == name
      ensures customPresets == old(customPresets) && newPresetName == old(newPresetName) && error == old(error)
      ensures fileNames == old(fileNames) && results == old(results) && isLoading == old(isLoading)
      ensures isBatchMode == old(isBatchMode) && isRealTime == old(isRealTime)
      ensures isProcessingRealTime == old(isProcessingRealTime)
    {
      preset := name;
    }

    /** `handleSavePreset`. A rejected name is reported and nothing else changes. An
        accepted one is appended; when the list is stored it is selected and the input is
        cleared, and when the write throws the longer list stays shown with the failure
        reported, the input and the selection unchanged. */
    method SavePreset(store: LocalStorage)
      requires Valid()
      modifies this, store`customPresets
      ensures Valid()
      ensures old(Offered()) ==> Offered()
      ensures var outcome := PresetsAfterSave(old(customPresets), old(newPresetName));
        outcome.Rejected? ==>
          && error == Some(outcome.notice) && customPresets == old(customPresets) && preset == old(preset)
          && newPresetName == old(newPresetName) && store.customPresets == old(store.customPresets)
      ensures var outcome := PresetsAfterSave(old(customPresets), old(newPresetName));
        outcome.Saved? && !store.failing ==>
          && error == None && customPresets == outcome.presets && preset == outcome.selected
          && newPresetName == "" && store.customPresets == Some(outcome.presets)
      ensures var outcome := PresetsAfterSave(old(customPresets), old(newPresetName));
        outcome.Saved? && store.failing ==>
          && error == Some(PresetSaveFailed) && customPresets == outcome.presets && preset == old(preset)
          && newPresetName == old(newPresetName) && store.customPresets == old(store.customPresets)
      ensures fileNames == old(fileNames) && results == old(results) && isLoading == old(isLoading)
      ensures isBatchMode == old(isBatchMode) && isRealTime == old(isRealTime)
      ensures isProcessingRealTime == old(isProcessingRealTime)
    {
      var outcome := PresetsAfterSave(customPresets, newPresetName);
      SaveKeepsPresetsWellFormed(customPresets, newPresetName);
      if outcome.Rejected? {
        error := Some(outcome.notice);
      } else {
        Adopt(outcome.presets, outcome.selected, store);
      }
    }

    /** The accepted save's updates: the new list is shown and written; once written,
        `name` is selected, the input cleared and the error cleared; a write that throws
        reports the failure instead. */
    method Adopt(list: seq<string>, name: string, store: LocalStorage)
      requires WellFormedPresets(list) && name in DEFAULT_PRESETS + list && (isRealTime ==> !isBatchMode)
      modifies this, store`customPresets
      ensures Valid() && customPresets == list
      ensures !store.failing ==>
        && error == None && preset == name && newPresetName == "" && store.customPresets == Some(list)
      ensures store.failing ==>
        && error == Some(PresetSaveFailed) && preset == old(preset) && newPresetName == old(newPresetName)
        && store.customPresets == old(store.customPresets)
      ensures fileNames == old(fileNames) && results == old(results) && isLoading == old(isLoading)
      ensures isBatchMode == old(isBatchMode) && isRealTime == old(isRealTime)
      ensures isProcessingRealTime == old(isProcessingRealTime)
    {
      customPresets := list;
      var written := store.SavePresets(list);
      if !written {
        error := Some(PresetSaveFailed);
        return;
      }
      newPresetName := "";
      preset := name;
      error := None;
    }

    /** `handleDeletePreset`. Unless the selected preset is a custom one nothing happens;
        otherwise it is removed from the list shown, the list is written and the default
        preset is selected. When the write throws the failure is reported and the removed
        preset stays selected, so the picker no longer offers the selection. */
    method DeletePreset(store: LocalStorage)
      requires Valid()
      modifies this, store`customPresets
      ensures Valid()
      ensures match PresetsAfterDelete(old(customPresets), old(preset))
        case None =>
          customPresets == old(customPresets) && preset == old(preset) && error == old(error)
          && store.customPresets == old(store.customPresets)
        case Some(list) =>
          && customPresets == list
          && (!store.failing ==>
                preset == DEFAULT_PRESET && error == old(error) && store.customPresets == Some(list))
          && (store.failing ==>
                preset == old(preset) && error == Some(PresetDeleteFailed)
                && store.customPresets == old(store.customPresets))
      ensures old(Offered()) && !(old(preset) in old(customPresets) && store.failing) <==> Offered()
      ensures newPresetName == old(newPresetName)
      ensures fileNames == old(fileNames) && results == old(results) && isLoading == old(isLoading)
      ensures isBatchMode == old(isBatchMode) && isRealTime == old(isRealTime)
      ensures isProcessingRealTime == old(isProcessingRealTime)
    {
      if preset in customPresets {
        var i :| 0 <= i < |customPresets| && customPresets[i] == preset;
        DeleteRemovesOnlyIt(customPresets, i);
        DeletedNotOffered(customPresets, preset);
        var list := Filter(customPresets, Other(preset));
        customPresets := list;
        var written := store.SavePresets(list);
        if !written {
          error := Some(PresetDeleteFailed);
          return;
        }
        preset := DEFAULT_PRESET;
        assert (DEFAULT_PRESETS + customPresets)[0] == DEFAULT_PRESET;
      }
    }

    /** The mode switch: standard mode (batch mode off) or real-time mode (batch mode off). */
    method SetRealTime(on: bool)
      requires Valid()
      modifies this
      ensures Valid() && isRealTime == on && !isBatchMode
      ensures preset == old(preset) && customPresets == old(customPresets) && newPresetName == old(newPresetName)
      ensures error == old(error) && fileNames == old(fileNames) && results == old(results)
      ensures isLoading == old(isLoading) && isProcessingRealTime == old(isProcessingRealTime)
    {
      isRealTime := on;
      isBatchMode := false;
    }

    /** The batch checkbox, which only standard mode shows. */
    method ToggleBatchMode()
      requires Valid() && !isRealTime
      modifies this
      ensures Valid() && isBatchMode == !old(isBatchMode)
      ensures preset == old(preset) && customPresets == old(customPresets) && newPresetName == old(newPresetName)
      ensures error == old(error) && fileNames == old(fileNames) && results == old(results)
      ensures isLoading == old(isLoading) && isRealTime == old(isRealTime)
      ensures isProcessingRealTime == old(isProcessingRealTime)
    {
      isBatchMode := !isBatchMode;
    }

    /** `handleSubmit`. A rejected submission is reported and no call is made; otherwise
        the files are analysed in order with the panel's preset, the results replace the
        old ones, and the counter grows by the number of reports. Returns the calls made
        and the progress values shown. `analyze` is the service's call, which the
        application binds as `Analysis(endpoint)`. */
    method Submit(analyze: Analyzer, store: LocalStorage) returns (calls: seq<string>, progress: seq<Progress>)
      modifies this, store
      ensures isProcessingRealTime == old(isProcessingRealTime) && fileNames == old(fileNames)
      ensures preset == old(preset) && customPresets == old(customPresets) && newPresetName == old(newPresetName)
      ensures isBatchMode == old(isBatchMode) && isRealTime == old(isRealTime)
      ensures store.customPresets == old(store.customPresets)
      ensures var plan := SubmitPlan(fileNames, isBatchMode, isRealTime);
        plan.Refuse? ==>
          && error == Some(plan.notice) && calls == [] && progress == [] && isLoading == old(isLoading)
          && results == old(results) && store.counters == old(store.counters)
      ensures var plan := SubmitPlan(fileNames, isBatchMode, isRealTime);
        plan.Analyse? ==>
          var outcomes := Outcomes(plan.run, WithPreset(analyze, preset));
          && error == None && !isLoading
          && calls == plan.run
          && results == ToBatchResults(plan.run, outcomes)
          && progress == ProgressTrail(|plan.run|)
          && store.counters == AddedJobs(old(store.counters), ENHANCER_JOBS, SuccessCount(outcomes))
    {
      var plan := SubmitPlan(fileNames, isBatchMode, isRealTime);
      if plan.Refuse? {
        error := Some(plan.notice);
        calls, progress := [], [];
      } else {
        calls, progress := RunAndRecord(analyze, store, plan.run);
      }
      assert plan == SubmitPlan(fileNames, isBatchMode, isRealTime);
    }

    /** A submission that passed the check: the run, then the results and the counter. */
    method RunAndRecord(analyze: Analyzer, store: LocalStorage, run: seq<string>)
      returns (calls: seq<string>, progress: seq<Progress>)
      modifies this, store
      ensures fileNames == old(fileNames) && preset == old(preset) && customPresets == old(customPresets)
      ensures newPresetName == old(newPresetName) && isBatchMode == old(isBatchMode) && isRealTime == old(isRealTime)
      ensures isProcessingRealTime == old(isProcessingRealTime) && !isLoading
      ensures store.customPresets == old(store.customPresets)
      ensures var outcomes := Outcomes(run, WithPreset(analyze, preset));
        && error == None
        && calls == run
        && results == ToBatchResults(run, outcomes)
        && progress == ProgressTrail(|run|)
        && store.counters == AddedJobs(old(store.counters), ENHANCER_JOBS, SuccessCount(outcomes))
    {
      isLoading := true;
      error := None;
      results := [];
      var outcomes, successfulJobs;
      outcomes, calls, progress, successfulJobs := Run(run, WithPreset(analyze, preset));
      store.AddJobs(ENHANCER_JOBS, successfulJobs);
      results := ToBatchResults(run, outcomes);
      isLoading := false;
    }

    /** `handleRealTimeToggle`: starting clears the error and the results; stopping
        submits. */
    method RealTimeToggle(analyze: Analyzer, store: LocalStorage) returns (calls: seq<string>, progress: seq<Progress>)
      modifies this, store
      ensures isProcessingRealTime == !old(isProcessingRealTime)
      ensures fileNames == old(fileNames) && preset == old(preset) && customPresets == old(customPresets)
      ensures newPresetName == old(newPresetName) && isBatchMode == old(isBatchMode) && isRealTime == old(isRealTime)
      ensures store.customPresets == old(store.customPresets)
      ensures !old(isProcessingRealTime) ==>
        && error == None && results == [] && isLoading == old(isLoading)
        && calls == [] && progress == [] && store.counters == old(store.counters)
      ensures old(isProcessingRealTime) ==>
        var plan := SubmitPlan(fileNames, isBatchMode, isRealTime);
        && (plan.Refuse? ==>
              && error == Some(plan.notice) && calls == [] && progress == [] && isLoading == old(isLoading)
              && results == old(results) && store.counters == old(store.counters))
        && (plan.Analyse? ==>
              var outcomes := Outcomes(plan.run, WithPreset(analyze, preset));
              && error == None && !isLoading && calls == plan.run
              && results == ToBatchResults(plan.run, outcomes)
              && progress == ProgressTrail(|plan.run|)
              && store.counters == AddedJobs(old(store.counters), ENHANCER_JOBS, SuccessCount(outcomes)))
    {
      var wasProcessing := isProcessingRealTime;
      isProcessingRealTime := !isProcessingRealTime;
      if !wasProcessing {
        error := None;
        results := [];
        calls, progress := [], [];
      } else {
        calls, progress := Submit(analyze, store);
      }
    }
  }
}
