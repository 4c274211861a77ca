# AI Audio Studio — a verified model of its deterministic core

AI Audio Studio is a React dashboard of audio tools. Each tool validates what the
user typed, sends it to a generative-AI endpoint (Gemini), shows the answer,
optionally exports it, and bumps a per-tool usage counter in `localStorage`. This
project models, in Dafny, everything around the endpoint call that is deterministic,
and proves what the panels promise about it:

- **The batch runner** (`BatchRunner`). The dubbing, podcast, enhancer and subtitle
  panels share it:
  - split the input into work items (on `"\n\n---\n\n"`, dropping blank segments);
  - call the service once per item, in order;
  - keep exactly one outcome per call, a failure not stopping the run;
  - report progress as completed out of total after every call;
  - add the number of successes to the tool's counter, writing storage only when it
    is positive.

  The subtitle panel runs items × languages, item-major. It counts the transcripts
  with at least one successful language (`SubtitleGenerator.RunSubtitles`).
- **The panels as classes** whose fields are the React state. Each `Submit` method
  validates first (a blank text, no language, no stem, no file or too many files is
  reported and nothing is called). It then runs the loop and states the whole new
  state: results, error, busy flag and counters.
- **The exports**:
  - the dubbing CSV, escaped as in section 2, rule 7 of RFC 4180, with a proved
    round trip;
  - the SRT download and its WebVTT conversion;
  - the text exports of dubbing results, podcast show notes, enhancer reports and
    all subtitles, each proved to account for every result, failures included, in
    result order;
  - the podcast JSON export value.
- **The enhancer's custom presets.** Saving rejects an empty name and a name equal,
  ignoring case, to a default or custom preset. Deleting removes only the selected
  custom preset and selects 'Podcast'. The list stays well formed. Storage writes of
  the list can throw; the model follows the source's `catch` paths.
- **The selection toggles** for subtitle languages (which also repair the active tab)
  and stems.
- **The service layer's deterministic parts**:
  - the prompt branching of the dubbing script (tone, auto-detect, voice sample);
  - the rule that every failure is rethrown with a fixed message;
  - the simulated text-to-speech file name;
  - the simulated stem split.

The generation endpoint is a parameter: a function from the instruction to
`Success(payload)` or `Failure(message)`. Each panel method takes the per-item
service call as a parameter. A named function shows how the application binds it
(`Dubbing(endpoint)`, `Subtitles(endpoint)`, ...), and a lemma states what that
binding returns. `localStorage` is the `Storage.LocalStorage` object: a map of
counters, where a missing key reads as 0, and the stored custom preset list.

Modules, one per source file:

| module | file | models |
|---|---|---|
| `Text` | text.dfy | `trim` (with ECMAScript's whitespace set), `split`/`join` with a literal separator, `filter`, ASCII `toLowerCase`/`toUpperCase`, the `[^a-zA-Z0-9]` sanitiser, decimal rendering |
| `Storage` | storage.dfy | the counters and the preset list in `localStorage` |
| `BatchRunner` | batch.dfy | work items, the per-item loop, progress |
| `Selection` | selection.dfy | the include/exclude toggle |
| `Markup` | markup.dfy | the Markdown / plain-text markers of the report exports |
| `GeminiService` | service.dfy | `src/services/geminiService.ts` |
| `SubtitleGenerator` | subtitles.dfy | `src/components/SubtitleGenerator.tsx` |
| `DubbingStudio` | dubbing.dfy | `src/components/DubbingStudio.tsx` |
| `PodcastEditor` | podcast.dfy | `src/components/PodcastEditor.tsx` |
| `AudioEnhancer` | enhancer.dfy | `src/components/AudioEnhancer.tsx` |
| `StemSplitter` | stems.dfy | `src/components/StemSplitter.tsx` |

The blank check looks at the whole text only (`trim` at
src/components/SubtitleGenerator.tsx:64), before the split at line 82. A text made only
of separators therefore passes it and yields zero items: the run makes no call, shows
no result, reports no error and leaves the counter alone
(`BatchRunner.SeparatorOnlyExample`).

Lengths and cuts follow JavaScript's count of UTF-16 code units where the source
depends on them: the 20-character cut and the `[^a-zA-Z0-9]` replacement of the
simulated file names (`Text.Utf16Length`, `Text.Sanitise`). Everywhere else a Dafny
`char` is one Unicode scalar value, which the modelled operations treat alike.

## Model

| member | source | states |
|---|---|---|
| BatchRunner.Submission | src/components/DubbingStudio.tsx:65-76 | a submission runs nothing exactly when the text is blank; otherwise it runs the text's work items |
| BatchRunner.SingleItemOutsideBatch | src/components/DubbingStudio.tsx:76 | outside batch mode the only item is the whole text, verbatim |
| BatchRunner.BatchItemsAreNonBlankSegments | src/components/SubtitleGenerator.tsx:82 | batch items (`WorkItems`) are exactly the non-blank segments between separators, untrimmed and in order; none contains the separator; with no blank segment, joining them gives back the text |
| BatchRunner.TrailingSeparatorIgnored | src/components/SubtitleGenerator.tsx:82 | `a SEP b SEP` gives exactly the items `a`, `b`: the blank segment after a trailing separator is dropped |
| BatchRunner.SeparatorOnlyExample | src/components/SubtitleGenerator.tsx:64-82 | a text that is only a separator passes the blank check yet yields no item |
| BatchRunner.Run | src/components/DubbingStudio.tsx:80-91 | one call per item in item order; outcomes are the calls' outcomes, one each, not stopped by failures; progress after call i is (i+1, n); the success count is the number of successful outcomes |
| BatchRunner.SuccessCountBounds | src/components/DubbingStudio.tsx:86-96 | successes ≤ calls; zero exactly when every call failed; equal to the calls exactly when every call succeeded |
| BatchRunner.ProgressNeverDecreases | src/components/DubbingStudio.tsx:90 | the displayed percentage (i+1)/n·100 never goes down and reaches 100 after the last call |
| Storage.AddedJobs | src/components/DubbingStudio.tsx:93-96 | the tool's counter grows by exactly k (a missing key reads as 0); no other counter changes; nothing is written when k = 0 |
| Storage.CountersNeverDecrease | src/components/PodcastEditor.tsx:85-88 | over any series of runs a counter never decreases, and the tool's own counter ends at its start plus the sum of the increments |
| Storage.LocalStorage.constructor | src/components/StemSplitter.tsx:88 | storage starts with no counter (every key reads as 0) and no preset list; whether its writes throw is fixed for its lifetime |
| Storage.LocalStorage.AddJobs | src/components/SubtitleGenerator.tsx:111-114 | the stored counters become `AddedJobs` of the old ones |
| Storage.LocalStorage.SavePresets | src/components/AudioEnhancer.tsx:130 | the write succeeds exactly when the storage does not throw; then the stored list becomes the given list, otherwise it is unchanged |
| Selection.Toggle | src/components/SubtitleGenerator.tsx:47 | afterwards x is selected exactly when it was not before; every other entry keeps its membership; an absent x is appended at the end |
| Selection.ToggleRemovesOnlyIt | src/components/StemSplitter.tsx:66-70 | in a list without duplicates, deselecting cuts out exactly that entry and keeps the others in order |
| Selection.ToggleTwice | src/components/StemSplitter.tsx:66-70 | toggling an absent entry twice restores the original list |
| Selection.ToggleKeepsNoDuplicates | src/components/SubtitleGenerator.tsx:47 | toggling never introduces a duplicate |
| Text.BlankIffAllWhitespace | src/components/SubtitleGenerator.tsx:64 | `!s.trim()` (`Trim`, `IsBlank`) holds exactly when every character of s is whitespace |
| Text.TrimIsInfix | src/components/AudioEnhancer.tsx:117 | trim keeps a contiguous middle part, removes only whitespace and leaves none at either end |
| Text.TrimIdempotent | src/components/AudioEnhancer.tsx:117 | trimming twice is trimming once |
| Text.JoinSplit | src/components/SubtitleGenerator.tsx:82 | joining a split's pieces (`Split`) with the separator (`Join`) gives back the input |
| Text.SplitJoin | src/components/DubbingStudio.tsx:167 | splitting a join of separator-free pieces gives back the pieces |
| Text.ParseNatToString | src/components/SubtitleGenerator.tsx:112-113 | `parseInt` of a rendered counter gives the counter back |
| Text.Split | src/components/SubtitleGenerator.tsx:82 | `split` always gives at least one piece; the pieces' properties are stated by Text.JoinSplit and Text.SplitPiecesLackSeparator |
| Text.SplitPiecesLackSeparator | src/components/SubtitleGenerator.tsx:82 | no piece of a split contains the separator |
| Text.JoinPlacesEach | src/components/PodcastEditor.tsx:140 | `join` keeps the items in order: item i follows the join of the items before it and one separator |
| Text.LowerChar | src/components/AudioEnhancer.tsx:122 | an ASCII capital maps into `a`-`z`; every other character is kept |
| Text.ToLower | src/components/AudioEnhancer.tsx:122 | lower-casing keeps the length |
| Text.UpperChar | src/components/DubbingStudio.tsx:112 | an ASCII small letter maps into `A`-`Z`; every other character is kept |
| Text.ToUpper | src/components/DubbingStudio.tsx:112 | upper-casing keeps the length |
| Text.Prefix | src/services/geminiService.ts:349 | `substring(0, n)` is a prefix of length min(n, length) |
| Text.Utf16Length | src/services/geminiService.ts:349 | the JavaScript length counts two code units for a character outside the Basic Multilingual Plane: never less than the character count, and equal to it inside that plane |
| Text.SanitiseChar | src/services/geminiService.ts:349 | one output character per code unit of the input character |
| Text.Sanitise | src/services/geminiService.ts:349 | one output character per UTF-16 code unit, all in `[a-z0-9_]` |
| Text.SanitiseBmp | src/services/geminiService.ts:349 | inside the Basic Multilingual Plane, letters and digits survive lower-cased and every other character becomes `_`, position by position |
| Text.SanitiseAppend | src/services/geminiService.ts:349 | sanitising works per character: it distributes over concatenation |
| Text.AstralBecomesTwoUnderscores | src/services/geminiService.ts:349 | a character outside the Basic Multilingual Plane, an emoji say, becomes `__`, one `_` per surrogate |
| GeminiService.Rethrow | src/services/geminiService.ts:22-25 | a success passes through unchanged; any failure surfaces with the fixed message, never the original error |
| GeminiService.SubtitlesFailed | src/services/geminiService.ts:168 | the subtitle failure message names the language |
| GeminiService.ToneInstruction | src/services/geminiService.ts:7 | empty exactly for the 'Default' tone, otherwise names the tone |
| GeminiService.VoiceInstruction | src/services/geminiService.ts:8 | empty exactly when no voice sample is named, otherwise quotes its name |
| GeminiService.TargetSentence | src/services/geminiService.ts:10-14 | 'Auto-detect' asks for English; any other target is named verbatim |
| GeminiService.DubbingPrompt | src/services/geminiService.ts:7-14 | the prompt holds the target wording, the tone and voice sentences, and ends with the script unchanged |
| GeminiService.GenerateDubbingScript | src/services/geminiService.ts:5-26 | the endpoint's answer to the dubbing prompt, or the fixed dubbing message |
| GeminiService.GenerateSubtitles | src/services/geminiService.ts:159-170 | the endpoint's answer to the subtitle prompt, or a message naming the language |
| GeminiService.AnalyzeAudioForEnhancement | src/services/geminiService.ts:35-71 | the endpoint's decoded report, or the fixed analysis message |
| GeminiService.SpeakerInstruction | src/services/geminiService.ts:85 | given names are quoted in the prompt; without names the prompt asks to identify the speakers |
| GeminiService.GeneratePodcastEditingNotes | src/services/geminiService.ts:83-156 | the endpoint's decoded notes, or the fixed podcast message |
| GeminiService.VoiceWord | src/services/geminiService.ts:350 | the voice's first word contains no space |
| GeminiService.TtsFileNameParts | src/services/geminiService.ts:349-351 | the name `TtsFileName` builds is a stem of min(20, JavaScript length) characters in `[a-z0-9_]`, `_`, the voice's first word lower-cased, then `.mp3`; for a text in the Basic Multilingual Plane the stem is the first min(20, length) characters, letters and digits lower-cased and the rest `_` |
| GeminiService.TtsFileNameIgnoresTail | src/services/geminiService.ts:349 | texts that agree on their first 20 UTF-16 code units get the same name |
| GeminiService.TtsFileNameCountsCodeUnits | src/services/geminiService.ts:349 | ten emoji followed by letters give a stem of twenty underscores: the cut counts code units and the letters are dropped |
| GeminiService.GenerateTextToSpeech | src/services/geminiService.ts:349-356 | the result carries that file name, and a confirmation quoting the voice |
| GeminiService.StemBase | src/services/geminiService.ts:398 | the base of a stem file name contains only `[a-z0-9_]` |
| GeminiService.StemFileNamesDistinct | src/services/geminiService.ts:398-401 | two stems of one input share an output name exactly when they agree ignoring case |
| GeminiService.SplitAudioStems | src/services/geminiService.ts:397-407 | one entry per requested stem, in order, named after it, with its file name; the confirmation quotes the input file and states the stem count |
| SubtitleGenerator.ActiveTabAfter | src/components/SubtitleGenerator.tsx:49-51 | the tab is kept while it is selected and non-empty; otherwise it becomes the first selected language, or '' when none is left; a non-empty tab is always selected |
| SubtitleGenerator.JobsAreItemMajor | src/components/SubtitleGenerator.tsx:84-103 | there are items × languages calls, and call i·L + j is transcript i in language j |
| SubtitleGenerator.JobsLength | src/components/SubtitleGenerator.tsx:84 | the number of calls is `totalJobs` = items × languages |
| SubtitleGenerator.SubtitlesCallService | src/components/SubtitleGenerator.tsx:96 | each call gives the endpoint's subtitles for that transcript and language, or an error naming the language |
| SubtitleGenerator.ResultsFor | src/components/SubtitleGenerator.tsx:90-100 | a transcript's result has one key per selected language, each holding that language's call outcome |
| SubtitleGenerator.SuccessfulItemsBounds | src/components/SubtitleGenerator.tsx:91-107 | the increment counts transcripts, at most one each; it is zero exactly when every call of the run failed |
| SubtitleGenerator.RunLanguages | src/components/SubtitleGenerator.tsx:93-103 | the inner loop makes one call per language in order, keeps each result under its language, flags success when any language succeeded, and reports progress after each call |
| SubtitleGenerator.RunSubtitles | src/components/SubtitleGenerator.tsx:82-108 | the nested loop gives one result per transcript with id = index, the item-major calls, progress (k, items × languages) after call k, and the count of transcripts with a success |
| SubtitleGenerator.ReplaceTimestampCommas | src/components/SubtitleGenerator.tsx:160 | the conversion keeps the length |
| SubtitleGenerator.ToVtt | src/components/SubtitleGenerator.tsx:159-161 | the VTT text is `WEBVTT` and a blank line (8 characters), then the converted SRT |
| SubtitleGenerator.OnlyTimestampCommasChange | src/components/SubtitleGenerator.tsx:160 | the conversion changes only commas, to full stops, and only the comma of a `dd:dd:dd,ddd` match |
| SubtitleGenerator.TimestampsOverlapLate | src/components/SubtitleGenerator.tsx:160 | two timestamp matches cannot start 1 to 9 characters apart |
| SubtitleGenerator.TimestampsConverted | src/components/SubtitleGenerator.tsx:160 | every timestamp the left-to-right search reaches gets its comma converted |
| SubtitleGenerator.FindById | src/components/SubtitleGenerator.tsx:154 | `find` gives the first result with that id, and gives nothing exactly when there is none |
| SubtitleGenerator.DownloadSubtitle | src/components/SubtitleGenerator.tsx:153-168 | there is a download exactly when the transcript exists and that language succeeded; SRT is the text unchanged, VTT is converted; the name is `transcript_<id+1>_<lang>.<ext>` |
| SubtitleGenerator.BlockAsWritten | src/components/SubtitleGenerator.tsx:130-138 | as written, a transcript's export block fails exactly when a selected language has no result |
| SubtitleGenerator.ExportTextAsWritten | src/components/SubtitleGenerator.tsx:125-140 | as written, the export throws exactly when some transcript lacks a result for a selected language |
| SubtitleGenerator.ExportAfterNewLanguageThrows | src/components/SubtitleGenerator.tsx:130-136 | a run for Spanish, then French selected, then Export all: the export throws |
| SubtitleGenerator.ExportAll | src/components/SubtitleGenerator.tsx:125-140 | the corrected export gives nothing exactly when there are no results |
| SubtitleGenerator.ExportAgreesWhenAllPresent | src/components/SubtitleGenerator.tsx:128-140 | whenever the export as written produces a file, the corrected export produces the same file |
| SubtitleGenerator.ExportHasEveryResult | src/components/SubtitleGenerator.tsx:128-140 | the export holds every transcript's block; that block starts with the transcript's header and holds, for every selected language with a result, its subtitles or its error |
| SubtitleGenerator.ExportInOrder | src/components/SubtitleGenerator.tsx:128-140 | the blocks come in transcript order: block i follows the export of the transcripts before it and the divider |
| SubtitleGenerator.SubtitlePanel.constructor | src/components/SubtitleGenerator.tsx:33-44 | the initial state: Spanish selected and shown, no results, not busy, batch mode off |
| SubtitleGenerator.SubtitlePanel.ToggleLanguage | src/components/SubtitleGenerator.tsx:46-52 | the selection is toggled and the tab repaired; nothing else changes |
| SubtitleGenerator.SubtitlePanel.Submit | src/components/SubtitleGenerator.tsx:63-123 | a blank transcript or no language is reported without a call and with nothing else changed; otherwise the results, calls, progress, active tab and counter are those of the run |
| SubtitleGenerator.SubtitlePanel.RunAndRecord | src/components/SubtitleGenerator.tsx:73-121 | after validation: the error is cleared, the first language is shown, the run's results replace the old ones, and the counter grows by the transcripts with a success |
| DubbingStudio.DubbingCallsService | src/components/DubbingStudio.tsx:84 | each call gives the endpoint's text for that script's dubbing prompt, or the fixed message |
| DubbingStudio.ToDubbingResult | src/components/DubbingStudio.tsx:84-89 | the result keeps its source script, and exactly one of the dubbed script and the error is set, holding the call's text or message |
| DubbingStudio.SuccessesAreDubbedResults | src/components/DubbingStudio.tsx:84-95 | the counter's increment equals the number of results with a dubbed script |
| DubbingStudio.TxtHasEveryResult | src/components/DubbingStudio.tsx:110-117 | the text export (`FormatResultsForTxt`) holds every result's block: its numbered header, a line feed, then `Error: msg` for a failure with a message and the dubbed script otherwise |
| DubbingStudio.TxtBlocksInOrder | src/components/DubbingStudio.tsx:110-117 | the blocks come in result order: the export starts with the first block, and block i follows the export of the results before it and the separator |
| DubbingStudio.EmptyErrorShowsNull | src/components/DubbingStudio.tsx:113-116 | a failure with an empty message prints `null` instead of an error |
| DubbingStudio.ExportTxt | src/components/DubbingStudio.tsx:120-127 | no file without results; otherwise the text export |
| DubbingStudio.DoubleQuotesLength | src/components/DubbingStudio.tsx:154 | doubling quotes adds exactly one character per quote |
| DubbingStudio.EscapeCsv | src/components/DubbingStudio.tsx:151-155 | an escaped field is enclosed in double quotes |
| DubbingStudio.ReadDoubledQuotes | src/components/DubbingStudio.tsx:154 | reading the doubled text up to the closing quote gives back the text |
| DubbingStudio.EscapeRoundTrip | src/components/DubbingStudio.tsx:151-155 | reading an escaped field back per RFC 4180 gives the value back, for every string |
| DubbingStudio.NullLooksEmpty | src/components/DubbingStudio.tsx:152 | null and the empty string escape alike |
| DubbingStudio.EscapeExample | src/components/DubbingStudio.tsx:154 | `"x"` is written `"""x"""` |
| DubbingStudio.ExportCsv | src/components/DubbingStudio.tsx:148-167 | no file without results; otherwise the header line and one row per result |
| DubbingStudio.CsvLines | src/components/DubbingStudio.tsx:157-167 | the CSV (`Csv`, rows by `CsvRow`) is the header, a line feed, and the rows; without line breaks in the values, the rows split back into exactly one line per result |
| DubbingStudio.CsvRowNumbered | src/components/DubbingStudio.tsx:158-165 | row i starts with the unquoted number i+1 and a comma |
| DubbingStudio.DubbingPanel.constructor | src/components/DubbingStudio.tsx:30-40 | the initial state: Spanish, Default tone, no voice sample, no results |
| DubbingStudio.DubbingPanel.Submit | src/components/DubbingStudio.tsx:64-108 | a blank script is reported without a call and with nothing else changed; otherwise every item is dubbed in order with the panel's settings, and the results, progress and counter are those of the run |
| DubbingStudio.DubbingPanel.RunAndRecord | src/components/DubbingStudio.tsx:69-104 | after validation: the run's results replace the old ones, and the counter grows by the successes |
| PodcastEditor.EditingNotesCallService | src/components/PodcastEditor.tsx:76 | each call gives the endpoint's notes for that transcript's prompt, or the fixed message |
| PodcastEditor.ToPodcastResult | src/components/PodcastEditor.tsx:76-81 | the result carries its index as id, and exactly one of notes and error is set |
| PodcastEditor.ShowNotesKeepPart | src/components/PodcastEditor.tsx:112-135 | in `ShowNotes`, trimming the template does not touch any piece between the title and the blog-post heading |
| PodcastEditor.ShowNotesHaveNumberAndSummary | src/components/PodcastEditor.tsx:113-116 | the show notes hold the transcript's number and the summary verbatim |
| PodcastEditor.ShowNotesHaveEverySpeaker | src/components/PodcastEditor.tsx:118-119 | the show notes hold a list line for every speaker |
| PodcastEditor.ShowNotesHaveEveryEditingNote | src/components/PodcastEditor.tsx:127-128 | the show notes hold a list line for every editing note |
| PodcastEditor.ShowNotesHaveEverySnippet | src/components/PodcastEditor.tsx:130-131 | the show notes hold every social media snippet, quoted the format's way |
| PodcastEditor.FailuresExportAsOneLine | src/components/PodcastEditor.tsx:100-104 | in `FormatNotesForExport`, a failure with a message exports as one line with the number k = index+1 and the message; a result without notes gives the "no notes" line; otherwise the show notes |
| PodcastEditor.ExportNotes | src/components/PodcastEditor.tsx:138-147 | no file without results; otherwise every result's export joined by the divider |
| PodcastEditor.ExportHasEveryResult | src/components/PodcastEditor.tsx:140 | the export holds every result's text |
| PodcastEditor.ExportInOrder | src/components/PodcastEditor.tsx:140 | the results come in order: result i's text follows the export of the results before it and the divider |
| PodcastEditor.ExportJsonValue | src/components/PodcastEditor.tsx:153-155 | the JSON value has one entry per result, in order: its notes, or null for a failure |
| PodcastEditor.PodcastPanel.constructor | src/components/PodcastEditor.tsx:32-38 | the initial state: empty transcript and speakers, no results |
| PodcastEditor.PodcastPanel.Submit | src/components/PodcastEditor.tsx:55-98 | a blank transcript is reported without a call and with nothing else changed; otherwise every item gets notes in order with the speaker names, and results (id = index), progress and counter are those of the run |
| PodcastEditor.PodcastPanel.RunAndRecord | src/components/PodcastEditor.tsx:60-94 | after validation: the run's results replace the old ones, and the counter grows by the successes |
| AudioEnhancer.SaveAcceptsExactlyFreshNames | src/components/AudioEnhancer.tsx:116-133 | in `PresetsAfterSave`, a save is rejected exactly when the trimmed name is empty or taken ignoring case; otherwise the trimmed name is appended at the end and selected |
| AudioEnhancer.FreshNameKeepsPresetsWellFormed | src/components/AudioEnhancer.tsx:122-128 | appending a trimmed, non-empty, untaken name keeps custom names unique ignoring case and disjoint from the defaults |
| AudioEnhancer.SaveKeepsPresetsWellFormed | src/components/AudioEnhancer.tsx:116-133 | a save keeps the list well formed, and selects a preset the picker offers |
| AudioEnhancer.SaveTwiceRejected | src/components/AudioEnhancer.tsx:122-125 | saving the same name again right after is rejected as a duplicate |
| AudioEnhancer.SaveRejectsAnyCase | src/components/AudioEnhancer.tsx:122-123 | a name matching a default or custom preset in any case is rejected, named as typed and trimmed |
| AudioEnhancer.PresetsAfterDelete | src/components/AudioEnhancer.tsx:140-143 | nothing happens unless the preset is custom; otherwise it is gone and every other preset keeps its membership |
| AudioEnhancer.DeletedNotOffered | src/components/AudioEnhancer.tsx:141-146 | a deleted custom preset is no default and no longer a custom preset, so the picker does not offer it |
| AudioEnhancer.DeleteRemovesOnlyIt | src/components/AudioEnhancer.tsx:141-143 | in a well-formed list, deleting cuts out exactly that entry, keeps the others in order, and keeps the list well formed |
| AudioEnhancer.FilesAreTrimmedLines | src/components/AudioEnhancer.tsx:191 | of `FilesToProcess`, every file is a trimmed, non-empty line of the input, and every non-blank line yields its trimmed file |
| AudioEnhancer.SubmitPlanChoosesFiles | src/components/AudioEnhancer.tsx:191-210 | in `SubmitPlan`, no file, or several outside batch and real-time mode, is refused; otherwise the run analyses the first file (outside batch mode or in real time), or all files in order |
| AudioEnhancer.AnalysisCallsService | src/components/AudioEnhancer.tsx:216 | each call gives the endpoint's report for that file and preset, or the fixed message |
| AudioEnhancer.ToBatchResult | src/components/AudioEnhancer.tsx:216-220 | the result names its file, and exactly one of report and error is set |
| AudioEnhancer.SuccessesAreReports | src/components/AudioEnhancer.tsx:216-226 | the counter's increment equals the number of results with a report |
| AudioEnhancer.ReportKeepsPart | src/components/AudioEnhancer.tsx:251-267 | in `FormatReport`'s report, trimming the template does not touch any piece between the first rule and the tips heading |
| AudioEnhancer.ReportNamesFilePresetAndScore | src/components/AudioEnhancer.tsx:254-257 | the report names the file, the preset and the clarity score verbatim |
| AudioEnhancer.ReportHasEveryIssue | src/components/AudioEnhancer.tsx:259-260 | the report holds a list line for every detected issue |
| AudioEnhancer.ReportHasEveryAction | src/components/AudioEnhancer.tsx:262-263 | the report holds a list line for every recommended action |
| AudioEnhancer.FailedAnalysisExportsMessage | src/components/AudioEnhancer.tsx:240-241 | a failed analysis exports as `Analysis for <file> failed: <the service's fixed message>` |
| AudioEnhancer.FailureLineNamesFileAndMessage | src/components/AudioEnhancer.tsx:240-242 | a failure line names the file and the message |
| AudioEnhancer.ExportReport | src/components/AudioEnhancer.tsx:270-278 | no file without results; otherwise `audio_analysis_report_batch.<md or txt>` with every report joined by the divider |
| AudioEnhancer.ExportHasEveryResult | src/components/AudioEnhancer.tsx:272 | the export holds every result's report |
| AudioEnhancer.ExportInOrder | src/components/AudioEnhancer.tsx:272 | the reports come in result order: report i follows the export of the results before it and the divider |
| AudioEnhancer.EnhancerPanel.constructor | src/components/AudioEnhancer.tsx:88-114 | the initial state has 'Podcast' selected, which the picker offers, and the custom presets loaded from storage |
| AudioEnhancer.EnhancerPanel.SelectPreset | src/components/AudioEnhancer.tsx:379-393 | selecting an offered preset changes only the selection |
| AudioEnhancer.EnhancerPanel.SavePreset | src/components/AudioEnhancer.tsx:116-138 | a rejected name reports its notice and changes nothing else; an accepted one is appended to the list shown; when the write succeeds it is stored and selected and the input is cleared, when the write throws the failure is reported and the input and selection stay; the list stays well formed and an offered selection stays offered |
| AudioEnhancer.EnhancerPanel.Adopt | src/components/AudioEnhancer.tsx:127-137 | the accepted save's updates: the new list is shown; then either stored, selected, input and error cleared, or the save failure reported with the input and selection unchanged |
| AudioEnhancer.EnhancerPanel.DeletePreset | src/components/AudioEnhancer.tsx:140-151 | a non-custom selection changes nothing; otherwise the preset leaves the list shown, and either the list is stored and 'Podcast' selected, or the delete failure is reported and the removed preset stays selected; the selection ends up offered exactly unless that write failed |
| AudioEnhancer.EnhancerPanel.SetRealTime | src/components/AudioEnhancer.tsx:329-330 | the mode switch sets the mode and turns batch mode off |
| AudioEnhancer.EnhancerPanel.ToggleBatchMode | src/components/AudioEnhancer.tsx:337-341 | the standard-mode checkbox flips batch mode |
| AudioEnhancer.EnhancerPanel.Submit | src/components/AudioEnhancer.tsx:190-237 | a refused plan reports its notice without a call; otherwise the planned files are analysed in order with the preset, and results, progress and counter are those of the run |
| AudioEnhancer.EnhancerPanel.RunAndRecord | src/components/AudioEnhancer.tsx:200-235 | after the check: the run's results replace the old ones, and the counter grows by the reports |
| AudioEnhancer.EnhancerPanel.RealTimeToggle | src/components/AudioEnhancer.tsx:180-188 | starting clears the error and the results; stopping submits |
| StemSplitter.SplittingSucceeds | src/components/StemSplitter.tsx:86 | the simulated split always succeeds, with one output per requested stem, in order |
| StemSplitter.StemsDifferIgnoringCase | src/components/StemSplitter.tsx:11 | the four stems differ even ignoring case |
| StemSplitter.InitialSelectionValid | src/components/StemSplitter.tsx:53 | the initial selection of all four stems has no duplicate |
| StemSplitter.ToggleKeepsSelectionValid | src/components/StemSplitter.tsx:66-70 | toggling an offered stem keeps the selection duplicate-free and made of offered stems |
| StemSplitter.SplitFilesDistinct | src/services/geminiService.ts:398-401 | for a reachable selection, no two output files share a name |
| StemSplitter.StemPanel.constructor | src/components/StemSplitter.tsx:52-56 | the initial state: no file, all four stems selected, no result |
| StemSplitter.StemPanel.ToggleStem | src/components/StemSplitter.tsx:66-70 | the selection is toggled |
| StemSplitter.StemPanel.Submit | src/components/StemSplitter.tsx:72-96 | a blank file name or an empty selection is reported without a call; otherwise one call: a success is shown and the counter grows by exactly 1, a failure shows its message and the counter is unchanged |
| StemSplitter.StemPanel.SplitAndRecord | src/components/StemSplitter.tsx:81-95 | after validation: the call, then the result or message and the counter |

## Left out

- Rendering, accordions, tabs, visualisers, score rings and help dialogs: presentation only.
- The real endpoint (`ai.models.generateContent` and `JSON.parse` of its answer) is a parameter. A decoded answer is the payload; an answer that does not decode counts as a failed call.
- `async`/`await` and React's batching of state updates: each submission is taken as one sequential step. The progress text, the reset of progress to 0, and the accordion state are not modelled.
- Progress percentages are exact rationals (`BatchRunner.Percent`), not floating point.
- Blob and anchor downloads, `FileReader` imports (`handleImport`, `handleFileChange`, `handleVoiceSampleImport`) and setting the stem file name from a file picker: browser I/O.
- `window.dispatchEvent(new Event('storage'))` after a stem split: a browser event.
- The simulated latencies (`setTimeout`, `Math.random`) and the unused prompt text of the two simulated services: timing, randomness and logging.
- The localised error wording comes from `translations.ts`, which is not part of this model. Each rejection is the `Notice` value naming the check that failed.
- The JSON exports of the dubbing and enhancer results: `JSON.stringify` of an existing list. The podcast JSON export is modelled as the value before stringification (`PodcastEditor.ExportJsonValue`).
- `generateMusicDescription`, `analyzeScript`, `generateTTScriptSuggestion` and `generateSoundEffect`, and the panels that call them: single-call wrappers outside the modelled core.
- Text.ToLower: only ASCII letters change case (likewise Text.ToUpper); the Unicode case mapping of `toLowerCase`/`toUpperCase` is not modelled.
- GeminiService.AnalyzeAudioForEnhancement: the clarity score is a whole number; a decoded score with a fraction is not modelled.
- SubtitleGenerator.SubtitlePanel.Submit: the outer `catch` (an exception outside the per-call `try`) is not modelled; no modelled step throws there.
- DubbingStudio.DubbingPanel.Submit: the outer `catch` is not modelled, as for the other panels' Submit methods (PodcastEditor.PodcastPanel.Submit, AudioEnhancer.EnhancerPanel.Submit, StemSplitter.StemPanel.Submit).
- DubbingStudio.CsvLines: the line-per-row split is stated only for values without a line feed; a value with one stays inside its quoted field and spans lines, as RFC 4180 allows.
- PodcastEditor.ShowNotesKeepPart: the two ends of the template (the title heading and the blog post), which `trim` can reach, are not stated to survive verbatim.
- AudioEnhancer.ReportKeepsPart: likewise the first line of the report and the tips list, which `trim` can reach.
- Storage.LocalStorage.AddJobs: a counter write that throws is not modelled; the source would land in the outer `catch` of the run, which is left out as above.
- AudioEnhancer.EnhancerPanel.constructor: a stored preset list that fails `JSON.parse` (the source shows an error) is not modelled; the loaded list is the stored one.
- SubtitleGenerator.ReplaceTimestampCommas: JavaScript regular expressions in general are not modelled; the one pattern `(\d{2}:\d{2}:\d{2}),(\d{3})` with its left-to-right, non-overlapping search is written out.

## Findings

| source | as written | input that shows it | evidently intended | confidence | as-written member | corrected member |
|---|---|---|---|---|---|---|
| src/components/SubtitleGenerator.tsx:130-136 | `handleExportAll` reads `result.error` for every selected language, but a language selected after the run has no result, so `result` is undefined and the export throws a TypeError | a run with Spanish, then French selected, then Export all | skip languages without a result, so the export reflects every result that exists | high (not executed) | SubtitleGenerator.ExportTextAsWritten, SubtitleGenerator.ExportAfterNewLanguageThrows | SubtitleGenerator.ExportAll, SubtitleGenerator.ExportAgreesWhenAllPresent |
