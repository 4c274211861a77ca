/**
  * The podcast editor panel: a transcript (or a batch of transcripts) is turned into
  * production notes, one service call per transcript, with the optional speaker
  * names. Every transcript gets a result holding its notes or its error; the usage
  * counter grows by the number of successes. The results can be exported as
  * Markdown or plain-text show notes, or as the list of notes.
  */
module PodcastEditor {
  import opened Text
  import opened BatchRunner
  import opened Storage
  import opened GeminiService
  import opened Markup

  /** One transcript's result, `id` being its position in the batch. */
  datatype PodcastResult = PodcastResult(id: nat, notes: Option<PodcastNotes>, error: Option<string>)

  /** What a rejected submission reports (the localised wording is not modelled). */
  datatype Notice = TranscriptRequired

  /** The generation call for one transcript, with the speaker names. */
  type NotesGenerator = (string, string) -> Outcome<PodcastNotes>

  /** The service call the panel makes. */
  function EditingNotes(endpoint: string -> Outcome<PodcastNotes>): NotesGenerator {
    (transcript, speakerNames) => GeneratePodcastEditingNotes(transcript, speakerNames, endpoint)
  }

  /** Every call of a run is the service's `generatePodcastEditingNotes`: the endpoint's
      notes for the prompt of that transcript and those speakers, or the fixed message. */
  lemma EditingNotesCallService(endpoint: string -> Outcome<PodcastNotes>, transcript: string, speakerNames: string)
    ensures EditingNotes(endpoint)(transcript, speakerNames).Success? ==>
      EditingNotes(endpoint)(transcript, speakerNames) == endpoint(PodcastPrompt(transcript, speakerNames))
    ensures EditingNotes(endpoint)(transcript, speakerNames).Failure? ==>
      EditingNotes(endpoint)(transcript, speakerNames).message == PODCAST_NOTES_FAILED
  {
  }

  /** The per-transcript call with the speaker names fixed. */
  function WithSpeakers(generate: NotesGenerator, speakerNames: string): string -> Outcome<PodcastNotes> {
    transcript => generate(transcript, speakerNames)
  }

  /** The record pushed for call number `id`: exactly one of `notes` and `error` is set,
      holding the call's notes or its message. */
  function ToPodcastResult(id: nat, outcome: Outcome<PodcastNotes>): (r: PodcastResult)
    ensures r.id == id
    ensures r.notes.Some? != r.error.Some?
    ensures r.notes.Some? <==> outcome.Success?
    ensures outcome.Success? ==> r.notes.value == outcome.value
    ensures outcome.Failure? ==> r.error.value == outcome.message
  {
    match outcome
    case Success(notes) => PodcastResult(id, Some(notes), None)
    case Failure(message) => PodcastResult(id, None, Some(message))
  }

  function ToPodcastResults(outcomes: seq<Outcome<PodcastNotes>>): seq<PodcastResult> {
    seq(|outcomes|, k requires 0 <= k < |outcomes| => ToPodcastResult(k, outcomes[k]))
  }

  // ---------------------------------------------------------------------------
  // Show notes
  // ---------------------------------------------------------------------------

  function Bold(format: ExportFormat, text: string): string {
    if format == Markdown then "**" + text + "**" else text
  }

  function Blockquote(format: ExportFormat, text: string): string {
    if format == Markdown then "> " + text else "\"" + text + "\""
  }

  const SHOW_NOTES_TITLE: string := "Podcast Show Notes (Transcript "
  const SUMMARY_HEADING: string := "Summary\n"
  const SPEAKERS_HEADING: string := "Speakers Identified\n"
  const TOPICS_HEADING: string := "Key Topics\n"
  const CHAPTERS_HEADING: string := "YouTube Chapters\n"
  const EDITING_HEADING: string := "Editing Notes\n"
  const SNIPPETS_HEADING: string := "Social Media Snippets\n"
  const BLOG_HEADING: string := "Generated Blog Post\n"
  const SECTION_BREAK: string := "\n\n"
  /** The template literal's last line, the indentation before its closing backtick. */
  const TEMPLATE_END: string := "\n    "

  /** One quotation per entry. */
  function Quotes(format: ExportFormat, entries: seq<string>): (r: seq<string>)
    ensures |r| == |entries|
    ensures forall k :: 0 <= k < |entries| ==> r[k] == Blockquote(format, entries[k])
  {
    seq(|entries|, k requires 0 <= k < |entries| => Blockquote(format, entries[k]))
  }

  function SpeakerLines(format: ExportFormat, speakers: seq<string>): string {
    Join(Bullets(format, speakers), "\n")
  }

  function TopicLines(format: ExportFormat, topics: seq<Topic>): string {
    Join(seq(|topics|, k requires 0 <= k < |topics| =>
           Li(format) + Bold(format, "[" + topics[k].timestamp + "]") + " " + topics[k].topic), "\n")
  }

  function ChapterLines(format: ExportFormat, chapters: seq<Chapter>): string {
    Join(seq(|chapters|, k requires 0 <= k < |chapters| =>
           Li(format) + Bold(format, "[" + chapters[k].timestamp + "]") + " " + chapters[k].title), "\n")
  }

  function EditingLines(format: ExportFormat, editingNotes: seq<string>): string {
    Join(Bullets(format, editingNotes), "\n")
  }

  function SnippetLines(format: ExportFormat, snippets: seq<string>): string {
    Join(Quotes(format, snippets), "\n\n")
  }

  const TITLE_END: string := ")\n\n"

  /** The pieces of the show-notes template literal, in order: its leading line break,
      the title line, then one heading and one body per section, and the indentation
      before the closing backtick. */
  function Parts(notes: PodcastNotes, index: nat, format: ExportFormat): (r: seq<string>)
    ensures |r| == 33
  {
    ["\n", H1(format), SHOW_NOTES_TITLE, NatToString(index + 1), TITLE_END,
     H2(format), SUMMARY_HEADING, notes.summary,
     SECTION_BREAK, H2(format), SPEAKERS_HEADING, SpeakerLines(format, notes.speakers),
     SECTION_BREAK, H2(format), TOPICS_HEADING, TopicLines(format, notes.keyTopics),
     SECTION_BREAK, H2(format), CHAPTERS_HEADING, ChapterLines(format, notes.youtubeChapters),
     SECTION_BREAK, H2(format), EDITING_HEADING, EditingLines(format, notes.editingNotes),
     SECTION_BREAK, H2(format), SNIPPETS_HEADING, SnippetLines(format, notes.socialMediaSnippets),
     SECTION_BREAK, H2(format), BLOG_HEADING, notes.blogPost, TEMPLATE_END]
  }

  /** The filled-in template, trimmed. */
  function ShowNotes(notes: PodcastNotes, index: nat, format: ExportFormat): string {
    Trim(Concat(Parts(notes, index, format)))
  }

  /** Trimming only reaches into the template's first and last pieces: every piece from
      the transcript's number to the heading before the blog post survives verbatim. */
  lemma ShowNotesKeepPart(notes: PodcastNotes, index: nat, format: ExportFormat, k: nat)
    requires 3 <= k <= 29
    ensures Contains(ShowNotes(notes, index, format), Parts(notes, index, format)[k])
  {
    var parts := Parts(notes, index, format);
    assert SHOW_NOTES_TITLE[0] == 'P' && BLOG_HEADING[0] == 'G';
    TrimKeepsPart(parts, k, 2, 30);
  }

  /** Where the transcript's number sits in the template. */
  lemma PartsCarryNumber(notes: PodcastNotes, index: nat, format: ExportFormat)
    ensures Parts(notes, index, format)[3] == NatToString(index + 1)
  {
  }

  /** Where the summary sits in the template. */
  lemma PartsCarrySummary(notes: PodcastNotes, index: nat, format: ExportFormat)
    ensures Parts(notes, index, format)[7] == notes.summary
  {
  }

  /** Where the speaker list sits in the template. */
  lemma PartsCarrySpeakers(notes: PodcastNotes, index: nat, format: ExportFormat)
    ensures Parts(notes, index, format)[11] == SpeakerLines(format, notes.speakers)
  {
  }

  /** Where the editing notes sit in the template. */
  lemma PartsCarryEditingNotes(notes: PodcastNotes, index: nat, format: ExportFormat)
    ensures Parts(notes, index, format)[23] == EditingLines(format, notes.editingNotes)
  {
  }

  /** Where the snippets sit in the template. */
  lemma PartsCarrySnippets(notes: PodcastNotes, index: nat, format: ExportFormat)
    ensures Parts(notes, index, format)[27] == SnippetLines(format, notes.socialMediaSnippets)
  {
  }

  /** The show notes carry the transcript's number and the summary verbatim. */
  lemma ShowNotesHaveNumberAndSummary(notes: PodcastNotes, index: nat, format: ExportFormat)
    ensures Contains(ShowNotes(notes, index, format), NatToString(index + 1))
    ensures Contains(ShowNotes(notes, index, format), notes.summary)
  {
    PartsCarryNumber(notes, index, format);
    ShowNotesKeepPart(notes, index, format, 3);
    PartsCarrySummary(notes, index, format);
    ShowNotesKeepPart(notes, index, format, 7);
  }

  /** The show notes carry a list line for every speaker. */
  lemma ShowNotesHaveEverySpeaker(notes: PodcastNotes, index: nat, format: ExportFormat, k: nat)
    requires k < |notes.speakers|
    ensures Contains(ShowNotes(notes, index, format), Li(format) + notes.speakers[k])
  {
    var lines := Bullets(format, notes.speakers);
    JoinContainsEach(lines, "\n", k);
    ShowNotesKeepPart(notes, index, format, 11);
    PartsCarrySpeakers(notes, index, format);
    ContainsTrans(ShowNotes(notes, index, format), SpeakerLines(format, notes.speakers), lines[k]);
  }

  /** The show notes carry a list line for every editing note. */
  lemma ShowNotesHaveEveryEditingNote(notes: PodcastNotes, index: nat, format: ExportFormat, k: nat)
    requires k < |notes.editingNotes|
    ensures Contains(ShowNotes(notes, index, format), Li(format) + notes.editingNotes[k])
  {
    var lines := Bullets(format, notes.editingNotes);
    JoinContainsEach(lines, "\n", k);
    ShowNotesKeepPart(notes, index, format, 23);
    PartsCarryEditingNotes(notes, index, format);
    ContainsTrans(ShowNotes(notes, index, format), EditingLines(format, notes.editingNotes), lines[k]);
  }

  /** The show notes carry every social media snippet, quoted. */
  lemma ShowNotesHaveEverySnippet(notes: PodcastNotes, index: nat, format: ExportFormat, k: nat)
    requires k < |notes.socialMediaSnippets|
    ensures Contains(ShowNotes(notes, index, format), Blockquote(format, notes.socialMediaSnippets[k]))
  {
    var lines := Quotes(format, notes.socialMediaSnippets);
    JoinContainsEach(lines, "\n\n", k);
    ShowNotesKeepPart(notes, index, format, 27);
    PartsCarrySnippets(notes, index, format);
    ContainsTrans(ShowNotes(notes, index, format), SnippetLines(format, notes.socialMediaSnippets), lines[k]);
  }

  const FAILED_LEAD: string := "Notes for Transcript "
  const FAILED_TAIL: string := " failed: "
  const NO_NOTES_LEAD: string := "No notes generated for Transcript "

  /** `formatNotesForExport`: a non-empty error gives the failure line, a result
      without notes the "no notes" line, and notes the show notes. */
  function FormatNotesForExport(result: PodcastResult, index: nat, format: ExportFormat): string {
    if Truthy(result.error) then
      FAILED_LEAD + NatToString(index + 1) + FAILED_TAIL + result.error.value
    else if result.notes.None? then NO_NOTES_LEAD + NatToString(index + 1) + "."
    else ShowNotes(result.notes.value, index, format)
  }

  /** A failure with a non-empty message exports as one line naming the transcript and
      the message; a result with neither notes nor such a message (a failure with an
      empty message) exports as the "no notes" line. */
  lemma FailuresExportAsOneLine(result: PodcastResult, index: nat, format: ExportFormat)
    ensures Truthy(result.error) ==>
      && Contains(FormatNotesForExport(result, index, format), NatToString(index + 1))
      && Contains(FormatNotesForExport(result, index, format), result.error.value)
    ensures !Truthy(result.error) && result.notes.None? ==>
      FormatNotesForExport(result, index, format) == NO_NOTES_LEAD + NatToString(index + 1) + "."
    ensures !Truthy(result.error) && result.notes.Some? ==>
      FormatNotesForExport(result, index, format) == ShowNotes(result.notes.value, index, format)
  {
    if Truthy(result.error) {
      OccursBetweenTwo(FAILED_LEAD, NatToString(index + 1), FAILED_TAIL, result.error.value, "");
      assert FAILED_LEAD + NatToString(index + 1) + FAILED_TAIL + result.error.value + ""
             == FormatNotesForExport(result, index, format);
    }
  }

  const NOTES_DIVIDER: string := "\n\n========================\n\n"

  /** The text of the show-notes export: every result's notes, divided by a rule. */
  function NotesText(results: seq<PodcastResult>, format: ExportFormat): string {
    Join(seq(|results|, i requires 0 <= i < |results| => FormatNotesForExport(results[i], i, format)), NOTES_DIVIDER)
  }

  /** `handleExport`: nothing without results, otherwise the file's name and text. */
  function ExportNotes(results: seq<PodcastResult>, format: ExportFormat): (r: Option<(string, string)>)
    ensures r.None? <==> results == []
    ensures r.Some? ==> r.value.1 == NotesText(results, format)
  {
    if results == [] then None else Some(("podcast_show_notes_batch." + Extension(format), NotesText(results, format)))
  }

  /** The export accounts for every result. */
  lemma ExportHasEveryResult(results: seq<PodcastResult>, format: ExportFormat, i: nat)
    requires i < |results|
    ensures Contains(NotesText(results, format), FormatNotesForExport(results[i], i, format))
  {
    var parts := seq(|results|, i requires 0 <= i < |results| => FormatNotesForExport(results[i], i, format));
    JoinContainsEach(parts, NOTES_DIVIDER, i);
  }

  /** The export joins the results in order: it starts with the first result's text,
      and result i's text follows the export of the results before it and the divider. */
  lemma ExportInOrder(results: seq<PodcastResult>, format: ExportFormat, i: nat)
    requires i < |results|
    ensures i == 0 ==> FormatNotesForExport(results[0], 0, format) <= NotesText(results, format)
    ensures i > 0 ==>
      NotesText(results[..i], format) + NOTES_DIVIDER + FormatNotesForExport(results[i], i, format)
      <= NotesText(results, format)
  {
    var parts := seq(|results|, i requires 0 <= i < |results| => FormatNotesForExport(results[i], i, format));
    if i == 0 {
      JoinStartsWithFirst(parts, NOTES_DIVIDER);
    } else {
      var front := results[..i];
      assert parts[..i] == seq(|front|, k requires 0 <= k < |front| => FormatNotesForExport(front[k], k, format));
      JoinPlacesEach(parts, NOTES_DIVIDER, i);
    }
  }

  /** `handleExportJSON`'s value before stringification: the notes of every result, in
      order, null for a failed one. */
  function ExportJsonValue(results: seq<PodcastResult>): (r: Option<seq<Option<PodcastNotes>>>)
    ensures r.None? <==> results == []
    ensures r.Some? ==> |r.value| == |results| && forall i :: 0 <= i < |results| ==> r.value[i] == results[i].notes
  {
    if results == [] then None else Some(seq(|results|, i requires 0 <= i < |results| => results[i].notes))
  }

  // ---------------------------------------------------------------------------
  // The panel
  // ---------------------------------------------------------------------------

  class PodcastPanel {
    var transcript: string
    var speakerNames: string
    var results: seq<PodcastResult>
    var isLoading: bool
    var error: Option<Notice>
    var isBatchMode: bool

    constructor ()
      ensures transcript == "" && speakerNames == "" && results == []
      ensures !isLoading && error == None && !isBatchMode
    {
      transcript := "";
      speakerNames := "";
      results := [];
      isLoading := false;
      error := None;
      isBatchMode := false;
    }

    /** `handleSubmit`. A blank transcript is reported and no call is made; otherwise
        every work item gets notes in order with the panel's speaker names, the results
        replace the old ones, and the counter grows by the number of successes. Returns
        the calls made and the progress values shown. `generate` is the service's call,
        which the application binds as `EditingNotes(endpoint)`. */
    method Submit(generate: NotesGenerator, store: LocalStorage) returns (calls: seq<string>, progress: seq<Progress>)
      modifies this`results, this`error, this`isLoading, store`counters
      ensures var work := old(Submission(transcript, isBatchMode));
        work.None? ==>
          && error == Some(TranscriptRequired) && calls == [] && progress == [] && isLoading == old(isLoading)
          && results == old(results) && store.counters == old(store.counters)
      ensures var work := old(Submission(transcript, isBatchMode));
        work.Some? ==>
          var outcomes := Outcomes(work.value, WithSpeakers(generate, speakerNames));
          && error == None && !isLoading
          && calls == work.value
          && results == ToPodcastResults(outcomes)
          && progress == ProgressTrail(|work.value|)
          && store.counters == AddedJobs(old(store.counters), PODCAST_JOBS, SuccessCount(outcomes))
    {
      var work := Submission(transcript, isBatchMode);
      if work.None? {
        error := Some(TranscriptRequired);
        calls, progress := [], [];
      } else {
        calls, progress := RunAndRecord(generate, store, work.value);
      }
    }

    /** A submission that passed validation: the run, then the results and the counter. */
    method RunAndRecord(generate: NotesGenerator, store: LocalStorage, items: seq<string>)
      returns (calls: seq<string>, progress: seq<Progress>)
      modifies this`results, this`error, this`isLoading, store`counters
      ensures !isLoading
      ensures var outcomes := Outcomes(items, WithSpeakers(generate, speakerNames));
        && error == None
        && calls == items
        && results == ToPodcastResults(outcomes)
        && progress == ProgressTrail(|items|)
        && store.counters == AddedJobs(old(store.counters), PODCAST_JOBS, SuccessCount(outcomes))
    {
      isLoading := true;
      error := None;
      results := [];
      var outcomes, successfulJobs;
      outcomes, calls, progress, successfulJobs := Run(items, WithSpeakers(generate, speakerNames));
      store.AddJobs(PODCAST_JOBS, successfulJobs);
      results := ToPodcastResults(outcomes);
      isLoading := false;
    }
  }
}
