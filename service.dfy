/**
  * The deterministic part of the service layer: the instruction each tool sends to the
  * generation endpoint, the rule that every failure is rethrown with a fixed,
  * function-specific message, and the two client-side simulations (text-to-speech
  * and stem splitting), which build file names and confirmations from their inputs.
  * The endpoint itself is a parameter: a function from the instruction to the
  * decoded answer or the error it raised.
  */
module GeminiService {
  import opened Text
  import opened BatchRunner

  // ---------------------------------------------------------------------------
  // Payloads decoded from the endpoint's JSON answers
  // ---------------------------------------------------------------------------

  /** `AudioAnalysisResult`; the clarity score is taken as a whole number. */
  datatype AudioAnalysis = AudioAnalysis(
    vocalClarityScore: int,
    detectedIssues: seq<string>,
    recommendedActions: seq<string>,
    clarityImprovementTips: seq<string>)

  datatype Topic = Topic(timestamp: string, topic: string)
  datatype Chapter = Chapter(timestamp: string, title: string)

  /** `PodcastNotesResult`. */
  datatype PodcastNotes = PodcastNotes(
    summary: string,
    keyTopics: seq<Topic>,
    youtubeChapters: seq<Chapter>,
    speakers: seq<string>,
    editingNotes: seq<string>,
    socialMediaSnippets: seq<string>,
    blogPost: string)

  // ---------------------------------------------------------------------------
  // Rethrowing
  // ---------------------------------------------------------------------------

  /** `try { ... } catch (error) { throw new Error(message) }`: a success passes through
      untouched, and whatever went wrong surfaces as the fixed `message`, never as the
      original error. */
  function Rethrow<P>(o: Outcome<P>, message: string): (r: Outcome<P>)
    ensures r.Success? <==> o.Success?
    ensures o.Success? ==> r == o
    ensures r.Failure? ==> r.message == message
  {
    match o
    case Success(_) => o
    case Failure(_) => Failure(message)
  }

  const DUBBING_FAILED: string := "Failed to generate dubbing script. Please check your API key and network connection."
  const ANALYSIS_FAILED: string := "Failed to analyze audio. Please check your API key and network connection."
  const PODCAST_NOTES_FAILED: string := "Failed to generate podcast notes. Please check your API key and network connection."
  const STEM_SPLIT_FAILED: string := "Failed to split audio. Please try again."

  const SUBTITLES_FAILED_LEAD: string := "Failed to generate subtitles for "
  const SUBTITLES_FAILED_TAIL: string := ". Please check your API key and network connection."

  /** The subtitle failure names the language whose call failed. */
  function SubtitlesFailed(language: string): (m: string)
    ensures Contains(m, language)
  {
    OccursBetween(SUBTITLES_FAILED_LEAD, language, SUBTITLES_FAILED_TAIL);
    SUBTITLES_FAILED_LEAD + language + SUBTITLES_FAILED_TAIL
  }

  // ---------------------------------------------------------------------------
  // generateDubbingScript
  // ---------------------------------------------------------------------------

  const AUTO_DETECT: string := "Auto-detect"
  const DEFAULT_TONE: string := "Default"

  const TONE_LEAD: string := "Critically, the script's tone must be adapted to be "

  /** The tone sentence: empty for the 'Default' tone, otherwise a sentence naming the tone. */
  function ToneInstruction(tone: string): (r: string)
    ensures r == "" <==> tone == DEFAULT_TONE
    ensures tone != DEFAULT_TONE ==> Contains(r, tone)
  {
    if tone == DEFAULT_TONE then ""
    else
      OccursBetween(TONE_LEAD, tone, ".");
      TONE_LEAD + tone + "."
  }

  const VOICE_LEAD: string := "The translated script should be written in a style that is suitable for a voice actor whose voice sounds like the one in the sample file \""
  const VOICE_TAIL: string := "\". This means capturing the cadence, emotion, and general speaking style implied by the sample."

  /** The voice-style sentence: empty when no voice sample was given (a missing name and
      an empty name are the same here, both being falsy), otherwise a sentence quoting
      the sample's file name. */
  function VoiceInstruction(voiceSampleName: string): (r: string)
    ensures r == "" <==> voiceSampleName == ""
    ensures voiceSampleName != "" ==> Contains(r, voiceSampleName)
  {
    if voiceSampleName == "" then ""
    else
      OccursBetween(VOICE_LEAD, voiceSampleName, VOICE_TAIL);
      VOICE_LEAD + voiceSampleName + VOICE_TAIL
  }

  const DUBBING_ROLE: string := "You are an expert script adapter for video dubbing. "
  const DUBBING_TRANSLATE: string := "Translate the following script "
  const DUBBING_DETECT: string := "First, auto-detect the language of the provided script. Then, "
  const INTO_ENGLISH: string := "translate it into English."
  const DUBBING_STYLE: string := " Adapt the language to be natural for voice-over and maintain the original tone. "
  const DUBBING_CLOSE: string := " Provide only the translated script. Script:\n\n"

  /** The sentence naming the translation's target. */
  function TargetSentence(targetLanguage: string): (t: string)
    ensures targetLanguage == AUTO_DETECT ==> Contains(t, INTO_ENGLISH)
    ensures targetLanguage != AUTO_DETECT ==> Contains(t, "into " + targetLanguage + ".")
  {
    if targetLanguage == AUTO_DETECT then
      OccursBetween(DUBBING_DETECT, INTO_ENGLISH, "");
      assert DUBBING_DETECT + INTO_ENGLISH + "" == DUBBING_DETECT + INTO_ENGLISH;
      DUBBING_DETECT + INTO_ENGLISH
    else
      OccursBetween(DUBBING_TRANSLATE, "into " + targetLanguage + ".", "");
      assert DUBBING_TRANSLATE + ("into " + targetLanguage + ".") + "" == DUBBING_TRANSLATE + "into " + targetLanguage + ".";
      DUBBING_TRANSLATE + "into " + targetLanguage + "."
  }

  /** The instruction sent for one script. 'Auto-detect' selects the alternate wording
      that detects the language and translates into English; any other target is named
      verbatim. Either way the tone and voice sentences are included and the script
      comes last, unchanged. */
  function DubbingPrompt(script: string, targetLanguage: string, tone: string, voiceSampleName: string): (p: string)
    ensures targetLanguage == AUTO_DETECT ==> Contains(p, INTO_ENGLISH)
    ensures targetLanguage != AUTO_DETECT ==> Contains(p, "into " + targetLanguage + ".")
    ensures Contains(p, ToneInstruction(tone)) && Contains(p, VoiceInstruction(voiceSampleName))
    ensures |p| >= |script| && p[|p| - |script|..] == script
  {
    var target := TargetSentence(targetLanguage);
    var tn := ToneInstruction(tone);
    var vc := VoiceInstruction(voiceSampleName);
    PromptLayout(DUBBING_ROLE, target, DUBBING_STYLE, tn, vc, DUBBING_CLOSE, script);
    DUBBING_ROLE + target + DUBBING_STYLE + tn + " " + vc + DUBBING_CLOSE + script
  }

  /** Where the pieces of a dubbing prompt end up: whatever the target sentence
      contains, the tone and voice sentences, and the script as the suffix. */
  lemma PromptLayout(role: string, target: string, style: string, tn: string, vc: string, close: string, script: string)
    ensures var p := role + target + style + tn + " " + vc + close + script;
      && (forall x :: Contains(target, x) ==> Contains(p, x))
      && Contains(p, tn) && Contains(p, vc)
      && |p| >= |script| && p[|p| - |script|..] == script
  {
    var p := role + target + style + tn + " " + vc + close + script;
    forall x | Contains(target, x) ensures Contains(p, x) {
      var i :| OccursAt(target, x, i);
      assert p[|role| + i..|role| + i + |x|] == target[i..i + |x|];
      assert OccursAt(p, x, |role| + i);
    }
    OccursBetweenTwo(role + target + style, tn, " ", vc, close + script);
    assert role + target + style + tn + " " + vc + (close + script) == p;
  }

  /** `generateDubbingScript`: the endpoint's text for the prompt, or the fixed message. */
  function GenerateDubbingScript(script: string, targetLanguage: string, tone: string,
                                 voiceSampleName: string, endpoint: string -> Outcome<string>): (r: Outcome<string>)
    ensures r.Success? ==> r == endpoint(DubbingPrompt(script, targetLanguage, tone, voiceSampleName))
    ensures r.Failure? ==> r.message == DUBBING_FAILED
  {
    Rethrow(endpoint(DubbingPrompt(script, targetLanguage, tone, voiceSampleName)), DUBBING_FAILED)
  }

  // ---------------------------------------------------------------------------
  // generateSubtitles, analyzeAudioForEnhancement, generatePodcastEditingNotes
  // ---------------------------------------------------------------------------

  const SUBTITLE_LEAD: string := "You are an expert subtitle generator. Translate the following transcript to "
  const SUBTITLE_TASK: string := " and then format the entire output as a standard .SRT subtitle file. Create plausible, sequential timestamps for each subtitle entry based on sentence length and natural speaking rhythm. "
  const SUBTITLE_RULES: string := "The first timestamp should start around 00:00:01,000. Ensure the format is strictly adhered to (entry number, timestamp, text). Only output the raw SRT content and nothing else.\n\nTranscript:\n"

  function SubtitlePrompt(transcript: string, language: string): string {
    SUBTITLE_LEAD + language + SUBTITLE_TASK + SUBTITLE_RULES + transcript
  }

  /** `generateSubtitles`: a failure names the language it was for. */
  function GenerateSubtitles(transcript: string, language: string, endpoint: string -> Outcome<string>): (r: Outcome<string>)
    ensures r.Success? ==> r == endpoint(SubtitlePrompt(transcript, language))
    ensures r.Failure? ==> r.message == SubtitlesFailed(language)
  {
    Rethrow(endpoint(SubtitlePrompt(transcript, language)), SubtitlesFailed(language))
  }

  const ANALYSIS_LEAD: string := "Act as a professional audio engineer. A user has 'uploaded' an audio file named \""
  const ANALYSIS_PRESET: string := "\" and selected the \""
  const ANALYSIS_TASK: string := "\" preset for enhancement. Based on this preset, provide a hypothetical analysis. "
  const ANALYSIS_RULES: string := "Do not state that you cannot process the file; instead, provide a typical analysis for such a scenario. Generate a vocal clarity score from 1-10 and provide specific, actionable tips."

  function AnalysisPrompt(filename: string, preset: string): string {
    ANALYSIS_LEAD + filename + ANALYSIS_PRESET + preset + ANALYSIS_TASK + ANALYSIS_RULES
  }

  /** `analyzeAudioForEnhancement`: the decoded report, or the fixed message (also when
      the answer does not decode). */
  function AnalyzeAudioForEnhancement(filename: string, preset: string, endpoint: string -> Outcome<AudioAnalysis>): (r: Outcome<AudioAnalysis>)
    ensures r.Success? ==> r == endpoint(AnalysisPrompt(filename, preset))
    ensures r.Failure? ==> r.message == ANALYSIS_FAILED
  {
    Rethrow(endpoint(AnalysisPrompt(filename, preset)), ANALYSIS_FAILED)
  }

  const SPEAKERS_LEAD: string := "The known speakers are: "
  const SPEAKERS_TAIL: string := ". Use these names to identify who is speaking in the transcript. If you can identify them, list their names."
  const SPEAKERS_UNKNOWN: string := "Attempt to identify the different speakers in the transcript (e.g., \"Speaker 1\", \"Host\")."

  /** The speaker sentence: the given names when there are any, otherwise a request to
      identify the speakers. */
  function SpeakerInstruction(speakerNames: string): (r: string)
    ensures speakerNames != "" ==> Contains(r, speakerNames)
    ensures speakerNames == "" ==> r == SPEAKERS_UNKNOWN
  {
    if speakerNames != "" then
      OccursBetween(SPEAKERS_LEAD, speakerNames, SPEAKERS_TAIL);
      SPEAKERS_LEAD + speakerNames + SPEAKERS_TAIL
    else SPEAKERS_UNKNOWN
  }

  const PODCAST_LEAD: string := "You are an AI podcast production assistant. Analyze the following podcast transcript. "
  const PODCAST_TASK: string := " Your main task is to generate a comprehensive set of production notes. This includes:\n"
  const PODCAST_ITEM_1: string := "1. A brief summary.\n"
  const PODCAST_ITEM_2: string := "2. A list of key topics with plausible timestamps.\n"
  const PODCAST_ITEM_3: string := "3. A list of YouTube-friendly chapter titles with timestamps (starting at 00:00:00). These titles should be concise and engaging for a video audience.\n"
  const PODCAST_ITEM_4: string := "4. A list of identified speakers.\n"
  const PODCAST_ITEM_5: string := "5. Actionable editing notes (identifying filler words, long silences).\n"
  const PODCAST_ITEM_6: string := "6. Engaging social media snippets.\n"
  const PODCAST_ITEM_7: string := "7. A short, well-structured blog post based on the transcript.\n\nTranscript:\n"

  function PodcastPrompt(transcript: string, speakerNames: string): string {
    PODCAST_LEAD + SpeakerInstruction(speakerNames) + PODCAST_TASK
    + PODCAST_ITEM_1 + PODCAST_ITEM_2 + PODCAST_ITEM_3 + PODCAST_ITEM_4
    + PODCAST_ITEM_5 + PODCAST_ITEM_6 + PODCAST_ITEM_7
    + transcript
  }

  /** `generatePodcastEditingNotes`. */
  function GeneratePodcastEditingNotes(transcript: string, speakerNames: string, endpoint: string -> Outcome<PodcastNotes>): (r: Outcome<PodcastNotes>)
    ensures r.Success? ==> r == endpoint(PodcastPrompt(transcript, speakerNames))
    ensures r.Failure? ==> r.message == PODCAST_NOTES_FAILED
  {
    Rethrow(endpoint(PodcastPrompt(transcript, speakerNames)), PODCAST_NOTES_FAILED)
  }

  // ---------------------------------------------------------------------------
  // generateTextToSpeech (simulated)
  // ---------------------------------------------------------------------------

  datatype TtsResult = TtsResult(confirmation: string, fileName: string)

  /** `voice.split(' ')[0].toLowerCase()`. */
  function VoiceWord(voice: string): (w: string)
    ensures !Contains(w, " ")
  {
    SplitPiecesLackSeparator(voice, " ");
    var first := Split(voice, " ")[0];
    LowerKeepsSpaceFree(first);
    ToLower(first)
  }

  lemma LowerKeepsSpaceFree(s: string)
    requires !Contains(s, " ")
    ensures !Contains(ToLower(s), " ")
  {
    forall i | OccursAt(ToLower(s), " ", i) ensures false {
      assert ToLower(s)[i] == ' ';
      assert s[i..i + 1] == [s[i]];
      assert OccursAt(s, " ", i);
    }
  }

  /** The simulated audio file's name: the text's first 20 UTF-16 code units sanitised
      to `[a-z0-9_]`, an underscore, the voice's first word in lower case, and ".mp3".
      The source cuts before it sanitises; since sanitising turns each code unit into
      one character (half of a surrogate pair included), cutting the sanitised text
      after 20 characters is the same. */
  function TtsFileName(text: string, voice: string): (r: string)
  {
    Prefix(Sanitise(text), 20) + "_" + VoiceWord(voice) + ".mp3"
  }

  /** What the file name is made of: a sanitised stem of min(20, JavaScript length)
      characters, then '_', then the voice's first word (no space in it), then the
      extension. For a text in the Basic Multilingual Plane the stem comes from the
      text's first min(20, length) characters, letters and digits kept in lower case. */
  lemma TtsFileNameParts(text: string, voice: string)
    ensures var r := TtsFileName(text, voice);
      var n := if Utf16Length(text) < 20 then Utf16Length(text) else 20;
      && |r| == n + 1 + |VoiceWord(voice)| + 4
      && (forall i :: 0 <= i < n ==> IsFileNameChar(r[i]))
      && (InBmp(text) ==> n == (if |text| < 20 then |text| else 20))
      && (InBmp(text) ==> forall i :: 0 <= i < n && IsAsciiAlnum(text[i]) ==> r[i] == LowerChar(text[i]))
      && (InBmp(text) ==> forall i :: 0 <= i < n && !IsAsciiAlnum(text[i]) ==> r[i] == '_')
      && r[n] == '_'
      && r[n + 1..|r| - 4] == VoiceWord(voice)
      && r[|r| - 4..] == ".mp3"
  {
    var r := TtsFileName(text, voice);
    var stem := Prefix(Sanitise(text), 20);
    var n := |stem|;
    assert r == stem + "_" + VoiceWord(voice) + ".mp3";
    assert forall i :: 0 <= i < n ==> r[i] == stem[i];
    assert forall i :: 0 <= i < n ==> stem[i] == Sanitise(text)[i];
    if InBmp(text) {
      SanitiseBmp(text);
    }
  }

  /** Two texts that agree on their first 20 UTF-16 code units get the same file name. */
  lemma TtsFileNameIgnoresTail(text: string, more: string, voice: string)
    requires Utf16Length(text) >= 20
    ensures TtsFileName(text + more, voice) == TtsFileName(text, voice)
  {
    SanitiseAppend(text, more);
    var x := Sanitise(text);
    assert (x + Sanitise(more))[..20] == x[..20];
  }

  /** A text of ten emoji and ten letters: the emoji fill the whole stem, two
      underscores each, and the letters are cut off. */
  lemma TtsFileNameCountsCodeUnits(c: char, letters: string, voice: string)
    requires c as int >= 0x10000
    ensures TtsFileName(seq(10, _ => c) + letters, voice) == seq(20, _ => '_') + "_" + VoiceWord(voice) + ".mp3"
  {
    var emoji := seq(10, _ => c);
    SanitiseAppend(emoji, letters);
    AllAstralSanitised(emoji, c);
    var x := Sanitise(emoji);
    assert (x + Sanitise(letters))[..20] == x;
  }

  lemma {:induction false} AllAstralSanitised(s: string, c: char)
    requires c as int >= 0x10000 && forall i :: 0 <= i < |s| ==> s[i] == c
    ensures Sanitise(s) == seq(2 * |s|, _ => '_')
    decreases |s|
  {
    if s != [] {
      AllAstralSanitised(s[1..], c);
      assert Sanitise(s) == "__" + Sanitise(s[1..]);
    }
  }

  const TTS_CONFIRMATION: string := "Successfully generated audio for the provided text with the voice "

  /** `generateTextToSpeech`: the confirmation quotes the voice; the file name is built
      from the text and the voice. */
  function GenerateTextToSpeech(text: string, voice: string): (r: TtsResult)
    ensures r.fileName == TtsFileName(text, voice)
    ensures Contains(r.confirmation, "\"" + voice + "\"")
  {
    OccursBetween(TTS_CONFIRMATION, "\"" + voice + "\"", ".");
    TtsResult(TTS_CONFIRMATION + ("\"" + voice + "\"") + ".", TtsFileName(text, voice))
  }

  // ---------------------------------------------------------------------------
  // splitAudioStems (simulated)
  // ---------------------------------------------------------------------------

  datatype Stem = Stem(name: string, filename: string)
  datatype StemSplitResult = StemSplitResult(confirmation: string, stems: seq<Stem>)

  /** `filename.split('.')[0].replace(/[^a-zA-Z0-9]/g, '_').toLowerCase()`: the part
      before the first dot, sanitised. */
  function StemBase(filename: string): (r: string)
    ensures forall i :: 0 <= i < |r| ==> IsFileNameChar(r[i])
  {
    Sanitise(Split(filename, ".")[0])
  }

  /** One output file's name: the base, '_', the stem in lower case, ".wav". */
  function StemFileName(filename: string, stem: string): string {
    StemBase(filename) + "_" + ToLower(stem) + ".wav"
  }

  /** Two stems give the same output file of one input exactly when their names agree
      ignoring case. */
  lemma StemFileNamesDistinct(filename: string, a: string, b: string)
    ensures StemFileName(filename, a) == StemFileName(filename, b) <==> ToLower(a) == ToLower(b)
  {
    var base := StemBase(filename) + "_";
    var fa, fb := StemFileName(filename, a), StemFileName(filename, b);
    assert fa[|base|..|fa| - 4] == ToLower(a);
    assert fb[|base|..|fb| - 4] == ToLower(b);
  }

  const STEMS_CONFIRMATION: string := "Successfully split "

  /** `splitAudioStems`: one entry per requested stem, in the requested order, named after
      it, and a confirmation that quotes the file and states how many stems there are. */
  function SplitAudioStems(filename: string, stemsToExtract: seq<string>): (r: StemSplitResult)
    ensures |r.stems| == |stemsToExtract|
    ensures forall k :: 0 <= k < |stemsToExtract| ==>
      r.stems[k].name == stemsToExtract[k] && r.stems[k].filename == StemFileName(filename, stemsToExtract[k])
    ensures Contains(r.confirmation, "\"" + filename + "\"")
    ensures Contains(r.confirmation, " " + NatToString(|stemsToExtract|) + " ")
  {
    var count := NatToString(|stemsToExtract|);
    var stems := seq(|stemsToExtract|, k requires 0 <= k < |stemsToExtract| =>
      Stem(stemsToExtract[k], StemFileName(filename, stemsToExtract[k])));
    OccursBetweenTwo(STEMS_CONFIRMATION, "\"" + filename + "\"", " into", " " + count + " ", "stems.");
    StemSplitResult(STEMS_CONFIRMATION + ("\"" + filename + "\"") + " into" + (" " + count + " ") + "stems.", stems)
  }
}
