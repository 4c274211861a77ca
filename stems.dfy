/**
  * The stem splitter panel: one audio file name and a selection among four stems
  * (all four at first) go to the stem-splitting service in one call; a success is
  * shown and counted once in the usage counter, a failure shows its message.
  */
module StemSplitter {
  import opened Text
  import opened BatchRunner
  import opened Storage
  import opened GeminiService
  import opened Selection

  const STEMS: seq<string> := ["Vocals", "Drums", "Bass", "Other"]

  /** What a rejected or failed submission reports (the localised wording of the first
      two is not modelled). */
  datatype Notice = FileRequired | StemRequired | Failed(message: string)

  /** The splitting call for one file and a list of stems. */
  type Splitter = (string, seq<string>) -> Outcome<StemSplitResult>

  /** The service call the panel makes: the simulated `splitAudioStems`, which never
      throws. */
  function Splitting(): Splitter {
    (filename, stems) => Success(SplitAudioStems(filename, stems))
  }

  /** The service's split always succeeds, with one output per requested stem, in the
      requested order, named after it. */
  lemma SplittingSucceeds(filename: string, stems: seq<string>)
    ensures Splitting()(filename, stems).Success?
    ensures var r := Splitting()(filename, stems).value;
      && |r.stems| == |stems|
      && forall k :: 0 <= k < |stems| ==> r.stems[k].name == stems[k] && r.stems[k].filename == StemFileName(filename, stems[k])
  {
  }

  /** The four stems differ from each other even ignoring case. */
  lemma StemsDifferIgnoringCase(i: nat, j: nat)
    requires i < j < |STEMS|
    ensures ToLower(STEMS[i]) != ToLower(STEMS[j])
  {
    assert ToLower(STEMS[0])[0] == 'v' && ToLower(STEMS[1])[0] == 'd';
    assert ToLower(STEMS[2])[0] == 'b' && ToLower(STEMS[3])[0] == 'o';
  }

  /** A selection the panel can reach: stems from the four offered, none twice. */
  predicate ValidSelection(selected: seq<string>) {
    NoDuplicates(selected) && forall k :: 0 <= k < |selected| ==> selected[k] in STEMS
  }

  /** The initial selection is valid. */
  lemma InitialSelectionValid()
    ensures ValidSelection(STEMS)
  {
    forall i, j | 0 <= i < j < |STEMS| ensures STEMS[i] != STEMS[j] {
      StemsDifferIgnoringCase(i, j);
    }
  }

  /** Toggling an offered stem keeps the selection valid. */
  lemma ToggleKeepsSelectionValid(selected: seq<string>, stem: string)
    requires ValidSelection(selected) && stem in STEMS
    ensures ValidSelection(Toggle(selected, stem))
  {
    ToggleKeepsNoDuplicates(selected, stem);
    var r := Toggle(selected, stem);
    forall k | 0 <= k < |r| ensures r[k] in STEMS {
      if r[k] != stem {
        assert r[k] in selected;
      }
    }
  }

  /** For a valid selection, no two output files of a split share a name. */
  lemma SplitFilesDistinct(filename: string, selected: seq<string>, a: nat, b: nat)
    requires ValidSelection(selected) && a < b < |selected|
    ensures StemFileName(filename, selected[a]) != StemFileName(filename, selected[b])
  {
    var i :| 0 <= i < |STEMS| && STEMS[i] == selected[a];
    var j :| 0 <= j < |STEMS| && STEMS[j] == selected[b];
    if i < j {
      StemsDifferIgnoringCase(i, j);
    } else {
      StemsDifferIgnoringCase(j, i);
    }
    StemFileNamesDistinct(filename, selected[a], selected[b]);
  }

  class StemPanel {
    var filename: string
    var selectedStems: seq<string>
    var result: Option<StemSplitResult>
    var isLoading: bool
    var error: Option<Notice>

    constructor ()
      ensures filename == "" && selectedStems == STEMS && result == None && !isLoading && error == None
    {
      filename := "";
      selectedStems := STEMS;
      result := None;
      isLoading := false;
      error := None;
    }

    /** `handleStemToggle`: the stem is dropped if selected, otherwise appended. */
    method ToggleStem(stem: string)
      modifies this`selectedStems
      ensures selectedStems == Toggle(old(selectedStems), stem)
    {
      selectedStems := Toggle(selectedStems, stem);
    }

    /** `handleSubmit`. A blank file name or an empty selection is reported and no call
        is made; otherwise the file and the selection go to `split` once: a success is
        shown and the counter grows by one, a failure shows its message and leaves the
        counter alone. Returns whether the call was made. `split` is the service's call,
        which the application binds as `Splitting()`. */
    method Submit(split: Splitter, store: LocalStorage) returns (called: bool)
      modifies this`result, this`isLoading, this`error, store`counters
      ensures called <==> !old(IsBlank(filename)) && |selectedStems| > 0
      ensures old(IsBlank(filename)) ==> error == Some(FileRequired)
      ensures !old(IsBlank(filename)) && |selectedStems| == 0 ==> error == Some(StemRequired)
      ensures !called ==> result == old(result) && isLoading == old(isLoading) && store.counters == old(store.counters)
      ensures called ==> !isLoading && match split(filename, selectedStems)
        case Success(r) =>
          result == Some(r) && error == None && store.counters == AddedJobs(old(store.counters), STEM_SPLITTER_JOBS, 1)
        case Failure(message) =>
          result == None && error == Some(Failed(message)) && store.counters == old(store.counters)
    {
      if IsBlank(filename) {
        error := Some(FileRequired);
        return false;
      }
      if |selectedStems| == 0 {
        error := Some(StemRequired);
        return false;
      }
      SplitAndRecord(split, store);
      called := true;
    }

    /** A submission that passed validation: the call, then the result and the counter. */
    method SplitAndRecord(split: Splitter, store: LocalStorage)
      modifies this`result, this`isLoading, this`error, store`counters
      ensures !isLoading && match split(filename, selectedStems)
        case Success(r) =>
          result == Some(r) && error == None && store.counters == AddedJobs(old(store.counters), STEM_SPLITTER_JOBS, 1)
        case Failure(message) =>
          result == None && error == Some(Failed(message)) && store.counters == old(store.counters)
    {
      isLoading := true;
      error := None;
      result := None;
      var outcome := split(filename, selectedStems);
      match outcome {
        case Success(r) =>
          result := Some(r);
          store.AddJobs(STEM_SPLITTER_JOBS, 1);
        case Failure(message) =>
          error := Some(Failed(message));
      }
      isLoading := false;
    }
  }
}
