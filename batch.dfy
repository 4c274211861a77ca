/**
  * The batch runner the dubbing, podcast, enhancer and subtitle panels share:
  * split the input into work items, call the generation service once per item in
  * order, record one outcome per call without stopping at a failure, and report
  * progress as completed out of total after every call.
  */
module BatchRunner {
  import opened Text

  /** What one generation call produced: a payload, or the message of the error it threw. */
  datatype Outcome<+P> = Success(value: P) | Failure(message: string)

  /** Progress after a call: `completed` calls out of `total`. */
  datatype Progress = Progress(completed: nat, total: nat)

  /** The percentage the source displays, `completed / total * 100`, as an exact rational. */
  function Percent(p: Progress): real
    requires p.total > 0
  {
    (p.completed as real) * 100.0 / (p.total as real)
  }

  /** The literal that separates the items of a batch: a blank line, three hyphens, a blank line. */
  const BATCH_SEPARATOR: string := "\n\n---\n\n"

  predicate NotBlank(s: string) {
    !IsBlank(s)
  }

  /** `isBatchMode ? text.split(BATCH_SEPARATOR).filter(s => s.trim() !== '') : [text]`. */
  function WorkItems(text: string, batchMode: bool): seq<string>
  {
    if batchMode then Filter(Split(text, BATCH_SEPARATOR), NotBlank) else [text]
  }

  /** What a text-driven panel runs on submission: nothing for a blank text (the panel
      reports it and makes no call), otherwise the work items of the text. */
  function Submission(text: string, batchMode: bool): (r: Option<seq<string>>)
    ensures r.None? <==> IsBlank(text)
    ensures r.Some? ==> r.value == WorkItems(text, batchMode)
  {
    if IsBlank(text) then None else Some(WorkItems(text, batchMode))
  }

  /** Outside batch mode there is exactly one item, the whole text, whatever it contains. */
  lemma SingleItemOutsideBatch(text: string)
    ensures WorkItems(text, false) == [text]
  {
  }

  /** In batch mode the items are exactly the non-blank segments between separators,
      verbatim (untrimmed) and in order; none of them contains the separator; and when
      no segment is blank, joining the items with the separator gives back the text. */
  lemma BatchItemsAreNonBlankSegments(text: string)
    ensures var items := WorkItems(text, true);
      var segments := Split(text, BATCH_SEPARATOR);
      && items == Filter(segments, NotBlank)
      && (forall k :: 0 <= k < |items| ==> items[k] in segments && !IsBlank(items[k]))
      && (forall k :: 0 <= k < |segments| && !IsBlank(segments[k]) ==> segments[k] in items)
      && (forall k :: 0 <= k < |items| ==> !Contains(items[k], BATCH_SEPARATOR))
      && ((forall k :: 0 <= k < |segments| ==> !IsBlank(segments[k])) ==> Join(items, BATCH_SEPARATOR) == text)
  {
    var segments := Split(text, BATCH_SEPARATOR);
    SplitPiecesLackSeparator(text, BATCH_SEPARATOR);
    FilterMembers(segments, NotBlank);
    if forall k :: 0 <= k < |segments| ==> !IsBlank(segments[k]) {
      FilterKeepsAll(segments, NotBlank);
      JoinSplit(text, BATCH_SEPARATOR);
    }
  }

  /** The first occurrence of the separator decides where `split` cuts. */
  lemma SplitAtFirst(s: string, i: nat)
    requires OccursAt(s, BATCH_SEPARATOR, i)
    requires forall j :: 0 <= j < i ==> !OccursAt(s, BATCH_SEPARATOR, j)
    ensures Split(s, BATCH_SEPARATOR) == [s[..i]] + Split(s[i + |BATCH_SEPARATOR|..], BATCH_SEPARATOR)
  {
    assert IndexOf(s, BATCH_SEPARATOR) == Some(i);
  }

  lemma SplitEmpty()
    ensures Split("", BATCH_SEPARATOR) == [""]
  {
    assert IndexOf("", BATCH_SEPARATOR) == None;
  }

  /** A one-character segment followed by the separator, then `rest`. */
  lemma SplitAfterOneChar(c: char, rest: string)
    requires c != '\n'
    ensures Split([c] + BATCH_SEPARATOR + rest, BATCH_SEPARATOR)
            == [[c]] + Split(rest, BATCH_SEPARATOR)
  {
    var s := [c] + BATCH_SEPARATOR + rest;
    assert s[1..8] == BATCH_SEPARATOR;
    assert !OccursAt(s, BATCH_SEPARATOR, 0) by { assert s[0] != BATCH_SEPARATOR[0]; }
    SplitAtFirst(s, 1);
    assert s[..1] == [c];
    assert s[8..] == rest;
  }

  /** A trailing separator and the blank segment after it produce no item: two
      one-character items, each followed by the separator, give exactly those two. */
  lemma TrailingSeparatorIgnored(a: char, b: char)
    requires !IsWhitespace(a) && !IsWhitespace(b)
    ensures WorkItems([a] + BATCH_SEPARATOR + [b] + BATCH_SEPARATOR, true) == [[a], [b]]
  {
    SplitEmpty();
    SplitAfterOneChar(b, "");
    assert [b] + BATCH_SEPARATOR + "" == [b] + BATCH_SEPARATOR;
    SplitAfterOneChar(a, [b] + BATCH_SEPARATOR);
    assert [a] + BATCH_SEPARATOR + ([b] + BATCH_SEPARATOR) == [a] + BATCH_SEPARATOR + [b] + BATCH_SEPARATOR;
    assert Split([a] + BATCH_SEPARATOR + [b] + BATCH_SEPARATOR, BATCH_SEPARATOR) == [[a], [b], ""];
    OneCharNotBlank(a);
    OneCharNotBlank(b);
    FilterDropsBlankTail([a], [b]);
  }

  lemma FilterDropsBlankTail(a: string, b: string)
    requires NotBlank(a) && NotBlank(b)
    ensures Filter([a, b, ""], NotBlank) == [a, b]
  {
    assert [a, b, ""][1..] == [b, ""];
    assert [b, ""][1..] == [""];
    assert Filter([""], NotBlank) == [];
  }

  lemma OneCharNotBlank(c: char)
    requires !IsWhitespace(c)
    ensures NotBlank([c])
  {
    NotBlankWithVisibleChar([c], 0);
  }

  /** A batch text made only of a separator is not blank, so it passes the panels'
      blank check, yet it yields no item: the run then makes no call and shows no result. */
  lemma SeparatorOnlyExample()
    ensures !IsBlank(BATCH_SEPARATOR)
    ensures WorkItems(BATCH_SEPARATOR, true) == []
  {
    SeparatorNotBlank();
    SplitSeparator();
    assert !NotBlank("");
    assert Filter([""], NotBlank) == [];
  }

  lemma SeparatorNotBlank()
    ensures !IsBlank(BATCH_SEPARATOR)
  {
    NotBlankWithVisibleChar(BATCH_SEPARATOR, 2);
  }

  lemma NotBlankWithVisibleChar(s: string, k: nat)
    requires k < |s| && !IsWhitespace(s[k])
    ensures !IsBlank(s)
  {
    BlankIffAllWhitespace(s);
  }

  lemma SplitSeparator()
    ensures Split(BATCH_SEPARATOR, BATCH_SEPARATOR) == ["", ""]
  {
    var sep := BATCH_SEPARATOR;
    SplitEmpty();
    SplitAtFirst(sep, 0);
    assert sep[..0] == "" && sep[7..] == "";
  }

  // ---------------------------------------------------------------------------
  // The run
  // ---------------------------------------------------------------------------

  /** The outcome of every item's call, in item order. */
  function Outcomes<P>(items: seq<string>, call: string -> Outcome<P>): seq<Outcome<P>>
  {
    seq(|items|, k requires 0 <= k < |items| => call(items[k]))
  }

  /** The number of successful calls. */
  function SuccessCount<P>(os: seq<Outcome<P>>): nat
    decreases |os|
  {
    if os == [] then 0
    else SuccessCount(os[..|os| - 1]) + (if os[|os| - 1].Success? then 1 else 0)
  }

  /** The successes are never more than the calls, there are none exactly when every
      call failed, and there are as many as calls exactly when every call succeeded. */
  lemma {:induction false} SuccessCountBounds<P>(os: seq<Outcome<P>>)
    ensures SuccessCount(os) <= |os|
    ensures SuccessCount(os) == 0 <==> forall k :: 0 <= k < |os| ==> os[k].Failure?
    ensures SuccessCount(os) == |os| <==> forall k :: 0 <= k < |os| ==> os[k].Success?
    decreases |os|
  {
    if os != [] {
      var init := os[..|os| - 1];
      SuccessCountBounds(init);
      assert forall k :: 0 <= k < |init| ==> init[k] == os[k];
    }
  }

  /** The progress values a run over `n` items reports, one after each call. */
  function ProgressTrail(n: nat): seq<Progress>
  {
    seq(n, k requires 0 <= k < n => Progress(k + 1, n))
  }

  /** The reported percentage never goes down during a run and reaches 100 at its end. */
  lemma ProgressNeverDecreases(n: nat, j: nat, k: nat)
    requires j <= k < n
    ensures Percent(ProgressTrail(n)[j]) <= Percent(ProgressTrail(n)[k])
    ensures Percent(ProgressTrail(n)[n - 1]) == 100.0
  {
    var t := ProgressTrail(n);
    var d := n as real;
    assert t[j] == Progress(j + 1, n) && t[k] == Progress(k + 1, n) && t[n - 1] == Progress(n, n);
    assert (j + 1) as real <= (k + 1) as real;
    DivisionPreservesOrder((j + 1) as real * 100.0, (k + 1) as real * 100.0, d);
    assert Percent(t[n - 1]) == d * 100.0 / d;
    assert d * 100.0 / d == 100.0;
  }

  lemma DivisionPreservesOrder(a: real, b: real, d: real)
    requires a <= b && d > 0.0
    ensures a / d <= b / d
  {
    assert a / d * d == a;
    assert b / d * d == b;
  }

  /** One pass of the per-item loop: calls the service on each item in order, records
      exactly one outcome per call (a failure does not stop the run), counts the
      successes, and reports progress after every call. */
  method Run<P>(items: seq<string>, call: string -> Outcome<P>)
    returns (outcomes: seq<Outcome<P>>, calls: seq<string>, progress: seq<Progress>, successes: nat)
    ensures calls == items
    ensures outcomes == Outcomes(items, call)
    ensures progress == ProgressTrail(|items|)
    ensures successes == SuccessCount(outcomes)
  {
    outcomes, calls, progress, successes := [], [], [], 0;
    for i := 0 to |items|
      invariant calls == items[..i]
      invariant outcomes == Outcomes(items[..i], call)
      invariant progress == ProgressTrail(|items|)[..i]
      invariant successes == SuccessCount(outcomes)
    {
      calls := calls + [items[i]];
      var outcome := call(items[i]);
      assert (outcomes + [outcome])[..i] == outcomes;
      outcomes := outcomes + [outcome];
      if outcome.Success? {
        successes := successes + 1;
      }
      progress := progress + [Progress(i + 1, |items|)];
    }
    assert items[..|items|] == items;
  }
}
