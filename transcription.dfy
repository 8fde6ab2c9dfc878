/** Transcript post-processing of the transcriber (audio_tools/transcription.py):
    formatting Whisper's segments, the gap-based speaker numbering written
    into the segments in place, grouping consecutive segments of one speaker
    into "speaker: text" lines, and the assembly of the result. Whisper's
    own output (or the exception it raised) is an input. */
module Transcription {
  import opened Common

  // ---------------------------------------------------------------------------
  // Segments

  /** A word as Whisper reports it; the probability may be missing. */
  datatype RawWord = RawWord(word: string, start: real, end: real, probability: Option<real>)

  /** A segment as Whisper reports it; "words" may be missing. */
  datatype RawSegment = RawSegment(start: real, end: real, text: string, words: Option<seq<RawWord>>)

  datatype Word = Word(word: string, start: real, end: real, probability: real)

  /** A formatted segment; `speaker` is set only by diarization. */
  datatype Segment = Segment(start: real, end: real, text: string, words: Option<seq<Word>>, speaker: Option<string>)

  const DefaultProbability := 0.0

  function FormatWord(w: RawWord): (r: Word)
    ensures r.word == w.word && r.start == w.start && r.end == w.end
    ensures r.probability == if w.probability.Some? then w.probability.value else 0.0
  {
    Word(w.word, w.start, w.end, if w.probability.Some? then w.probability.value else DefaultProbability)
  }

  /** The word list of a segment, each word formatted. */
  function FormatWords(words: seq<RawWord>): (r: seq<Word>)
    ensures |r| == |words|
    ensures forall k :: 0 <= k < |words| ==> r[k] == FormatWord(words[k])
  {
    seq(|words|, k requires 0 <= k < |words| => FormatWord(words[k]))
  }

  /** One formatted segment: the text stripped, the words kept only when
      word timestamps were asked for and Whisper gave them. */
  function FormatSegment(seg: RawSegment, timestamps: bool): (r: Segment)
    ensures r.start == seg.start && r.end == seg.end && r.text == Strip(seg.text)
    ensures r.words.Some? <==> timestamps && seg.words.Some?
    ensures r.words.Some? ==> r.words.value == FormatWords(seg.words.value)
    ensures r.speaker.None?
  {
    var words := if seg.words.Some? && timestamps then Some(FormatWords(seg.words.value)) else None;
    Segment(seg.start, seg.end, Strip(seg.text), words, None)
  }

  /** Every segment formatted, in order: what the formatting loop of
      `transcribe` builds. */
  function FormattedSegments(segments: seq<RawSegment>, timestamps: bool): (r: seq<Segment>)
    ensures |r| == |segments|
  {
    if segments == [] then []
    else FormattedSegments(segments[..|segments| - 1], timestamps) + [FormatSegment(segments[|segments| - 1], timestamps)]
  }

  /** The formatted list holds at each position the formatting of the raw
      segment at that position. */
  lemma {:induction false} FormattedSegmentAt(segments: seq<RawSegment>, timestamps: bool, i: nat)
    requires i < |segments|
    ensures FormattedSegments(segments, timestamps)[i] == FormatSegment(segments[i], timestamps)
  {
    var init := segments[..|segments| - 1];
    if i < |segments| - 1 {
      FormattedSegmentAt(init, timestamps, i);
      assert init[i] == segments[i];
    }
  }

  /** The formatting loop of `transcribe`. */
  method FormatSegments(segments: seq<RawSegment>, timestamps: bool) returns (formatted: seq<Segment>)
    ensures formatted == FormattedSegments(segments, timestamps)
  {
    formatted := [];
    for i := 0 to |segments|
      invariant formatted == FormattedSegments(segments[..i], timestamps)
    {
      assert segments[..i + 1][..i] == segments[..i];
      formatted := formatted + [FormatSegment(segments[i], timestamps)];
    }
    assert segments[..|segments|] == segments;
  }

  // ---------------------------------------------------------------------------
  // _perform_diarization

  /** More than two seconds of silence before segment `i` means a new speaker. */
  predicate LongPauseBefore(segs: seq<Segment>, i: nat)
    requires 0 < i < |segs|
  {
    segs[i].start - segs[i - 1].end > 2.0
  }

  /** The speaker number of segment `i`: one plus the number of long pauses
      up to and including the one before `i`. */
  function SpeakerNumber(segs: seq<Segment>, i: nat): (n: nat)
    requires i < |segs|
    ensures 1 <= n <= i + 1
  {
    if i == 0 then 1 else SpeakerNumber(segs, i - 1) + if LongPauseBefore(segs, i) then 1 else 0
  }

  function SpeakerLabel(n: nat): string
  {
    "Speaker_" + NatToDecimal(n)
  }

  /** "Speaker_1", ..., "Speaker_<count>". */
  function SpeakerLabels(count: nat): (labels: seq<string>)
    ensures |labels| == count
  {
    seq(count, k requires 0 <= k < count => SpeakerLabel(k + 1))
  }

  lemma SpeakerLabelsSnoc(count: nat)
    ensures SpeakerLabels(count + 1) == SpeakerLabels(count) + [SpeakerLabel(count + 1)]
  {
    assert |SpeakerLabels(count + 1)| == |SpeakerLabels(count) + [SpeakerLabel(count + 1)]|;
  }

  /** Different speaker numbers get different labels. */
  lemma SpeakerLabelInjective(a: nat, b: nat)
    requires SpeakerLabel(a) == SpeakerLabel(b)
    ensures a == b
  {
    var prefix := "Speaker_";
    assert SpeakerLabel(a)[|prefix|..] == NatToDecimal(a);
    assert SpeakerLabel(b)[|prefix|..] == NatToDecimal(b);
    NatToDecimalInjective(a, b);
  }

  /** The labels returned by diarization are pairwise distinct. */
  lemma SpeakerLabelsDistinct(count: nat)
    ensures forall j, k :: 0 <= j < k < count ==> SpeakerLabels(count)[j] != SpeakerLabels(count)[k]
  {
    forall j, k | 0 <= j < k < count ensures SpeakerLabels(count)[j] != SpeakerLabels(count)[k] {
      if SpeakerLabels(count)[j] == SpeakerLabels(count)[k] {
        SpeakerLabelInjective(j + 1, k + 1);
      }
    }
  }

  /** Speaker numbers never decrease along the segments. */
  lemma {:induction false} SpeakerNumbersNonDecreasing(segs: seq<Segment>, i: nat, j: nat)
    requires i <= j < |segs|
    ensures SpeakerNumber(segs, i) <= SpeakerNumber(segs, j)
    decreases j
  {
    if i < j {
      SpeakerNumbersNonDecreasing(segs, i, j - 1);
    }
  }

  /** Every number up to the last segment's is some segment's number, so
      every returned label is the label of some segment. */
  lemma {:induction false} EverySpeakerNumberIsUsed(segs: seq<Segment>, last: nat, n: nat)
    requires last < |segs| && 1 <= n <= SpeakerNumber(segs, last)
    ensures exists i :: 0 <= i <= last && SpeakerNumber(segs, i) == n
    decreases last
  {
    if n == SpeakerNumber(segs, last) {
      assert SpeakerNumber(segs, last) == n;
    } else {
      EverySpeakerNumberIsUsed(segs, last - 1, n);
    }
  }

  /** The formatted segments after diarization: each labelled with its
      speaker. */
  function Diarized(segs: seq<Segment>): (r: seq<Segment>)
    ensures |r| == |segs|
  {
    seq(|segs|, i requires 0 <= i < |segs| => segs[i].(speaker := Some(SpeakerLabel(SpeakerNumber(segs, i)))))
  }

  /** The labels diarization returns: one per speaker number, none for no
      segments. */
  function SpeakerList(segs: seq<Segment>): seq<string>
  {
    if segs == [] then [] else SpeakerLabels(SpeakerNumber(segs, |segs| - 1))
  }

  /** Segment `j` labelled with its speaker. */
  function LabelledSegment(segs: seq<Segment>, j: nat): Segment
    requires j < |segs|
  {
    segs[j].(speaker := Some(SpeakerLabel(SpeakerNumber(segs, j))))
  }

  /** The first `i` segments of `now` are those of `before` labelled with
      their speakers; the rest are still the originals. */
  predicate Relabelled(now: seq<Segment>, before: seq<Segment>, i: nat)
  {
    |now| == |before| && i <= |before| &&
    (forall j {:trigger now[j]} :: 0 <= j < i ==> now[j] == LabelledSegment(before, j)) &&
    (forall j {:trigger now[j]} :: i <= j < |before| ==> now[j] == before[j])
  }

  /** Labelling segment `i` extends the labelled prefix by one. */
  lemma RelabelStep(now: seq<Segment>, before: seq<Segment>, i: nat)
    requires Relabelled(now, before, i) && i < |before|
    ensures Relabelled(now[i := LabelledSegment(before, i)], before, i + 1)
  {
  }

  /** Once every segment is labelled, the list is the diarized one. */
  lemma RelabelledIsDiarized(now: seq<Segment>, before: seq<Segment>)
    requires Relabelled(now, before, |before|)
    ensures now == Diarized(before)
  {
    forall j | 0 <= j < |before|
      ensures now[j] == Diarized(before)[j]
    {
      assert now[j] == LabelledSegment(before, j);
    }
  }

  /** The `speakers` list after the first `n` segments: each one's label. */
  function SpeakersUpTo(segs: seq<Segment>, n: nat): (r: seq<string>)
    requires n <= |segs|
    ensures |r| == n
  {
    if n == 0 then [] else SpeakersUpTo(segs, n - 1) + [SpeakerLabel(SpeakerNumber(segs, n - 1))]
  }

  /** Entry `j` of the `speakers` list is segment `j`'s label. */
  lemma {:induction false} SpeakersUpToAt(segs: seq<Segment>, n: nat, j: nat)
    requires j < n <= |segs|
    ensures SpeakersUpTo(segs, n)[j] == SpeakerLabel(SpeakerNumber(segs, j))
  {
    if j < n - 1 {
      SpeakersUpToAt(segs, n - 1, j);
    }
  }

  /** `_perform_diarization`: overwrites every segment's speaker with its
      label and returns the distinct labels, one per speaker number. */
  method PerformDiarization(segments: array<Segment>) returns (unique: seq<string>)
    modifies segments
    ensures segments[..] == Diarized(old(segments[..]))
    ensures unique == SpeakerList(old(segments[..]))
  {
    ghost var before := segments[..];
    var speakers: seq<string> := [];
    var currentSpeaker := SpeakerLabel(1);
    var speakerCount: nat := 1;
    for i := 0 to segments.Length
      invariant speakers == SpeakersUpTo(before, i)
      invariant Relabelled(segments[..], before, i)
      invariant speakerCount == if i == 0 then 1 else SpeakerNumber(before, i - 1)
      invariant currentSpeaker == SpeakerLabel(speakerCount)
    {
      ghost var now := segments[..];
      assert segments[i] == before[i];
      if i > 0 {
        assert segments[i - 1].end == before[i - 1].end;
        var gap := segments[i].start - segments[i - 1].end;
        assert gap > 2.0 <==> LongPauseBefore(before, i);
        if gap > 2.0 {
          speakerCount := speakerCount + 1;
          currentSpeaker := SpeakerLabel(speakerCount);
        }
      }
      assert speakerCount == SpeakerNumber(before, i);
      speakers := speakers + [currentSpeaker];
      segments[i] := segments[i].(speaker := Some(currentSpeaker));
      assert segments[..] == now[i := LabelledSegment(before, i)];
      RelabelStep(now, before, i);
    }
    assert before == old(segments[..]);
    RelabelledIsDiarized(segments[..], before);
    unique := DistinctSpeakers(before, speakers);
  }

  /** The label of a new speaker number is not among the earlier labels. */
  lemma NewLabelIsUnseen(n: nat)
    ensures SpeakerLabel(n + 1) !in SpeakerLabels(n)
  {
    forall k | 0 <= k < n ensures SpeakerLabels(n)[k] != SpeakerLabel(n + 1) {
      if SpeakerLabel(k + 1) == SpeakerLabel(n + 1) {
        SpeakerLabelInjective(k + 1, n + 1);
      }
    }
  }

  /** The label of a number already reached is among the labels. */
  lemma OldLabelIsSeen(n: nat, m: nat)
    requires 1 <= m <= n
    ensures SpeakerLabel(m) in SpeakerLabels(n)
  {
    assert SpeakerLabels(n)[m - 1] == SpeakerLabel(m);
  }

  /** One step of `list(set(...))`: adding segment `j`'s label unless it is
      already present gives the labels up to its number. */
  lemma DistinctStep(segs: seq<Segment>, j: nat, unique: seq<string>)
    requires 0 < j < |segs| && unique == SpeakerLabels(SpeakerNumber(segs, j - 1))
    ensures var name := SpeakerLabel(SpeakerNumber(segs, j));
            (if name in unique then unique else unique + [name]) == SpeakerLabels(SpeakerNumber(segs, j))
  {
    var n := SpeakerNumber(segs, j - 1);
    if SpeakerNumber(segs, j) == n + 1 {
      NewLabelIsUnseen(n);
      SpeakerLabelsSnoc(n);
    } else {
      OldLabelIsSeen(n, SpeakerNumber(segs, j));
    }
  }

  /** `list(set(speakers))` for the labels diarization assigned to `segs`:
      the labels of the numbers 1 to the last segment's, each once. */
  method DistinctSpeakers(ghost segs: seq<Segment>, speakers: seq<string>) returns (unique: seq<string>)
    requires speakers == SpeakersUpTo(segs, |segs|)
    ensures unique == SpeakerList(segs)
  {
    unique := [];
    for j := 0 to |speakers|
      invariant unique == if j == 0 then [] else SpeakerLabels(SpeakerNumber(segs, j - 1))
    {
      SpeakersUpToAt(segs, |segs|, j);
      if j == 0 {
        SpeakerLabelsSnoc(0);
      } else {
        DistinctStep(segs, j, unique);
      }
      if speakers[j] !in unique {
        unique := unique + [speakers[j]];
      }
    }
  }

  // ---------------------------------------------------------------------------
  // get_transcript_with_speakers

  /** `seg.get("speaker", "Unknown")`. */
  function SpeakerOf(seg: Segment): string
  {
    if seg.speaker.Some? then seg.speaker.value else "Unknown"
  }

  /** A maximal run of consecutive segments with the same speaker. */
  datatype Run = Run(speaker: string, texts: seq<string>)

  /** The segments' texts, in order. */
  function Texts(segs: seq<Segment>): (texts: seq<string>)
    ensures |texts| == |segs|
  {
    if segs == [] then [] else Texts(segs[..|segs| - 1]) + [segs[|segs| - 1].text]
  }

  /** The runs' texts, run after run. */
  function Flatten(runs: seq<Run>): seq<string>
  {
    if runs == [] then [] else Flatten(runs[..|runs| - 1]) + runs[|runs| - 1].texts
  }

  /** The runs of `segs`, in order: no run is empty, neighbouring runs
      belong to different speakers, and the last run is the last segment's
      speaker. */
  function Runs(segs: seq<Segment>): (runs: seq<Run>)
    ensures segs == [] <==> runs == []
    ensures forall k :: 0 <= k < |runs| ==> runs[k].texts != []
    ensures forall k :: 0 < k < |runs| ==> runs[k - 1].speaker != runs[k].speaker
    ensures runs != [] ==> runs[|runs| - 1].speaker == SpeakerOf(segs[|segs| - 1])
  {
    if segs == [] then []
    else
      var prev := Runs(segs[..|segs| - 1]);
      var last := segs[|segs| - 1];
      if prev != [] && prev[|prev| - 1].speaker == SpeakerOf(last) then
        var open := prev[|prev| - 1];
        prev[..|prev| - 1] + [Run(open.speaker, open.texts + [last.text])]
      else
        prev + [Run(SpeakerOf(last), [last.text])]
  }

  /** Flattening one more run appends its texts. */
  lemma FlattenSnoc(runs: seq<Run>, run: Run)
    ensures Flatten(runs + [run]) == Flatten(runs) + run.texts
  {
    assert (runs + [run])[..|runs|] == runs;
  }

  /** The runs hold every segment's text exactly once, in order. */
  lemma {:induction false} RunsCoverTexts(segs: seq<Segment>)
    ensures Flatten(Runs(segs)) == Texts(segs)
  {
    if segs != [] {
      var init := segs[..|segs| - 1];
      var last := segs[|segs| - 1];
      var prev := Runs(init);
      if prev != [] && prev[|prev| - 1].speaker == SpeakerOf(last) {
        var open := prev[|prev| - 1];
        var closed := prev[..|prev| - 1];
        var grown := Run(open.speaker, open.texts + [last.text]);
        calc {
          Flatten(Runs(segs));
          { assert Runs(segs) == closed + [grown]; }
          Flatten(closed + [grown]);
          { FlattenSnoc(closed, grown); }
          Flatten(closed) + open.texts + [last.text];
          { assert prev == closed + [open]; FlattenSnoc(closed, open); }
          Flatten(prev) + [last.text];
          { RunsCoverTexts(init); }
          Texts(init) + [last.text];
        }
      } else {
        var single := Run(SpeakerOf(last), [last.text]);
        calc {
          Flatten(Runs(segs));
          { assert Runs(segs) == prev + [single]; }
          Flatten(prev + [single]);
          { FlattenSnoc(prev, single); }
          Flatten(prev) + [last.text];
          { RunsCoverTexts(init); }
          Texts(init) + [last.text];
        }
      }
    }
  }

  /** `n` copies of `x`. */
  function Repeat<T>(x: T, n: nat): (r: seq<T>)
    ensures |r| == n
  {
    if n == 0 then [] else Repeat(x, n - 1) + [x]
  }

  /** Each segment's speaker ("Unknown" when it has none), in order. */
  function SegmentSpeakers(segs: seq<Segment>): (r: seq<string>)
    ensures |r| == |segs|
  {
    if segs == [] then [] else SegmentSpeakers(segs[..|segs| - 1]) + [SpeakerOf(segs[|segs| - 1])]
  }

  /** Entry `k` of the segments' speakers is segment `k`'s speaker, so the
      list is `[speaker_of(s) for s in segs]`. */
  lemma {:induction false} SegmentSpeakersAre(segs: seq<Segment>)
    ensures SegmentSpeakers(segs) == seq(|segs|, k requires 0 <= k < |segs| => SpeakerOf(segs[k]))
  {
    if segs != [] {
      var init := segs[..|segs| - 1];
      SegmentSpeakersAre(init);
      forall k | 0 <= k < |segs|
        ensures SegmentSpeakers(segs)[k] == SpeakerOf(segs[k])
      {
        if k < |init| {
          assert init[k] == segs[k];
        }
      }
    }
  }

  /** The runs' speakers, one per text they hold, run after run. */
  function RunSpeakers(runs: seq<Run>): seq<string>
  {
    if runs == [] then [] else RunSpeakers(runs[..|runs| - 1]) + Repeat(runs[|runs| - 1].speaker, |runs[|runs| - 1].texts|)
  }

  lemma RunSpeakersSnoc(runs: seq<Run>, run: Run)
    ensures RunSpeakers(runs + [run]) == RunSpeakers(runs) + Repeat(run.speaker, |run.texts|)
  {
    assert (runs + [run])[..|runs|] == runs;
  }

  /** Growing the last run by one text adds its speaker once more. */
  lemma RunSpeakersGrow(closed: seq<Run>, open: Run, text: string)
    ensures RunSpeakers(closed + [Run(open.speaker, open.texts + [text])]) == RunSpeakers(closed + [open]) + [open.speaker]
  {
    RunSpeakersSnoc(closed, Run(open.speaker, open.texts + [text]));
    RunSpeakersSnoc(closed, open);
  }

  /** Every text sits in a run of its own segment's speaker: reading the
      runs text by text gives the segments' speakers in order. */
  lemma {:induction false} RunsAttributeSpeakers(segs: seq<Segment>)
    ensures RunSpeakers(Runs(segs)) == SegmentSpeakers(segs)
  {
    if segs != [] {
      var init := segs[..|segs| - 1];
      var last := segs[|segs| - 1];
      var prev := Runs(init);
      if prev != [] && prev[|prev| - 1].speaker == SpeakerOf(last) {
        var open := prev[|prev| - 1];
        var closed := prev[..|prev| - 1];
        var grown := Run(open.speaker, open.texts + [last.text]);
        calc {
          RunSpeakers(Runs(segs));
          { assert Runs(segs) == closed + [grown]; }
          RunSpeakers(closed + [grown]);
          { RunSpeakersGrow(closed, open, last.text); }
          RunSpeakers(closed + [open]) + [SpeakerOf(last)];
          { assert prev == closed + [open]; }
          RunSpeakers(prev) + [SpeakerOf(last)];
          { RunsAttributeSpeakers(init); }
          SegmentSpeakers(init) + [SpeakerOf(last)];
        }
      } else {
        var single := Run(SpeakerOf(last), [last.text]);
        calc {
          RunSpeakers(Runs(segs));
          { assert Runs(segs) == prev + [single]; }
          RunSpeakers(prev + [single]);
          { RunSpeakersSnoc(prev, single); }
          RunSpeakers(prev) + [SpeakerOf(last)];
          { RunsAttributeSpeakers(init); }
          SegmentSpeakers(init) + [SpeakerOf(last)];
        }
      }
    }
  }

  /** "speaker: t1 t2 ..." for one run. */
  function RunLine(run: Run): string
  {
    run.speaker + ": " + Join(" ", run.texts)
  }

  function RunLines(runs: seq<Run>): (lines: seq<string>)
    ensures |lines| == |runs|
    ensures forall k :: 0 <= k < |runs| ==> lines[k] == RunLine(runs[k])
  {
    seq(|runs|, k requires 0 <= k < |runs| => RunLine(runs[k]))
  }

  /** The result of `transcribe`: a success record or the failure record
      built from the exception's message. */
  datatype TranscribeResult =
    | Success(transcript: string, segments: seq<Segment>, language: Option<string>,
              speakers: Option<seq<string>>, durationSeconds: real)
    | Failure(error: string)

  lemma RunLinesAppend(runs: seq<Run>, run: Run)
    ensures RunLines(runs + [run]) == RunLines(runs) + [RunLine(run)]
  {
    assert |RunLines(runs + [run])| == |RunLines(runs) + [RunLine(run)]|;
  }

  /** The runs of one more segment, from the runs of the segments before it. */
  lemma RunsStep(segs: seq<Segment>, i: nat)
    requires i < |segs|
    ensures var prev := Runs(segs[..i]);
            Runs(segs[..i + 1]) ==
              if prev != [] && prev[|prev| - 1].speaker == SpeakerOf(segs[i])
              then prev[..|prev| - 1] + [Run(prev[|prev| - 1].speaker, prev[|prev| - 1].texts + [segs[i].text])]
              else prev + [Run(SpeakerOf(segs[i]), [segs[i].text])]
  {
    assert segs[..i + 1][..i] == segs[..i];
  }

  /** How the runs grow by one segment, in terms of the closed runs and the
      open one (speaker and texts) that the formatting loop keeps. */
  lemma RunsOfNextSegment(segs: seq<Segment>, i: nat, closed: seq<Run>, current: Option<string>, texts: seq<string>)
    requires i < |segs|
    requires i == 0 ==> current.None? && texts == [] && closed == []
    requires i > 0 ==> current.Some? && texts != [] && Runs(segs[..i]) == closed + [Run(current.value, texts)]
    ensures current == Some(SpeakerOf(segs[i])) ==>
              Runs(segs[..i + 1]) == closed + [Run(current.value, texts + [segs[i].text])]
    ensures current != Some(SpeakerOf(segs[i])) ==>
              Runs(segs[..i + 1]) == (if texts != [] then closed + [Run(current.value, texts)] else closed) +
                                     [Run(SpeakerOf(segs[i]), [segs[i].text])]
  {
    RunsStep(segs, i);
    var prev := Runs(segs[..i]);
    assert i == 0 ==> segs[..i] == [] && prev == [];
    if current == Some(SpeakerOf(segs[i])) {
      assert prev[..|prev| - 1] == closed;
    }
  }

  /** The loop of `get_transcript_with_speakers` over the segments. */
  method FormatSpeakerLines(segs: seq<Segment>) returns (text: string)
    ensures text == Join("\n", RunLines(Runs(segs)))
  {
    var lines: seq<string> := [];
    var currentSpeaker: Option<string> := None;
    var currentText: seq<string> := [];
    ghost var closed: seq<Run> := [];
    for i := 0 to |segs|
      invariant i == 0 ==> currentSpeaker.None? && currentText == [] && closed == []
      invariant i > 0 ==> currentSpeaker.Some? && currentText != [] &&
                          Runs(segs[..i]) == closed + [Run(currentSpeaker.value, currentText)]
      invariant lines == RunLines(closed)
    {
      var speaker := SpeakerOf(segs[i]);
      RunsOfNextSegment(segs, i, closed, currentSpeaker, currentText);
      if currentSpeaker != Some(speaker) {
        if currentText != [] {
          lines := lines + [RunLine(Run(currentSpeaker.value, currentText))];
          RunLinesAppend(closed, Run(currentSpeaker.value, currentText));
          closed := closed + [Run(currentSpeaker.value, currentText)];
          currentText := [];
        }
        currentSpeaker := Some(speaker);
        assert currentText + [segs[i].text] == [segs[i].text];
      }
      currentText := currentText + [segs[i].text];
    }
    if currentText != [] {
      lines := lines + [RunLine(Run(currentSpeaker.value, currentText))];
      RunLinesAppend(closed, Run(currentSpeaker.value, currentText));
      closed := closed + [Run(currentSpeaker.value, currentText)];
    }
    assert segs[..|segs|] == segs;
    text := Join("\n", lines);
  }

  /** `get_transcript_with_speakers`: the plain transcript unless the result
      has both a non-empty speaker list and non-empty segments. */
  method GetTranscriptWithSpeakers(result: TranscribeResult) returns (text: string)
    ensures result.Failure? ==> text == ""
    ensures result.Success? && (result.speakers.None? || result.speakers.value == [] || result.segments == []) ==>
              text == result.transcript
    ensures result.Success? && result.speakers.Some? && result.speakers.value != [] && result.segments != [] ==>
              text == Join("\n", RunLines(Runs(result.segments)))
  {
    if result.Failure? {
      return "";
    }
    if result.speakers.None? || result.speakers.value == [] || result.segments == [] {
      return result.transcript;
    }
    text := FormatSpeakerLines(result.segments);
  }

  // ---------------------------------------------------------------------------
  // transcribe

  /** What Whisper's `transcribe` returned: the text, the segments, and the
      detected language when it reports one. */
  datatype WhisperOutput = WhisperOutput(text: string, segments: seq<RawSegment>, language: Option<string>)

  /** What `transcribe` returns for the model call's outcome: an exception
      becomes a failure record; otherwise the stripped transcript, the
      formatted segments (labelled by speaker and with the speaker list when
      diarization is on), the detected or requested language, and the
      duration from the last raw segment. */
  function TranscriptionOf(whisper: Result<WhisperOutput, string>, language: Option<string>, enableDiarization: bool, timestamps: bool)
    : (r: TranscribeResult)
    ensures whisper.Err? <==> r.Failure?
    ensures whisper.Err? ==> r.error == whisper.error
    ensures whisper.Ok? ==>
              var out := whisper.value;
              && r.transcript == Strip(out.text)
              && r.language == (if out.language.Some? then out.language else language)
              && r.durationSeconds == (if out.segments == [] then 0.0 else out.segments[|out.segments| - 1].end)
              && (r.speakers.Some? <==> enableDiarization)
    ensures whisper.Ok? && !enableDiarization ==>
              r.segments == FormattedSegments(whisper.value.segments, timestamps)
    ensures whisper.Ok? && enableDiarization ==>
              var formatted := FormattedSegments(whisper.value.segments, timestamps);
              r.segments == Diarized(formatted) && r.speakers == Some(SpeakerList(formatted))
  {
    if whisper.Err? then Failure(whisper.error)
    else
      var out := whisper.value;
      var formatted := FormattedSegments(out.segments, timestamps);
      Success(
        Strip(out.text),
        if enableDiarization then Diarized(formatted) else formatted,
        if out.language.Some? then out.language else language,
        if enableDiarization then Some(SpeakerList(formatted)) else None,
        if out.segments == [] then 0.0 else out.segments[|out.segments| - 1].end)
  }

  /** `transcribe`: formatting, then diarization when asked for. */
  method Transcribe(whisper: Result<WhisperOutput, string>, language: Option<string>, enableDiarization: bool, timestamps: bool)
    returns (r: TranscribeResult)
    ensures r == TranscriptionOf(whisper, language, enableDiarization, timestamps)
  {
    if whisper.Err? {
      return Failure(whisper.error);
    }
    var out := whisper.value;
    var formatted := FormatSegments(out.segments, timestamps);
    var speakers: Option<seq<string>> := None;
    if enableDiarization {
      var unique;
      formatted, unique := DiarizeSegments(formatted);
      speakers := Some(unique);
    }
    var detected := if out.language.Some? then out.language else language;
    var duration := if out.segments == [] then 0.0 else out.segments[|out.segments| - 1].end;
    r := Success(Strip(out.text), formatted, detected, speakers, duration);
  }

  /** `_perform_diarization` applied to the list of formatted segments: the
      list afterwards, and the returned labels. */
  method DiarizeSegments(formatted: seq<Segment>) returns (labelled: seq<Segment>, unique: seq<string>)
    ensures labelled == Diarized(formatted)
    ensures unique == SpeakerList(formatted)
  {
    var segs := new Segment[|formatted|](i requires 0 <= i < |formatted| => formatted[i]);
    assert segs[..] == formatted;
    unique := PerformDiarization(segs);
    labelled := segs[..];
  }
}
