/** Smart trimming (audio_tools/trimming.py). An audio segment is a sequence
    with one element per millisecond, as pydub measures and slices it. The
    loudness of a chunk (`chunk.dBFS`) is an abstract function of the chunk,
    and the non-silent ranges that `detect_nonsilent` reports are an input:
    what is modelled is the scan for leading silence, the edge trimming with
    its padding clamps and Python slice bounds, and the assembly of the kept
    ranges with the result the trimmer reports. */
module Trimming {
  import opened Common

  // ---------------------------------------------------------------------------
  // Python slicing

  /** Python's normalisation of a slice bound (step 1) for a sequence of
      length `n`: a negative bound counts from the end, then the bound is
      clamped into [0, n]. */
  function SliceBound(i: int, n: nat): (b: nat)
    ensures b <= n
    ensures 0 <= i <= n ==> b == i
    ensures i < 0 && i + n >= 0 ==> b == i + n
    ensures i + n < 0 ==> b == 0
    ensures i > n ==> b == n
  {
    if i < 0 then (if i + n < 0 then 0 else i + n)
    else if i > n then n
    else i
  }

  /** `s[i:j]`. */
  function PySlice<T>(s: seq<T>, i: int, j: int): (r: seq<T>)
    ensures |r| <= |s|
    ensures SliceBound(i, |s|) + |r| <= |s|
    ensures r == s[SliceBound(i, |s|)..SliceBound(i, |s|) + |r|]
    ensures 0 <= i <= j <= |s| ==> r == s[i..j]
    ensures |r| == if SliceBound(i, |s|) < SliceBound(j, |s|) then SliceBound(j, |s|) - SliceBound(i, |s|) else 0
  {
    var lo := SliceBound(i, |s|);
    var hi := SliceBound(j, |s|);
    if lo < hi then s[lo..hi] else []
  }

  /** `audio.reverse()`. */
  function Reverse<T>(s: seq<T>): (r: seq<T>)
    ensures |r| == |s|
    ensures forall k :: 0 <= k < |s| ==> r[k] == s[|s| - 1 - k]
  {
    seq(|s|, k requires 0 <= k < |s| => s[|s| - 1 - k])
  }

  function Max(a: int, b: int): int
  {
    if a >= b then a else b
  }

  function Min(a: int, b: int): int
  {
    if a <= b then a else b
  }

  // ---------------------------------------------------------------------------
  // _detect_leading_silence

  /** The chunk size the scan uses: `_detect_leading_silence` is only ever
      called with its default of 10 ms. */
  const ChunkSizeMs := 10

  /** `audio[start:start + chunk_size]`. */
  function Chunk<T>(audio: seq<T>, start: nat): seq<T>
  {
    PySlice(audio, start, start + ChunkSizeMs)
  }

  /** The chunk of the scan that holds offset `k`. */
  function ChunkHolding<T>(audio: seq<T>, k: nat): seq<T>
  {
    Chunk(audio, k - k % ChunkSizeMs)
  }

  /** `chunk.dBFS > silence_threshold`. */
  predicate Loud<T>(dbfs: seq<T> -> real, threshold: real, chunk: seq<T>)
  {
    dbfs(chunk) > threshold
  }

  /** `r` is where the scan for leading silence stops: a multiple of the
      chunk size, every chunk starting before it is quiet, and either the
      chunk starting at it is loud or it is the first multiple at or past
      the end of the audio. */
  predicate IsLeadingSilence<T>(audio: seq<T>, dbfs: seq<T> -> real, threshold: real, r: nat)
  {
    && r % ChunkSizeMs == 0
    && (forall t :: 0 <= t < r && t % ChunkSizeMs == 0 ==> !Loud(dbfs, threshold, Chunk(audio, t)))
    && (r < |audio| ==> Loud(dbfs, threshold, Chunk(audio, r)))
    && r < |audio| + ChunkSizeMs
  }

  /** The scan's stop is unique: the conditions above pin it down. */
  lemma LeadingSilenceUnique<T>(audio: seq<T>, dbfs: seq<T> -> real, threshold: real, r1: nat, r2: nat)
    requires IsLeadingSilence(audio, dbfs, threshold, r1)
    requires IsLeadingSilence(audio, dbfs, threshold, r2)
    ensures r1 == r2
  {
  }

  /** `_detect_leading_silence`: advance chunk by chunk while the chunk is
      not louder than the threshold. */
  method DetectLeadingSilence<T>(audio: seq<T>, dbfs: seq<T> -> real, silenceThreshold: real) returns (trimMs: nat)
    ensures IsLeadingSilence(audio, dbfs, silenceThreshold, trimMs)
    ensures |audio| == 0 ==> trimMs == 0
  {
    trimMs := 0;
    while trimMs < |audio|
      invariant trimMs % ChunkSizeMs == 0
      invariant trimMs < |audio| + ChunkSizeMs
      invariant forall t :: 0 <= t < trimMs && t % ChunkSizeMs == 0 ==> !Loud(dbfs, silenceThreshold, Chunk(audio, t))
      decreases |audio| - trimMs
    {
      if Loud(dbfs, silenceThreshold, Chunk(audio, trimMs)) {
        break;
      }
      trimMs := trimMs + ChunkSizeMs;
    }
  }

  /** The stop of the scan, as a function: the first multiple of the chunk
      size from `t` on whose chunk is loud or which lies past the end. */
  function LeadingSilenceFrom<T>(audio: seq<T>, dbfs: seq<T> -> real, threshold: real, t: nat): nat
    decreases |audio| - t
  {
    if t >= |audio| || Loud(dbfs, threshold, Chunk(audio, t)) then t
    else LeadingSilenceFrom(audio, dbfs, threshold, t + ChunkSizeMs)
  }

  function LeadingSilence<T>(audio: seq<T>, dbfs: seq<T> -> real, threshold: real): nat
  {
    LeadingSilenceFrom(audio, dbfs, threshold, 0)
  }

  /** The function meets the scan's conditions, so by uniqueness every scan
      returns it. */
  lemma LeadingSilenceIsScanStop<T>(audio: seq<T>, dbfs: seq<T> -> real, threshold: real)
    ensures IsLeadingSilence(audio, dbfs, threshold, LeadingSilence(audio, dbfs, threshold))
  {
    LeadingSilenceFromIsScanStop(audio, dbfs, threshold, 0);
  }

  lemma {:induction false} LeadingSilenceFromIsScanStop<T>(audio: seq<T>, dbfs: seq<T> -> real, threshold: real, t: nat)
    requires t % ChunkSizeMs == 0 && t < |audio| + ChunkSizeMs
    requires forall u :: 0 <= u < t && u % ChunkSizeMs == 0 ==> !Loud(dbfs, threshold, Chunk(audio, u))
    ensures IsLeadingSilence(audio, dbfs, threshold, LeadingSilenceFrom(audio, dbfs, threshold, t))
    decreases |audio| - t
  {
    if t < |audio| && !Loud(dbfs, threshold, Chunk(audio, t)) {
      LeadingSilenceFromIsScanStop(audio, dbfs, threshold, t + ChunkSizeMs);
    }
  }

  /** Whatever the scan returns is the function's value. */
  lemma ScanReturnsLeadingSilence<T>(audio: seq<T>, dbfs: seq<T> -> real, threshold: real, r: nat)
    requires IsLeadingSilence(audio, dbfs, threshold, r)
    ensures r == LeadingSilence(audio, dbfs, threshold)
  {
    LeadingSilenceIsScanStop(audio, dbfs, threshold);
    LeadingSilenceUnique(audio, dbfs, threshold, r, LeadingSilence(audio, dbfs, threshold));
  }

  // ---------------------------------------------------------------------------
  // _trim_edges

  /** The amount cut from the front: the leading silence less the padding,
      never below 0. */
  function StartTrim<T>(audio: seq<T>, dbfs: seq<T> -> real, threshold: real, paddingMs: int): nat
  {
    Max(0, LeadingSilence(audio, dbfs, threshold) - paddingMs)
  }

  /** The amount cut from the back, measured on the reversed audio. */
  function EndTrim<T>(audio: seq<T>, dbfs: seq<T> -> real, threshold: real, paddingMs: int): nat
  {
    Max(0, LeadingSilence(Reverse(audio), dbfs, threshold) - paddingMs)
  }

  /** What `_trim_edges` returns. */
  function EdgeTrimmed<T>(audio: seq<T>, dbfs: seq<T> -> real, threshold: real, paddingMs: int): seq<T>
  {
    PySlice(audio, StartTrim(audio, dbfs, threshold, paddingMs), |audio| - EndTrim(audio, dbfs, threshold, paddingMs))
  }

  /** `_trim_edges`. */
  method TrimEdges<T>(audio: seq<T>, dbfs: seq<T> -> real, silenceThresh: real, paddingMs: int) returns (trimmed: seq<T>)
    ensures trimmed == EdgeTrimmed(audio, dbfs, silenceThresh, paddingMs)
  {
    var leading := DetectLeadingSilence(audio, dbfs, silenceThresh);
    var trailing := DetectLeadingSilence(Reverse(audio), dbfs, silenceThresh);
    ScanReturnsLeadingSilence(audio, dbfs, silenceThresh, leading);
    ScanReturnsLeadingSilence(Reverse(audio), dbfs, silenceThresh, trailing);
    var startTrim := Max(0, leading - paddingMs);
    var endTrim := Max(0, trailing - paddingMs);
    assert startTrim == StartTrim(audio, dbfs, silenceThresh, paddingMs);
    assert endTrim == EndTrim(audio, dbfs, silenceThresh, paddingMs);
    var duration := |audio|;
    trimmed := PySlice(audio, startTrim, duration - endTrim);
  }

  /** With a padding of at least one chunk less a millisecond (the trimmer
      always pads by 100 ms), the stop bound `duration - end_trim` is never
      negative, so no slice bound wraps around: the result is the audio
      between the two trims, and every millisecond cut off lies in a chunk
      the scan from its edge found quiet (offsets at the back counted from
      the end). */
  lemma EdgeTrimCutsOnlyQuietChunks<T>(audio: seq<T>, dbfs: seq<T> -> real, threshold: real, paddingMs: int)
    requires paddingMs + 1 >= ChunkSizeMs
    ensures var lo := StartTrim(audio, dbfs, threshold, paddingMs);
            var hi := |audio| - EndTrim(audio, dbfs, threshold, paddingMs);
            && 0 <= hi <= |audio|
            && EdgeTrimmed(audio, dbfs, threshold, paddingMs) == (if lo < hi then audio[lo..hi] else [])
            && (forall k :: 0 <= k < lo && k < |audio| ==> !Loud(dbfs, threshold, ChunkHolding(audio, k)))
            && (forall j :: 0 <= j < |audio| - hi ==> !Loud(dbfs, threshold, ChunkHolding(Reverse(audio), j)))
  {
    var s := LeadingSilence(audio, dbfs, threshold);
    var e := LeadingSilence(Reverse(audio), dbfs, threshold);
    LeadingSilenceIsScanStop(audio, dbfs, threshold);
    LeadingSilenceIsScanStop(Reverse(audio), dbfs, threshold);
    var lo := StartTrim(audio, dbfs, threshold, paddingMs);
    var hi := |audio| - EndTrim(audio, dbfs, threshold, paddingMs);
    SliceWithinBounds(audio, lo, hi);
    forall k | 0 <= k < lo && k < |audio|
      ensures !Loud(dbfs, threshold, ChunkHolding(audio, k))
    {
      QuietBeforeStop(audio, dbfs, threshold, s, k);
    }
    forall j | 0 <= j < |audio| - hi
      ensures !Loud(dbfs, threshold, ChunkHolding(Reverse(audio), j))
    {
      QuietBeforeStop(Reverse(audio), dbfs, threshold, e, j);
    }
  }

  /** Every offset before the scan's stop lies in a quiet chunk. */
  lemma QuietBeforeStop<T>(audio: seq<T>, dbfs: seq<T> -> real, threshold: real, r: nat, k: nat)
    requires IsLeadingSilence(audio, dbfs, threshold, r)
    requires k < r
    ensures !Loud(dbfs, threshold, ChunkHolding(audio, k))
  {
    var t := k - k % ChunkSizeMs;
    assert t % ChunkSizeMs == 0 && t < r;
  }

  // ---------------------------------------------------------------------------
  // trim

  /** A non-silent range `[start_ms, end_ms]` as `detect_nonsilent` reports
      it. */
  datatype Range = Range(startMs: int, endMs: int)

  /** The padded range, clamped into [0, len(audio)]. */
  function PaddedStart(range: Range, paddingMs: int): int
  {
    Max(0, range.startMs - paddingMs)
  }

  function PaddedEnd(range: Range, paddingMs: int, duration: nat): int
  {
    Min(duration, range.endMs + paddingMs)
  }

  /** A Python slice whose bounds are already within the sequence (the
      start may lie past the end) is the plain slice, or empty. */
  lemma SliceWithinBounds<T>(s: seq<T>, i: nat, j: nat)
    requires j <= |s|
    ensures PySlice(s, i, j) == if i < j then s[i..j] else []
  {
  }

  /** One kept piece: `audio[start_ms:end_ms]` after padding. When the
      padded end is not negative (`detect_nonsilent` reports offsets within
      the audio), the slice is the audio between the two clamped bounds. */
  function Piece<T>(audio: seq<T>, range: Range, paddingMs: int): (p: seq<T>)
    ensures var lo := PaddedStart(range, paddingMs);
            var hi := PaddedEnd(range, paddingMs, |audio|);
            && 0 <= lo && hi <= |audio|
            && (0 <= hi ==> p == if lo < hi then audio[lo..hi] else [])
  {
    var lo := PaddedStart(range, paddingMs);
    var hi := PaddedEnd(range, paddingMs, |audio|);
    if 0 <= hi then
      SliceWithinBounds(audio, lo, hi);
      PySlice(audio, lo, hi)
    else
      PySlice(audio, lo, hi)
  }

  /** The pieces of the first ranges, concatenated in order. */
  function Combined<T>(audio: seq<T>, ranges: seq<Range>, paddingMs: int): seq<T>
  {
    if ranges == [] then []
    else Combined(audio, ranges[..|ranges| - 1], paddingMs) + Piece(audio, ranges[|ranges| - 1], paddingMs)
  }

  /** The loop `for start_ms, end_ms in nonsilent_ranges: ... trimmed_audio
      += segment`. */
  method CombineRanges<T>(audio: seq<T>, ranges: seq<Range>, paddingMs: int) returns (trimmed: seq<T>)
    ensures trimmed == Combined(audio, ranges, paddingMs)
  {
    trimmed := [];
    for i := 0 to |ranges|
      invariant trimmed == Combined(audio, ranges[..i], paddingMs)
    {
      var startMs := Max(0, ranges[i].startMs - paddingMs);
      var endMs := Min(|audio|, ranges[i].endMs + paddingMs);
      var segment := PySlice(audio, startMs, endMs);
      assert ranges[..i + 1][..i] == ranges[..i];
      trimmed := trimmed + segment;
    }
    assert ranges[..|ranges|] == ranges;
  }

  /** Each padded range is ordered within the audio, and each starts at or
      after the end of the one before: the padded ranges do not overlap. */
  predicate PaddedApart(ranges: seq<Range>, paddingMs: int, duration: nat)
  {
    && (forall i :: 0 <= i < |ranges| ==> PaddedStart(ranges[i], paddingMs) <= PaddedEnd(ranges[i], paddingMs, duration))
    && (forall i :: 0 < i < |ranges| ==>
          PaddedEnd(ranges[i - 1], paddingMs, duration) <= PaddedStart(ranges[i], paddingMs))
  }

  /** When the padded ranges do not overlap, the kept audio is never longer
      than the original: it is no longer than the end of the last padded
      range. */
  lemma {:induction false} CombinedNoLongerThanAudio<T>(audio: seq<T>, ranges: seq<Range>, paddingMs: int)
    requires PaddedApart(ranges, paddingMs, |audio|)
    ensures |Combined(audio, ranges, paddingMs)| <= |audio|
    ensures ranges != [] ==> |Combined(audio, ranges, paddingMs)| <= PaddedEnd(ranges[|ranges| - 1], paddingMs, |audio|)
    decreases |ranges|
  {
    if ranges != [] {
      var init := ranges[..|ranges| - 1];
      var last := ranges[|ranges| - 1];
      assert PaddedApart(init, paddingMs, |audio|) by {
        forall i | 0 <= i < |init|
          ensures PaddedStart(init[i], paddingMs) <= PaddedEnd(init[i], paddingMs, |audio|)
        {
          assert init[i] == ranges[i];
        }
        forall i | 0 < i < |init|
          ensures PaddedEnd(init[i - 1], paddingMs, |audio|) <= PaddedStart(init[i], paddingMs)
        {
          assert init[i - 1] == ranges[i - 1] && init[i] == ranges[i];
        }
      }
      CombinedNoLongerThanAudio(audio, init, paddingMs);
      var lo := PaddedStart(last, paddingMs);
      var hi := PaddedEnd(last, paddingMs, |audio|);
      assert |Piece(audio, last, paddingMs)| == hi - lo;
      if init != [] {
        assert init[|init| - 1] == ranges[|ranges| - 2];
        assert |Combined(audio, init, paddingMs)| <= lo;
      }
    }
  }

  /** Padding overlapping ranges copies the audio between them twice: two
      ranges 100 ms apart, padded by 100 ms each, give 1100 ms of trimmed
      audio out of 1000 ms, so the reported silence removed is negative. The
      ranges are 100 ms apart when `min_silence_duration` is 0.1 s, which
      nothing in the service rejects. */
  lemma OverlappingPaddingDuplicatesAudio<T>(audio: seq<T>)
    requires |audio| == 1000
    ensures |Combined(audio, [Range(0, 400), Range(500, 1000)], 100)| == 1100
  {
    var ranges := [Range(0, 400), Range(500, 1000)];
    assert ranges[..1] == [Range(0, 400)];
    assert [Range(0, 400)][..0] == [];
    assert |Piece(audio, Range(0, 400), 100)| == 500;
    assert |Piece(audio, Range(500, 1000), 100)| == 600;
    assert |Combined(audio, [Range(0, 400)], 100)| == 500;
  }

  /** `int(x)` on a float: truncation toward zero. */
  function TruncToInt(x: real): (n: int)
    ensures x >= 0.0 ==> n as real <= x < n as real + 1.0
    ensures x < 0.0 ==> n as real - 1.0 < x <= n as real
  {
    if x >= 0.0 then x.Floor else -((-x).Floor)
  }

  /** What `trim` returns. The failure message is "No non-silent audio
      detected" or the message of the exception raised on the way. */
  datatype TrimResult<T> =
    | TrimFailed(error: string)
    | SilenceRemoved(
        outputPath: string,
        trimmed: seq<T>,
        originalDurationSeconds: real,
        trimmedDurationSeconds: real,
        silenceRemovedSeconds: real,
        reductionPercentage: real,
        segmentsKept: nat)
    | EdgesTrimmed(
        outputPath: string,
        trimmed: seq<T>,
        originalDurationSeconds: real,
        trimmedDurationSeconds: real)

  /** The service never passes `padding_ms`, so it is always 100. */
  const DefaultPaddingMs := 100

  function Seconds(ms: nat): real
  {
    ms as real / 1000.0
  }

  /** `trim`. The loaded audio (or the message of the exception loading
      raised), the non-silent ranges `detect_nonsilent` finds for a given
      minimum silence length, and the outcome of exporting the result (the
      message of the exception it raised, if any) are inputs. */
  method Trim<T>(
    loaded: Result<seq<T>, string>,
    detectNonsilent: (seq<T>, int) -> seq<Range>,
    dbfs: seq<T> -> real,
    outputPath: string,
    silenceThresholdDb: real,
    minSilenceDuration: real,
    removeSilence: bool,
    paddingMs: int,
    exportError: Option<string>)
    returns (r: TrimResult<T>)
    ensures loaded.Err? ==> r == TrimFailed(loaded.error)
    ensures loaded.Ok? && removeSilence ==>
      var audio := loaded.value;
      var ranges := detectNonsilent(audio, TruncToInt(minSilenceDuration * 1000.0));
      if ranges == [] then r == TrimFailed("No non-silent audio detected")
      else if exportError.Some? then r == TrimFailed(exportError.value)
      else if |audio| == 0 then r == TrimFailed("float division by zero")
      else
        && r.SilenceRemoved?
        && r.outputPath == outputPath
        && r.trimmed == Combined(audio, ranges, paddingMs)
        && r.segmentsKept == |ranges|
        && r.originalDurationSeconds == Seconds(|audio|)
        && r.trimmedDurationSeconds == Seconds(|r.trimmed|)
        && r.silenceRemovedSeconds == r.originalDurationSeconds - r.trimmedDurationSeconds
        && r.reductionPercentage == r.silenceRemovedSeconds / r.originalDurationSeconds * 100.0
    ensures loaded.Ok? && !removeSilence ==>
      if exportError.Some? then r == TrimFailed(exportError.value)
      else
        var trimmed := EdgeTrimmed(loaded.value, dbfs, silenceThresholdDb, paddingMs);
        r == EdgesTrimmed(outputPath, trimmed, Seconds(|loaded.value|), Seconds(|trimmed|))
  {
    if loaded.Err? {
      return TrimFailed(loaded.error);
    }
    var audio := loaded.value;
    var originalDuration := Seconds(|audio|);
    if removeSilence {
      var minSilenceLen := TruncToInt(minSilenceDuration * 1000.0);
      var ranges := detectNonsilent(audio, minSilenceLen);
      if ranges == [] {
        return TrimFailed("No non-silent audio detected");
      }
      var trimmed := CombineRanges(audio, ranges, paddingMs);
      if exportError.Some? {
        return TrimFailed(exportError.value);
      }
      var finalDuration := Seconds(|trimmed|);
      var silenceRemoved := originalDuration - finalDuration;
      if originalDuration == 0.0 {
        return TrimFailed("float division by zero");
      }
      r := SilenceRemoved(outputPath, trimmed, originalDuration, finalDuration, silenceRemoved,
                          silenceRemoved / originalDuration * 100.0, |ranges|);
    } else {
      var trimmed := TrimEdges(audio, dbfs, silenceThresholdDb, paddingMs);
      if exportError.Some? {
        return TrimFailed(exportError.value);
      }
      r := EdgesTrimmed(outputPath, trimmed, originalDuration, Seconds(|trimmed|));
    }
  }

  /** In silence-removal mode with non-overlapping padded ranges, the
      reported silence removed is never negative and the reduction lies in
      [0, 100]. */
  lemma SilenceRemovedIsNonNegative<T>(audio: seq<T>, ranges: seq<Range>, paddingMs: int)
    requires |audio| > 0
    requires PaddedApart(ranges, paddingMs, |audio|)
    ensures var removed := Seconds(|audio|) - Seconds(|Combined(audio, ranges, paddingMs)|);
            && 0.0 <= removed <= Seconds(|audio|)
            && 0.0 <= removed / Seconds(|audio|) * 100.0 <= 100.0
  {
    CombinedNoLongerThanAudio(audio, ranges, paddingMs);
    var total := Seconds(|audio|);
    var removed := total - Seconds(|Combined(audio, ranges, paddingMs)|);
    ShareIsPercentage(removed, total);
  }

  /** A part of a positive whole is between 0 and 100 per cent of it. */
  lemma ShareIsPercentage(part: real, whole: real)
    requires 0.0 <= part <= whole && whole > 0.0
    ensures 0.0 <= part / whole * 100.0 <= 100.0
  {
    var q := part / whole;
    assert q * whole == part;
  }
}
