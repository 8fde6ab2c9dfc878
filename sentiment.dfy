/** Sentiment analysis (audio_tools/sentiment.py): the analyzer that lazily
    loads its two classification models, maps the sentiment model's label to
    positive, negative or neutral, and keeps, orders and ranks the emotion
    model's scores. The models are abstract functions from a text to their
    predictions; loading a model either succeeds or raises with a message,
    which is an input. */
module Sentiment {
  import opened Common
  import Transcription

  /** One prediction of a classifier: `{"label": ..., "score": ...}`, the
      label held as `category`. */
  datatype Prediction = Prediction(category: string, score: real)

  /** A Python dictionary from label to score, in insertion order. */
  type Emotions = seq<Prediction>

  // ---------------------------------------------------------------------------
  // Label mapping

  /** The mapped sentiment of a raw label. */
  function MapLabel(rawLabel: string): (sentiment: string)
    ensures sentiment in {"positive", "negative", "neutral"}
    ensures sentiment == "positive" <==> ToLower(rawLabel) in {"positive", "pos"}
    ensures sentiment == "negative" <==> ToLower(rawLabel) in {"negative", "neg"}
  {
    var lowered := ToLower(rawLabel);
    if lowered in ["positive", "pos"] then "positive"
    else if lowered in ["negative", "neg"] then "negative"
    else "neutral"
  }

  // ---------------------------------------------------------------------------
  // Dictionaries of scores

  predicate DistinctLabels(d: Emotions)
  {
    forall i, j :: 0 <= i < j < |d| ==> d[i].category != d[j].category
  }

  function Labels(d: Emotions): set<string>
  {
    set p | p in d :: p.category
  }

  /** The position of `key` in `d`, if it is a key. */
  function IndexOf(d: Emotions, key: string): (r: Option<nat>)
    ensures r.Some? ==> r.value < |d| && d[r.value].category == key
    ensures r.None? ==> forall i :: 0 <= i < |d| ==> d[i].category != key
  {
    if d == [] then None
    else if d[|d| - 1].category == key then Some(|d| - 1)
    else IndexOf(d[..|d| - 1], key)
  }

  /** `d[key] = score`: a new key goes last, an existing key keeps its
      place and takes the new score. */
  function Put(d: Emotions, p: Prediction): (r: Emotions)
    requires DistinctLabels(d)
    ensures |r| == if p.category in Labels(d) then |d| else |d| + 1
    ensures DistinctLabels(r)
    ensures Labels(r) == Labels(d) + {p.category}
    ensures p in r
    ensures forall i :: 0 <= i < |d| && d[i].category != p.category ==> r[i] == d[i]
  {
    match IndexOf(d, p.category)
    case Some(i) =>
      var r := d[i := p];
      assert Labels(r) == Labels(d) by {
        assert forall j :: 0 <= j < |d| ==> r[j].category == d[j].category;
      }
      r
    case None =>
      var r := d + [p];
      assert r[|d|] == p;
      r
  }

  /** `{item["label"]: item["score"] for item in items}`. */
  function DictFromItems(items: seq<Prediction>): (d: Emotions)
    ensures DistinctLabels(d)
  {
    if items == [] then []
    else Put(DictFromItems(items[..|items| - 1]), items[|items| - 1])
  }

  /** `items[i]` is the last item with its label. */
  predicate LastWithLabel(items: seq<Prediction>, i: nat)
    requires i < |items|
  {
    forall j :: i < j < |items| ==> items[j].category != items[i].category
  }

  /** The dictionary holds exactly the items' labels. */
  lemma {:induction false} DictFromItemsLabels(items: seq<Prediction>)
    ensures Labels(DictFromItems(items)) == Labels(items)
  {
    if items != [] {
      var init := items[..|items| - 1];
      var last := items[|items| - 1];
      DictFromItemsLabels(init);
      LabelsSnoc(items);
      assert DictFromItems(items) == Put(DictFromItems(init), last);
    }
  }

  /** The last item adds its label to those of the items before it. */
  lemma LabelsSnoc(items: seq<Prediction>)
    requires items != []
    ensures Labels(items) == Labels(items[..|items| - 1]) + {items[|items| - 1].category}
  {
    var init := items[..|items| - 1];
    assert items == init + [items[|items| - 1]];
    assert forall p :: p in items <==> p in init || p == items[|items| - 1];
  }

  /** Each label's entry is the last item that carries it. */
  lemma {:induction false} DictFromItemsHoldsLastScores(items: seq<Prediction>)
    ensures forall i :: 0 <= i < |items| && LastWithLabel(items, i) ==> items[i] in DictFromItems(items)
  {
    if items != [] {
      var init := items[..|items| - 1];
      var last := items[|items| - 1];
      assert items == init + [last];
      assert DictFromItems(items) == Put(DictFromItems(init), last);
      DictFromItemsHoldsLastScores(init);
      forall i | 0 <= i < |init| && LastWithLabel(items, i)
        ensures items[i] in DictFromItems(items)
      {
        KeptEntrySurvivesPut(items, init, i, last);
      }
    }
  }

  lemma KeptEntrySurvivesPut(items: seq<Prediction>, init: seq<Prediction>, i: nat, last: Prediction)
    requires items == init + [last] && i < |init|
    requires forall i :: 0 <= i < |init| && LastWithLabel(init, i) ==> init[i] in DictFromItems(init)
    requires LastWithLabel(items, i)
    ensures items[i] in Put(DictFromItems(init), last)
  {
    assert items[|init|] == last && items[i] == init[i];
    assert LastWithLabel(init, i) by {
      forall j | i < j < |init|
        ensures init[j].category != init[i].category
      {
        assert items[j] == init[j];
      }
    }
    var d := DictFromItems(init);
    var k :| 0 <= k < |d| && d[k] == init[i];
    assert Put(d, last)[k] == d[k];
  }

  // ---------------------------------------------------------------------------
  // Threshold filter and ordering

  /** The items whose score reaches the threshold, in order. */
  function Qualifying(items: seq<Prediction>, threshold: real): (q: seq<Prediction>)
    ensures forall p :: p in q <==> p in items && p.score >= threshold
  {
    if items == [] then []
    else
      var rest := Qualifying(items[..|items| - 1], threshold);
      var last := items[|items| - 1];
      assert items == items[..|items| - 1] + [last];
      if last.score >= threshold then rest + [last] else rest
  }

  /** `{label: score for item in emotion_results if score >= threshold}`:
      the labels with a score at or above the threshold. */
  function FilterEmotions(items: seq<Prediction>, threshold: real): (d: Emotions)
    ensures DistinctLabels(d)
  {
    DictFromItems(Qualifying(items, threshold))
  }

  /** Every kept score reaches the threshold, and every label that has a
      score reaching it is kept. */
  lemma FilterEmotionsKeepsConfidentLabels(items: seq<Prediction>, threshold: real)
    ensures forall p :: p in FilterEmotions(items, threshold) ==> p in items && p.score >= threshold
    ensures forall i :: 0 <= i < |items| && items[i].score >= threshold ==> items[i].category in Labels(FilterEmotions(items, threshold))
  {
    var q := Qualifying(items, threshold);
    DictFromItemsLabels(q);
    DictEntriesAreItems(q);
    forall i | 0 <= i < |items| && items[i].score >= threshold
      ensures items[i].category in Labels(FilterEmotions(items, threshold))
    {
      assert items[i] in q;
      var k :| 0 <= k < |q| && q[k] == items[i];
      assert q[k] in q;
    }
  }

  /** Every entry of the dictionary is one of the items. */
  lemma {:induction false} DictEntriesAreItems(items: seq<Prediction>)
    ensures forall p :: p in DictFromItems(items) ==> p in items
  {
    if items != [] {
      var init := items[..|items| - 1];
      DictEntriesAreItems(init);
      forall p | p in DictFromItems(items)
        ensures p in items
      {
        var d := DictFromItems(init);
        var k :| 0 <= k < |DictFromItems(items)| && DictFromItems(items)[k] == p;
        if p != items[|items| - 1] {
          assert k < |d| && d[k] == p;
          assert p in init;
        }
      }
    }
  }

  /** Scores never increase along the dictionary. */
  predicate SortedByScoreDescending(d: Emotions)
  {
    forall i, j :: 0 <= i < j < |d| ==> d[i].score >= d[j].score
  }

  /** Place `p` before the first entry whose score does not exceed its own. */
  function InsertByScore(p: Prediction, d: Emotions): (r: Emotions)
    ensures multiset(r) == multiset(d) + multiset{p}
  {
    if d == [] then [p]
    else if d[0].score <= p.score then [p] + d
    else
      assert d == [d[0]] + d[1..];
      [d[0]] + InsertByScore(p, d[1..])
  }

  lemma {:induction false} InsertKeepsSorted(p: Prediction, d: Emotions)
    requires SortedByScoreDescending(d)
    ensures SortedByScoreDescending(InsertByScore(p, d))
  {
    if d != [] && d[0].score > p.score {
      var tail := d[1..];
      var rest := InsertByScore(p, tail);
      InsertKeepsSorted(p, tail);
      InsertKeepsBound(p, tail, d[0].score);
      var r := [d[0]] + rest;
      forall i, j | 0 <= i < j < |r|
        ensures r[i].score >= r[j].score
      {
        assert r[j] == rest[j - 1];
        if i > 0 {
          assert r[i] == rest[i - 1];
        }
      }
    }
  }

  /** A score at least every entry's and the inserted one's stays at least
      every entry's. */
  lemma {:induction false} InsertKeepsBound(p: Prediction, d: Emotions, bound: real)
    requires bound >= p.score
    requires forall k :: 0 <= k < |d| ==> bound >= d[k].score
    ensures forall k :: 0 <= k < |InsertByScore(p, d)| ==> bound >= InsertByScore(p, d)[k].score
  {
    if d != [] && d[0].score > p.score {
      InsertKeepsBound(p, d[1..], bound);
    }
  }

  /** `dict(sorted(emotions.items(), key=score, reverse=True))`. */
  function SortByScore(d: Emotions): (r: Emotions)
    ensures multiset(r) == multiset(d)
    ensures SortedByScoreDescending(r)
  {
    if d == [] then []
    else
      assert d == [d[0]] + d[1..];
      var sortedTail := SortByScore(d[1..]);
      InsertKeepsSorted(d[0], sortedTail);
      InsertByScore(d[0], sortedTail)
  }

  /** Sorting keeps the keys and their scores: the same entries, still one
      per label. */
  lemma SortKeepsEntries(d: Emotions)
    requires DistinctLabels(d)
    ensures DistinctLabels(SortByScore(d))
    ensures forall p :: p in SortByScore(d) <==> p in d
  {
    var r := SortByScore(d);
    forall p ensures p in r <==> p in d {
      assert p in r <==> p in multiset(r);
    }
    forall i, j | 0 <= i < j < |r|
      ensures r[i].category != r[j].category
    {
      if r[i].category == r[j].category {
        assert r[i] in d && r[j] in d;
        var a :| 0 <= a < |d| && d[a] == r[i];
        var b :| 0 <= b < |d| && d[b] == r[j];
        assert a == b;
        OccursTwice(r, i, j);
        OccursOnce(d, a);
      }
    }
  }

  lemma OccursTwice(r: Emotions, i: nat, j: nat)
    requires i < j < |r| && r[i] == r[j]
    ensures multiset(r)[r[i]] >= 2
  {
    assert r == r[..i] + [r[i]] + r[i + 1..j] + [r[j]] + r[j + 1..];
  }

  /** In a dictionary each entry occurs once. */
  lemma OccursOnce(d: Emotions, a: nat)
    requires DistinctLabels(d) && a < |d|
    ensures multiset(d)[d[a]] == 1
  {
    assert d == d[..a] + [d[a]] + d[a + 1..];
    assert d[a] !in d[..a];
    assert d[a] !in d[a + 1..];
  }

  /** `list(emotions.keys())[0]`, when there is any. */
  function Dominant(emotions: Emotions): (r: Option<string>)
    ensures r.Some? <==> emotions != []
  {
    if emotions == [] then None else Some(emotions[0].category)
  }

  /** The dominant emotion has the highest score. */
  lemma DominantHasTopScore(items: seq<Prediction>, threshold: real)
    ensures var emotions := SortByScore(FilterEmotions(items, threshold));
            Dominant(emotions).Some? ==>
              && Dominant(emotions).value in Labels(emotions)
              && emotions[0].score >= threshold
              && forall p :: p in emotions ==> emotions[0].score >= p.score
  {
    var d := FilterEmotions(items, threshold);
    var emotions := SortByScore(d);
    FilterEmotionsKeepsConfidentLabels(items, threshold);
    SortKeepsEntries(d);
    if emotions != [] {
      assert emotions[0] in d;
    }
  }

  // ---------------------------------------------------------------------------
  // The analyzer

  /** What `analyze` and `analyze_text` return. `emotions` is `None` when the
      key is absent. */
  datatype Analysis =
    | Failed(error: string)
    | Analyzed(
        sentiment: string,
        sentimentScore: real,
        transcript: Option<string>,
        emotions: Option<Emotions>,
        dominantEmotion: Option<string>)

  /** The result of a successful `analyze` on a non-blank transcript. */
  function AnalysisOf(
    transcript: string, includeEmotions: bool, confidenceThreshold: real, emotionModelLoaded: bool,
    sentimentModel: string -> Prediction, emotionModel: string -> seq<Prediction>): (r: Analysis)
    ensures r.Analyzed? && r.transcript == Some(transcript)
    ensures r.sentiment == MapLabel(sentimentModel(transcript).category)
    ensures r.sentimentScore == sentimentModel(transcript).score
  {
    var prediction := sentimentModel(transcript);
    if includeEmotions && emotionModelLoaded then
      var emotions := SortByScore(FilterEmotions(emotionModel(transcript), confidenceThreshold));
      Analyzed(MapLabel(prediction.category), prediction.score, Some(transcript), Some(emotions), Dominant(emotions))
    else
      Analyzed(MapLabel(prediction.category), prediction.score, Some(transcript), None, None)
  }

  /** `analyze` returns a mapped sentiment, emotions only when asked for and
      the model is loaded, and a dominant emotion only when some emotion
      passed the threshold. */
  lemma AnalysisShape(
    transcript: string, includeEmotions: bool, confidenceThreshold: real, emotionModelLoaded: bool,
    sentimentModel: string -> Prediction, emotionModel: string -> seq<Prediction>)
    ensures var r := AnalysisOf(transcript, includeEmotions, confidenceThreshold, emotionModelLoaded, sentimentModel, emotionModel);
            && r.Analyzed?
            && r.sentiment in {"positive", "negative", "neutral"}
            && (r.emotions.Some? <==> includeEmotions && emotionModelLoaded)
            && (r.dominantEmotion.Some? <==> r.emotions.Some? && r.emotions.value != [])
            && (r.emotions.Some? ==> SortedByScoreDescending(r.emotions.value) && DistinctLabels(r.emotions.value))
            && (r.emotions.Some? ==> forall p :: p in r.emotions.value ==> p.score >= confidenceThreshold)
  {
    if includeEmotions && emotionModelLoaded {
      var d := FilterEmotions(emotionModel(transcript), confidenceThreshold);
      FilterEmotionsKeepsConfidentLabels(emotionModel(transcript), confidenceThreshold);
      SortKeepsEntries(d);
    }
  }

  /** The transcript `analyze` works on: the one given, or the transcriber's
      when none is given and transcription succeeded. */
  function EffectiveTranscript(transcript: Option<string>, transcription: Transcription.TranscribeResult): Option<string>
  {
    if transcript.Some? then transcript
    else if transcription.Success? then Some(transcription.transcript)
    else None
  }

  class SentimentAnalyzer {
    var sentimentModelLoaded: bool
    var emotionModelLoaded: bool

    constructor()
      ensures !sentimentModelLoaded && !emotionModelLoaded
    {
      sentimentModelLoaded := false;
      emotionModelLoaded := false;
    }

    /** `_load_models`: a missing sentiment model is loaded, and its failure
        propagates; a missing emotion model is then loaded, and its failure
        only leaves it missing. */
    method LoadModels(sentimentLoadError: Option<string>, emotionLoadError: Option<string>) returns (raised: Option<string>)
      modifies this
      ensures raised.Some? <==> !old(sentimentModelLoaded) && sentimentLoadError.Some?
      ensures raised.Some? ==> raised == sentimentLoadError && unchanged(this)
      ensures raised.None? ==> sentimentModelLoaded && emotionModelLoaded == (old(emotionModelLoaded) || emotionLoadError.None?)
    {
      if !sentimentModelLoaded {
        if sentimentLoadError.Some? {
          return sentimentLoadError;
        }
        sentimentModelLoaded := true;
      }
      if !emotionModelLoaded {
        emotionModelLoaded := emotionLoadError.None?;
      }
      return None;
    }

    /** `analyze`. The transcriber's result is used only when no transcript
        is given. */
    method Analyze(
      transcript: Option<string>, transcription: Transcription.TranscribeResult,
      includeEmotions: bool, confidenceThreshold: real,
      sentimentLoadError: Option<string>, emotionLoadError: Option<string>,
      sentimentModel: string -> Prediction, emotionModel: string -> seq<Prediction>)
      returns (r: Analysis)
      modifies this
      ensures var t := EffectiveTranscript(transcript, transcription);
              if t.None? then r == Failed("Transcription failed") && unchanged(this)
              else if AllSpace(t.value) then r == Failed("Empty transcript") && unchanged(this)
              else if !old(sentimentModelLoaded) && sentimentLoadError.Some? then r == Failed(sentimentLoadError.value) && unchanged(this)
              else
                && sentimentModelLoaded
                && emotionModelLoaded == (old(emotionModelLoaded) || emotionLoadError.None?)
                && r == AnalysisOf(t.value, includeEmotions, confidenceThreshold, emotionModelLoaded, sentimentModel, emotionModel)
    {
      var text: string;
      if transcript.None? {
        if !transcription.Success? {
          return Failed("Transcription failed");
        }
        text := transcription.transcript;
      } else {
        text := transcript.value;
      }
      if text == [] || |Strip(text)| == 0 {
        return Failed("Empty transcript");
      }
      var raised := LoadModels(sentimentLoadError, emotionLoadError);
      if raised.Some? {
        return Failed(raised.value);
      }
      var prediction := sentimentModel(text);
      var sentiment := MapLabel(prediction.category);
      if includeEmotions && emotionModelLoaded {
        var emotions := FilterEmotions(emotionModel(text), confidenceThreshold);
        emotions := SortByScore(emotions);
        var dominant: Option<string> := None;
        if emotions != [] {
          dominant := Some(emotions[0].category);
        }
        r := Analyzed(sentiment, prediction.score, Some(text), Some(emotions), dominant);
      } else {
        r := Analyzed(sentiment, prediction.score, Some(text), None, None);
      }
    }

    /** `analyze_text`: the raw lowered label, and every emotion's score
        without a threshold or ordering. */
    method AnalyzeText(
      text: string, includeEmotions: bool,
      sentimentLoadError: Option<string>, emotionLoadError: Option<string>,
      sentimentModel: string -> Prediction, emotionModel: string -> seq<Prediction>)
      returns (r: Analysis)
      modifies this
      ensures !old(sentimentModelLoaded) && sentimentLoadError.Some? ==> r == Failed(sentimentLoadError.value) && unchanged(this)
      ensures old(sentimentModelLoaded) || sentimentLoadError.None? ==>
        && sentimentModelLoaded
        && emotionModelLoaded == (old(emotionModelLoaded) || emotionLoadError.None?)
        && r.Analyzed?
        && r.sentiment == ToLower(sentimentModel(text).category)
        && r.sentimentScore == sentimentModel(text).score
        && r.transcript.None? && r.dominantEmotion.None?
        && r.emotions == if includeEmotions && emotionModelLoaded then Some(DictFromItems(emotionModel(text))) else None
    {
      var raised := LoadModels(sentimentLoadError, emotionLoadError);
      if raised.Some? {
        return Failed(raised.value);
      }
      var prediction := sentimentModel(text);
      var emotions: Option<Emotions> := None;
      if includeEmotions && emotionModelLoaded {
        emotions := Some(DictFromItems(emotionModel(text)));
      }
      r := Analyzed(ToLower(prediction.category), prediction.score, None, emotions, None);
    }
  }
}
