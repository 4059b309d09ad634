/** The sentiment labeller: a blank text is NEUTRAL with score 0.0 without asking the model, any
    other text is classified on its first 512 characters, and `analyze_reviews` writes one label
    and one score per row into the caller's frame. The DistilBERT pipeline is an uninterpreted
    function from the text it is given to its first prediction. */
module Sentiment {
  import opened Python
  import opened Frame

  const NEUTRAL := "NEUTRAL"
  const POSITIVE := "POSITIVE"
  const NEGATIVE := "NEGATIVE"

  /** The classifier's input limit, in characters. */
  const MAX_CHARS := 512

  const ZERO_SCORE: Value := Float("0.0", "0.0")

  /** One prediction of the classifier: `{'label': ..., 'score': ...}`. */
  datatype Prediction = Prediction(sentiment: string, score: Value)

  const NEUTRAL_PREDICTION := Prediction(NEUTRAL, ZERO_SCORE)

  /** What `analyze` hands to the classifier: nothing for a blank text, otherwise the text cut
      to its first 512 characters. */
  function ClassifierInput(text: Option<string>): (r: Option<string>)
    ensures r.None? <==> NoText(text)
    ensures r.Some? ==> text.Some? && |r.value| <= MAX_CHARS && |r.value| <= |text.value| && r.value == text.value[..|r.value|]
    ensures r.Some? && |text.value| <= MAX_CHARS ==> r.value == text.value
    ensures r.Some? ==> r.value != []
  {
    if NoText(text) then None else Some(Truncate(text.value, MAX_CHARS))
  }

  /** The analyser, given the classifier it wraps (`self.analyzer(text)[0]`). */
  datatype SentimentAnalyzer = SentimentAnalyzer(classify: string -> Prediction)
  {
    /** `analyze`: NEUTRAL/0.0 for a missing or blank text, otherwise the classifier's
        prediction on what `ClassifierInput` lets through. */
    function Analyze(text: Option<string>): (p: Prediction)
      ensures NoText(text) ==> p == NEUTRAL_PREDICTION
      ensures !NoText(text) ==> p == classify(ClassifierInput(text).value)
    {
      if NoText(text) then NEUTRAL_PREDICTION else classify(Truncate(text.value, MAX_CHARS))
    }

    /** The (sentiment, score) that `analyze_reviews` records for one row: the analysis of its
        caption when `has_text` is truthy, NEUTRAL/0.0 otherwise. */
    function RowPrediction(row: Row): (p: Prediction)
      requires Labellable(row)
      ensures !Truthy(row[HAS_TEXT]) ==> p == NEUTRAL_PREDICTION
      ensures Truthy(row[HAS_TEXT]) ==> p == Analyze(CaptionText(row[CAPTION]))
    {
      if Truthy(row[HAS_TEXT]) then Analyze(CaptionText(row[CAPTION])) else NEUTRAL_PREDICTION
    }

    /** The frame after `analyze_reviews`: the `sentiment` and `sentiment_score` columns assigned
        from the per-row predictions. */
    function Labelled(rows: seq<Row>): (r: seq<Row>)
      requires TextFlagged(rows)
      requires forall i :: 0 <= i < |rows| ==> Labellable(rows[i])
      ensures |r| == |rows|
    {
      var ps := seq(|rows|, i requires 0 <= i < |rows| => RowPrediction(rows[i]));
      Assigned(
        Assigned(rows, SENTIMENT, seq(|ps|, i requires 0 <= i < |ps| => Str(ps[i].sentiment))),
        SENTIMENT_SCORE, seq(|ps|, i requires 0 <= i < |ps| => ps[i].score))
    }

    /** `analyze_reviews`: one prediction per row, collected in row order, then written into two
        columns of the caller's frame, which it returns. */
    method AnalyzeReviews(df: DataFrame) returns (r: DataFrame)
      requires TextFlagged(df.rows)
      requires forall i :: 0 <= i < |df.rows| ==> Labellable(df.rows[i])
      modifies df
      ensures r == df
      ensures df.rows == Labelled(old(df.rows))
    {
      var rows := df.rows;
      var sentiments: seq<Prediction> := [];
      var i := 0;
      while i < |rows|
        invariant 0 <= i <= |rows|
        invariant |sentiments| == i
        invariant forall k :: 0 <= k < i ==> sentiments[k] == RowPrediction(rows[k])
      {
        var row := rows[i];
        if Truthy(row[HAS_TEXT]) {
          var result := Analyze(CaptionText(row[CAPTION]));
          sentiments := sentiments + [Prediction(result.sentiment, result.score)];
        } else {
          sentiments := sentiments + [NEUTRAL_PREDICTION];
        }
        i := i + 1;
      }
      df.Assign(SENTIMENT, seq(|sentiments|, k requires 0 <= k < |sentiments| => Str(sentiments[k].sentiment)));
      df.Assign(SENTIMENT_SCORE, seq(|sentiments|, k requires 0 <= k < |sentiments| => sentiments[k].score));
      r := df;
    }
  }

  /** What the loop of `analyze_reviews` needs of a row: a `has_text` cell, and a caption that is
      text or missing wherever `has_text` is truthy (any other caption would make `strip` raise).
      The mask `df[df['has_text']]` that follows also needs every `has_text` to be a boolean,
      which is `TextFlagged`. */
  predicate Labellable(row: Row) {
    HAS_TEXT in row && (Truthy(row[HAS_TEXT]) ==> CAPTION in row && (row[CAPTION].Str? || row[CAPTION].Null?))
  }

  /** A blank text never reaches the classifier: any two analysers agree on it. */
  lemma BlankIgnoresModel(a: SentimentAnalyzer, b: SentimentAnalyzer, text: Option<string>)
    requires NoText(text)
    ensures a.Analyze(text) == b.Analyze(text) == NEUTRAL_PREDICTION
  {
  }

  /** Only the first 512 characters of a non-blank text matter. */
  lemma OnlyPrefixMatters(a: SentimentAnalyzer, s: string, t: string)
    requires !NoText(Some(s)) && !NoText(Some(t))
    requires |s| >= MAX_CHARS && |t| >= MAX_CHARS && s[..MAX_CHARS] == t[..MAX_CHARS]
    ensures a.Analyze(Some(s)) == a.Analyze(Some(t))
  {
  }

  /** A text made only of whitespace is labelled NEUTRAL/0.0, however long. */
  lemma WhitespaceIsNeutral(a: SentimentAnalyzer, s: string)
    requires forall k :: 0 <= k < |s| ==> IsSpace(s[k])
    ensures a.Analyze(Some(s)) == NEUTRAL_PREDICTION
  {
    NoTextIffAllSpace(s);
  }

  /** `analyze_reviews` keeps the rows in order and changes nothing but the two columns it
      writes: each row gains (or has overwritten) `sentiment` and `sentiment_score`, holding the
      label and score of its own prediction, and every other column keeps its value. */
  lemma LabelledSpec(a: SentimentAnalyzer, rows: seq<Row>, i: int)
    requires TextFlagged(rows)
    requires forall j :: 0 <= j < |rows| ==> Labellable(rows[j])
    requires 0 <= i < |rows|
    ensures var r := a.Labelled(rows)[i];
      && r.Keys == rows[i].Keys + {SENTIMENT, SENTIMENT_SCORE}
      && r[SENTIMENT] == Str(a.RowPrediction(rows[i]).sentiment)
      && r[SENTIMENT_SCORE] == a.RowPrediction(rows[i]).score
      && (forall k :: k in rows[i] && k != SENTIMENT && k != SENTIMENT_SCORE ==> r[k] == rows[i][k])
  {
  }

  /** A row without text is labelled NEUTRAL with score 0.0; a row with text gets the analysis of
      its caption. */
  lemma LabelledByText(a: SentimentAnalyzer, rows: seq<Row>, i: int)
    requires TextFlagged(rows)
    requires forall j :: 0 <= j < |rows| ==> Labellable(rows[j])
    requires 0 <= i < |rows|
    ensures HAS_TEXT in rows[i]
    ensures !Truthy(rows[i][HAS_TEXT]) ==>
      a.Labelled(rows)[i][SENTIMENT] == Str(NEUTRAL) && a.Labelled(rows)[i][SENTIMENT_SCORE] == ZERO_SCORE
    ensures Truthy(rows[i][HAS_TEXT]) ==>
      a.Labelled(rows)[i][SENTIMENT] == Str(a.Analyze(CaptionText(rows[i][CAPTION])).sentiment)
  {
    LabelledSpec(a, rows, i);
  }
}
