/** The Gemini analyser: the review metrics (row count, text-row count, sentiment counts over the
    text rows) and the two prompts built from a sample of the first 15 text rows, each caption
    cut to 300 characters. The generative model is an object that records every prompt it is
    given; what it answers is not modelled, and neither is the mean rating, which is a
    parameter. */
module Llm {
  import opened Python
  import opened Counter
  import opened Frame

  /** How many text rows the prompts sample, and how much of each caption they show. */
  const SAMPLE_SIZE := 15
  const CAPTION_CHARS := 300

  const POSITIVE := Str("POSITIVE")
  const NEUTRAL := Str("NEUTRAL")
  const NEGATIVE := Str("NEGATIVE")

  const STAR := "\U{2605}"
  const GLOWING_STAR := "\U{2B50}"

  const INSIGHTS_FOOTER :=
    "\n\nProvide ONLY:\n" +
    "1. Top positive highlights - 1-2 lines max, common positive themes/keywords\n" +
    "2. Top negative pain points - 1-2 lines max, frequent complaints/keywords  \n" +
    "3. Customer tips - 1-2 lines max, what to try/order, what to avoid, best dishes mentioned\n" +
    "\n" +
    "Keep it crisp and professional. No markdown headers. Frame #3 as advice for potential customers visiting this place."

  const INSIGHTS_OPENING := "Analyze these reviews briefly:\n\nData:\n- Total: "

  const ANSWER_CUE := "\n\nAnswer based on the reviews above:"

  /** `genai.GenerativeModel`: every `generate_content` is recorded in `prompts`, in order. */
  class GenerativeModel {
    var prompts: seq<string>

    constructor ()
      ensures prompts == []
    {
      prompts := [];
    }

    /** One request; the reply text is arbitrary. */
    method GenerateContent(prompt: string) returns (text: string)
      modifies this
      ensures prompts == old(prompts) + [prompt]
    {
      prompts := prompts + [prompt];
      text := *;
    }
  }

  /** What the analyser needs of the frame: a boolean `has_text` mask, and in every text row a
      text caption, a rating and a sentiment. */
  predicate Analysable(rows: seq<Row>) {
    && TextFlagged(rows)
    && forall i :: 0 <= i < |rows| ==> IsTextRow(rows[i]) ==> SampleReady(rows[i])
  }

  predicate SampleReady(row: Row) {
    CAPTION in row && row[CAPTION].Str? && RATING in row && SENTIMENT in row
  }

  lemma TextRowsReady(rows: seq<Row>)
    requires Analysable(rows)
    ensures forall i :: 0 <= i < |TextRows(rows)| ==> SampleReady(TextRows(rows)[i])
  {
    var text := TextRows(rows);
    forall i | 0 <= i < |text| ensures SampleReady(text[i]) {
      var j :| 0 <= j < |rows| && rows[j] == text[i];
    }
  }

  /** `text_reviews.head(15)`: the first 15 text rows, in row order (all of them when fewer). */
  function Sample(rows: seq<Row>): (r: seq<Row>)
    requires Analysable(rows)
    ensures |r| == if |TextRows(rows)| <= SAMPLE_SIZE then |TextRows(rows)| else SAMPLE_SIZE
    ensures r == TextRows(rows)[..|r|]
    ensures forall i :: 0 <= i < |r| ==> SampleReady(r[i]) && IsTextRow(r[i])
  {
    TextRowsReady(rows);
    SliceTo(TextRows(rows), SAMPLE_SIZE)
  }

  /** The sentiment values of the rows that are not missing (what `value_counts` counts). */
  function PresentSentiments(rows: seq<Row>): (r: seq<Value>)
    requires forall i :: 0 <= i < |rows| ==> SENTIMENT in rows[i]
    ensures |r| <= |rows|
  {
    if rows == [] then []
    else
      var last := rows[|rows| - 1][SENTIMENT];
      PresentSentiments(rows[..|rows| - 1]) + (if IsNA(last) then [] else [last])
  }

  /** Every sentiment that is not missing is counted, in row order. */
  lemma {:induction false} PresentSentimentsComplete(rows: seq<Row>, i: nat)
    requires HasColumn(rows, SENTIMENT)
    requires i < |rows| && !IsNA(rows[i][SENTIMENT])
    ensures |PresentSentiments(rows[..i])| < |PresentSentiments(rows)|
    ensures PresentSentiments(rows)[|PresentSentiments(rows[..i])|] == rows[i][SENTIMENT]
  {
    var front := rows[..|rows| - 1];
    if i == |rows| - 1 {
      assert rows[..i] == front;
    } else {
      assert front[..i] == rows[..i];
      PresentSentimentsComplete(front, i);
    }
  }

  /** `value_counts` finds each label as often as the rows carry it. */
  lemma {:induction false} PresentSentimentsCount(rows: seq<Row>, v: Value)
    requires HasColumn(rows, SENTIMENT) && !IsNA(v)
    ensures Count(PresentSentiments(rows), v) == Count(Column(rows, SENTIMENT), v)
  {
    if rows != [] {
      var front := rows[..|rows| - 1];
      PresentSentimentsCount(front, v);
      var c := Column(rows, SENTIMENT);
      assert c[..|c| - 1] == Column(front, SENTIMENT);
      var ps := PresentSentiments(front);
      var last := rows[|rows| - 1][SENTIMENT];
      assert c[|c| - 1] == last;
      assert Count(c, v) == Count(ps, v) + (if last == v then 1 else 0);
      if !IsNA(last) {
        assert (ps + [last])[..|ps|] == ps;
        assert PresentSentiments(rows) == ps + [last];
      } else {
        assert PresentSentiments(rows) == ps + [] == ps;
      }
    }
  }

  /** `text_reviews['sentiment'].value_counts().to_dict()`: label and count, most frequent
      first. */
  function SentimentCounts(rows: seq<Row>): (r: seq<(Value, nat)>)
    requires Analysable(rows)
    ensures var xs := TextSentiments(rows);
      && |r| == |Distinct(xs)|
      && (forall i :: 0 <= i < |r| ==> r[i].1 == Count(xs, r[i].0) >= 1)
      && (forall i, j :: 0 <= i < j < |r| ==> r[i].0 != r[j].0 && Precedes(xs, r[i].0, r[j].0))
  {
    RankedCounts(TextSentiments(rows))
  }

  /** `Counter(xs).most_common()` with every element kept. */
  function RankedCounts(xs: seq<Value>): (r: seq<(Value, nat)>)
    ensures |r| == |Distinct(xs)|
    ensures forall i :: 0 <= i < |r| ==> r[i].1 == Count(xs, r[i].0) >= 1
    ensures forall i, j :: 0 <= i < j < |r| ==> r[i].0 != r[j].0 && Precedes(xs, r[i].0, r[j].0)
  {
    MostCommonCounts(xs, |xs|);
    MostCommonRanked(xs, |xs|);
    DistinctNoLonger(xs);
    MostCommon(xs, |xs|)
  }

  /** The sentiments of the text rows, missing ones dropped. */
  function TextSentiments(rows: seq<Row>): (xs: seq<Value>)
    requires Analysable(rows)
    ensures |xs| <= |TextRows(rows)|
  {
    TextRowsReady(rows);
    PresentSentiments(TextRows(rows))
  }

  /** Each label is counted once for every text row that carries it. */
  lemma TextSentimentsCount(rows: seq<Row>, v: Value)
    requires Analysable(rows) && !IsNA(v)
    ensures HasColumn(TextRows(rows), SENTIMENT)
    ensures Count(TextSentiments(rows), v) == Count(Column(TextRows(rows), SENTIMENT), v)
  {
    TextRowsReady(rows);
    PresentSentimentsCount(TextRows(rows), v);
  }

  /** The figures `generate_insights` reports next to the analysis. */
  datatype Metrics = Metrics(total: nat, withText: nat, positive: nat, neutral: nat, negative: nat)

  /** The metrics of a frame: its row count, its text-row count, and for each of the three
      labels the number of text rows carrying it (0 when none does). */
  function MetricsOf(rows: seq<Row>): (m: Metrics)
    requires Analysable(rows)
    ensures m.total == |rows| && m.withText == |TextRows(rows)|
    ensures var xs := TextSentiments(rows);
      m.positive == Count(xs, POSITIVE) && m.neutral == Count(xs, NEUTRAL) && m.negative == Count(xs, NEGATIVE)
  {
    var xs := TextSentiments(rows);
    var counts := SentimentCounts(rows);
    LookupAllCounts(xs, POSITIVE);
    LookupAllCounts(xs, NEUTRAL);
    LookupAllCounts(xs, NEGATIVE);
    Metrics(|rows|, |TextRows(rows)|, Lookup(counts, POSITIVE, 0), Lookup(counts, NEUTRAL, 0), Lookup(counts, NEGATIVE, 0))
  }

  /** The three sentiment counts together never exceed the text rows, which never exceed the
      rows. */
  lemma MetricsBounded(rows: seq<Row>)
    requires Analysable(rows)
    ensures var m := MetricsOf(rows);
      m.positive + m.neutral + m.negative <= m.withText <= m.total
  {
    var xs := TextSentiments(rows);
    CountThreeBounded(xs, POSITIVE, NEUTRAL, NEGATIVE);
  }

  /** A frame without text rows has all three counts at 0. */
  lemma NoTextNoCounts(rows: seq<Row>)
    requires Analysable(rows) && TextRows(rows) == []
    ensures MetricsOf(rows).positive == MetricsOf(rows).neutral == MetricsOf(rows).negative == 0
  {
    assert TextSentiments(rows) == [];
  }

  /** `str(d)` for the counts dict: `{'POSITIVE': 3, 'NEGATIVE': 1}`. */
  function DictText(pairs: seq<(Value, nat)>): (r: string)
    ensures |r| >= 2 && r[0] == '{' && r[|r| - 1] == '}'
    ensures pairs == [] ==> r == "{}"
    ensures |pairs| == 1 ==> r == "{" + ReprOf(pairs[0].0) + ": " + NatText(pairs[0].1) + "}"
  {
    "{" + Join(", ", seq(|pairs|, i requires 0 <= i < |pairs| => ReprOf(pairs[i].0) + ": " + NatText(pairs[i].1))) + "}"
  }

  /** The data block of the insights prompt: it opens with the total row count and closes with
      the heading of the sample. */
  function InsightsHeader(rows: seq<Row>, avgRating: Value): (r: string)
    requires Analysable(rows) && avgRating.Float?
    ensures var opening := INSIGHTS_OPENING + NatText(|rows|) + " reviews\n";
      |r| >= |opening| && r[..|opening|] == opening
    ensures var closing := "Sample reviews:\n";
      |r| >= |closing| && r[|r| - |closing|..] == closing
  {
    var m := MetricsOf(rows);
    var opening := INSIGHTS_OPENING + NatText(m.total) + " reviews\n";
    var figures :=
      "- With text: " + NatText(m.withText) + " reviews\n" +
      "- Average rating: " + avgRating.fixed1 + "/5\n" +
      "- Sentiment: " + DictText(SentimentCounts(rows)) + "\n\n";
    var closing := "Sample reviews:\n";
    Framed(opening, figures, closing);
    opening + figures + closing
  }

  /** One sampled review in the insights prompt: `\n{rating}★ [{sentiment}]: {caption[:300]}`. */
  function InsightsLine(row: Row): (r: string)
    requires SampleReady(row)
    ensures var opening := "\n" + StrOf(row[RATING]) + STAR;
      |r| >= |opening| && r[..|opening|] == opening
  {
    "\n" + StrOf(row[RATING]) + STAR + " [" + StrOf(row[SENTIMENT]) + "]: " + Truncate(row[CAPTION].s, CAPTION_CHARS)
  }

  /** One sampled review in the question prompt: `\n{rating}⭐: {caption[:300]}`. */
  function QuestionLine(row: Row): (r: string)
    requires SampleReady(row)
    ensures var opening := "\n" + StrOf(row[RATING]) + GLOWING_STAR;
      |r| >= |opening| && r[..|opening|] == opening
  {
    "\n" + StrOf(row[RATING]) + GLOWING_STAR + ": " + Truncate(row[CAPTION].s, CAPTION_CHARS)
  }

  function InsightsLines(sample: seq<Row>): (r: seq<string>)
    requires forall i :: 0 <= i < |sample| ==> SampleReady(sample[i])
    ensures |r| == |sample|
    ensures forall i :: 0 <= i < |sample| ==> r[i] == InsightsLine(sample[i])
  {
    seq(|sample|, i requires 0 <= i < |sample| => InsightsLine(sample[i]))
  }

  function QuestionLines(sample: seq<Row>): (r: seq<string>)
    requires forall i :: 0 <= i < |sample| ==> SampleReady(sample[i])
    ensures |r| == |sample|
    ensures forall i :: 0 <= i < |sample| ==> r[i] == QuestionLine(sample[i])
  {
    seq(|sample|, i requires 0 <= i < |sample| => QuestionLine(sample[i]))
  }

  /** The prompt `generate_insights` sends. */
  function InsightsPrompt(rows: seq<Row>, avgRating: Value): (p: string)
    requires Analysable(rows) && avgRating.Float?
    ensures var header := InsightsHeader(rows, avgRating);
      |p| >= |header| + |INSIGHTS_FOOTER| && p[..|header|] == header && p[|p| - |INSIGHTS_FOOTER|..] == INSIGHTS_FOOTER
    ensures var header := InsightsHeader(rows, avgRating);
      |p| >= |header| + |INSIGHTS_FOOTER| && p[|header|..|p| - |INSIGHTS_FOOTER|] == Concat(InsightsLines(Sample(rows)))
  {
    var header := InsightsHeader(rows, avgRating);
    var lines := Concat(InsightsLines(Sample(rows)));
    Framed(header, lines, INSIGHTS_FOOTER);
    header + lines + INSIGHTS_FOOTER
  }

  function QuestionHeader(rows: seq<Row>, avgRating: Value): string
    requires avgRating.Float?
  {
    "You are analyzing restaurant reviews. Here's the data:\n\n" +
    "Total: " + NatText(|rows|) + " reviews\n" +
    "Average Rating: " + avgRating.fixed1 + "/5\n\n" +
    "Reviews:\n"
  }

  /** The prompt `ask_question` sends. */
  function QuestionPrompt(rows: seq<Row>, avgRating: Value, question: string): (p: string)
    requires Analysable(rows) && avgRating.Float?
    ensures var header := QuestionHeader(rows, avgRating);
      |p| >= |header| && p[..|header|] == header
    ensures var header := QuestionHeader(rows, avgRating);
      var tail := "\n\nQuestion: " + question + ANSWER_CUE;
      |p| >= |header| + |tail| && p[|header|..|p| - |tail|] == Concat(QuestionLines(Sample(rows)))
  {
    var header := QuestionHeader(rows, avgRating);
    var lines := Concat(QuestionLines(Sample(rows)));
    var tail := "\n\nQuestion: " + question + ANSWER_CUE;
    Framed(header, lines, tail);
    header + lines + tail
  }

  /** Each sampled caption is shown through its first 300 characters only. */
  lemma SampledCaptionCut(row: Row)
    requires SampleReady(row)
    ensures var shown := Truncate(row[CAPTION].s, CAPTION_CHARS);
      |shown| <= CAPTION_CHARS && shown == row[CAPTION].s[..|shown|]
    ensures InsightsLine(row)[|InsightsLine(row)| - |Truncate(row[CAPTION].s, CAPTION_CHARS)|..] == Truncate(row[CAPTION].s, CAPTION_CHARS)
    ensures QuestionLine(row)[|QuestionLine(row)| - |Truncate(row[CAPTION].s, CAPTION_CHARS)|..] == Truncate(row[CAPTION].s, CAPTION_CHARS)
  {
    var shown := Truncate(row[CAPTION].s, CAPTION_CHARS);
    var a := "\n" + StrOf(row[RATING]) + STAR + " [" + StrOf(row[SENTIMENT]) + "]: ";
    assert InsightsLine(row) == a + shown;
    var b := "\n" + StrOf(row[RATING]) + GLOWING_STAR + ": ";
    assert QuestionLine(row) == b + shown;
  }

  /** The question prompt always ends with the question and the answer instruction. */
  lemma QuestionPromptEnds(rows: seq<Row>, avgRating: Value, question: string)
    requires Analysable(rows) && avgRating.Float?
    ensures var p := QuestionPrompt(rows, avgRating, question);
      var tail := "\n\nQuestion: " + question + ANSWER_CUE;
      |p| >= |tail| && p[|p| - |tail|..] == tail
  {
    var sample := Sample(rows);
    var front := QuestionHeader(rows, avgRating) +
      Concat(QuestionLines(sample));
    var tail := "\n\nQuestion: " + question + ANSWER_CUE;
    assert QuestionPrompt(rows, avgRating, question) == front + tail;
  }

  /** Both prompts sample the same rows, so a frame with the same first 15 text rows yields the
      same review lines in each. */
  lemma SampleDependsOnFirstTextRows(rows: seq<Row>, more: seq<Row>)
    requires Analysable(rows) && Analysable(more)
    requires |TextRows(rows)| >= SAMPLE_SIZE
    ensures Analysable(rows + more) && Sample(rows + more) == Sample(rows)
  {
    TextRowsAppend(rows, more);
    assert forall i :: 0 <= i < |rows + more| ==> (rows + more)[i] == if i < |rows| then rows[i] else more[i - |rows|];
    assert (TextRows(rows) + TextRows(more))[..SAMPLE_SIZE] == TextRows(rows)[..SAMPLE_SIZE];
  }

  /** The analyser over its generative model. */
  class GeminiAnalyzer {
    const model: GenerativeModel

    constructor (model: GenerativeModel)
      ensures this.model == model
    {
      this.model := model;
    }

    /** `generate_insights`: the metrics, and one request to the model with the insights
        prompt. */
    method GenerateInsights(rows: seq<Row>, avgRating: Value) returns (metrics: Metrics, analysis: string)
      requires Analysable(rows) && avgRating.Float?
      modifies model
      ensures metrics == MetricsOf(rows)
      ensures model.prompts == old(model.prompts) + [InsightsPrompt(rows, avgRating)]
    {
      var prompt := InsightsHeader(rows, avgRating);
      prompt := AppendInsightsLines(prompt, Sample(rows));
      prompt := prompt + INSIGHTS_FOOTER;
      analysis := model.GenerateContent(prompt);
      metrics := MetricsOf(rows);
    }

    /** `ask_question`: one request to the model with the question prompt. */
    method AskQuestion(question: string, rows: seq<Row>, avgRating: Value) returns (answer: string)
      requires Analysable(rows) && avgRating.Float?
      modifies model
      ensures model.prompts == old(model.prompts) + [QuestionPrompt(rows, avgRating, question)]
    {
      var context := QuestionHeader(rows, avgRating);
      context := AppendQuestionLines(context, Sample(rows));
      context := context + ("\n\nQuestion: " + question + ANSWER_CUE);
      answer := model.GenerateContent(context);
    }
  }

  /** The insights loop: one line per sampled row, appended in order. */
  method AppendInsightsLines(prompt: string, sample: seq<Row>) returns (r: string)
    requires forall i :: 0 <= i < |sample| ==> SampleReady(sample[i])
    ensures r == prompt + Concat(InsightsLines(sample))
  {
    r := prompt;
    var i := 0;
    while i < |sample|
      invariant 0 <= i <= |sample|
      invariant r == prompt + Concat(InsightsLines(sample)[..i])
    {
      InsightsLinesSnoc(prompt, sample, i);
      r := r + InsightsLine(sample[i]);
      i := i + 1;
    }
    assert InsightsLines(sample)[..i] == InsightsLines(sample);
  }

  lemma InsightsLinesSnoc(head: string, sample: seq<Row>, i: nat)
    requires forall i :: 0 <= i < |sample| ==> SampleReady(sample[i])
    requires i < |sample|
    ensures head + Concat(InsightsLines(sample)[..i + 1]) == head + Concat(InsightsLines(sample)[..i]) + InsightsLine(sample[i])
  {
    ConcatSnoc(InsightsLines(sample), i);
  }

  /** The question loop: one line per sampled row, appended in order. */
  method AppendQuestionLines(context: string, sample: seq<Row>) returns (r: string)
    requires forall i :: 0 <= i < |sample| ==> SampleReady(sample[i])
    ensures r == context + Concat(QuestionLines(sample))
  {
    r := context;
    var i := 0;
    while i < |sample|
      invariant 0 <= i <= |sample|
      invariant r == context + Concat(QuestionLines(sample)[..i])
    {
      QuestionLinesSnoc(context, sample, i);
      r := r + QuestionLine(sample[i]);
      i := i + 1;
    }
    assert QuestionLines(sample)[..i] == QuestionLines(sample);
  }

  lemma QuestionLinesSnoc(head: string, sample: seq<Row>, i: nat)
    requires forall i :: 0 <= i < |sample| ==> SampleReady(sample[i])
    requires i < |sample|
    ensures head + Concat(QuestionLines(sample)[..i + 1]) == head + Concat(QuestionLines(sample)[..i]) + QuestionLine(sample[i])
  {
    ConcatSnoc(QuestionLines(sample), i);
  }
}
