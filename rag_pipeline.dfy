/** The question-answering pipeline: embed the question, retrieve the nearest reviews from the
    store, render them as a numbered context, and ask the chat model once with a system
    instruction and a prompt that holds the optional statistics, the context and the question.
    The chat model is an object that records every exchange; what it answers is not modelled. */
module RagPipeline {
  import opened Python
  import opened Frame
  import opened Embeddings
  import opened VectorStore

  const NO_REVIEWS_ANSWER := "I couldn't find any relevant reviews to answer your question."

  const SYSTEM_PROMPT :=
    "You are an expert at analyzing restaurant reviews. \n" +
    "Answer questions based on the provided reviews. Be specific, cite details, and keep responses concise."

  /** How many characters of a review the context shows. */
  const REVIEW_CHARS := 300

  const STAR := "\U{2605}"

  datatype Role = System | Human

  /** A chat message (`SystemMessage` / `HumanMessage`). */
  datatype Message = Message(role: Role, content: string)

  /** The chat model: every `invoke` is recorded in `calls`, in order. */
  class ChatModel {
    var calls: seq<seq<Message>>

    constructor ()
      ensures calls == []
    {
      calls := [];
    }

    /** One request to the model with the given messages; the reply is arbitrary text. */
    method Invoke(messages: seq<Message>) returns (reply: string)
      modifies this
      ensures calls == old(calls) + [messages]
    {
      calls := calls + [messages];
      reply := *;
    }
  }

  /** One entry of the context, before rendering. */
  datatype ContextLine = ContextLine(number: nat, rating: string, sentiment: string, text: string)

  /** `Review {n} [{rating}★, {sentiment}]: {text}`. */
  function Render(line: ContextLine): (r: string)
    ensures |r| >= |line.text| && r[|r| - |line.text|..] == line.text
  {
    "Review " + NatText(line.number) + " [" + line.rating + STAR + ", " + line.sentiment + "]: " + line.text
  }

  function Min(a: int, b: int): int {
    if a <= b then a else b
  }

  /** The entries `format_context` renders: documents and metadata paired up to the shorter of
      the two lists cut at `max_reviews`, numbered from 1, each document cut to 300 characters,
      a missing rating shown as `N/A` and a missing sentiment as `UNKNOWN`. */
  function ContextLines(documents: seq<string>, metadatas: seq<map<string, Value>>, maxReviews: int): (r: seq<ContextLine>)
    ensures |r| == Min(|SliceTo(documents, maxReviews)|, |SliceTo(metadatas, maxReviews)|)
    ensures maxReviews >= 0 ==> |r| == Min(Min(|documents|, |metadatas|), maxReviews)
    ensures |r| <= |documents| && |r| <= |metadatas|
    ensures forall i :: 0 <= i < |r| ==> r[i].number == i + 1
    ensures forall i :: 0 <= i < |r| ==>
      |r[i].text| <= REVIEW_CHARS && |r[i].text| <= |documents[i]| && r[i].text == documents[i][..|r[i].text|]
    ensures forall i :: 0 <= i < |r| ==> |documents[i]| <= REVIEW_CHARS ==> r[i].text == documents[i]
    ensures forall i :: 0 <= i < |r| ==> |documents[i]| > REVIEW_CHARS ==> |r[i].text| == REVIEW_CHARS
    ensures forall i :: 0 <= i < |r| ==>
      r[i].rating == if RATING in metadatas[i] then StrOf(metadatas[i][RATING]) else "N/A"
    ensures forall i :: 0 <= i < |r| ==>
      r[i].sentiment == if SENTIMENT in metadatas[i] then StrOf(metadatas[i][SENTIMENT]) else UNKNOWN
  {
    var n := Min(|SliceTo(documents, maxReviews)|, |SliceTo(metadatas, maxReviews)|);
    seq(n, i requires 0 <= i < n => LineOf(i, documents[i], metadatas[i]))
  }

  function LineOf(i: nat, document: string, metadata: map<string, Value>): ContextLine {
    ContextLine(
      i + 1,
      StrOf(Get(metadata, RATING, Str("N/A"))),
      StrOf(Get(metadata, SENTIMENT, Str(UNKNOWN))),
      Truncate(document, REVIEW_CHARS))
  }

  /** A stored metadata record, returned as its dict, shows its own rating and sentiment in the
      context. */
  lemma StoredMetadataShown(i: nat, document: string, m: Metadata)
    ensures LineOf(i, document, m.AsDict()).rating == StrOf(m.rating)
    ensures LineOf(i, document, m.AsDict()).sentiment == m.sentiment
  {
  }

  function Rendered(lines: seq<ContextLine>): (r: seq<string>)
    ensures |r| == |lines|
  {
    seq(|lines|, i requires 0 <= i < |lines| => Render(lines[i]))
  }

  /** `format_context`: the context lines rendered in retrieval order and joined with blank
      lines. */
  method FormatContext(results: QueryResult, maxReviews: int) returns (context: string)
    ensures context == Join("\n\n", Rendered(ContextLines(results.documents, results.metadatas, maxReviews)))
  {
    var documents := SliceTo(results.documents, maxReviews);
    var metadatas := SliceTo(results.metadatas, maxReviews);
    ghost var lines := ContextLines(results.documents, results.metadatas, maxReviews);
    var parts: seq<string> := [];
    var i := 0;
    while i < |documents| && i < |metadatas|
      invariant 0 <= i <= |lines|
      invariant parts == Rendered(lines[..i])
    {
      var doc := documents[i];
      var meta := metadatas[i];
      var rating := Get(meta, RATING, Str("N/A"));
      var sentiment := Get(meta, SENTIMENT, Str(UNKNOWN));
      var reviewText := if |doc| > REVIEW_CHARS then doc[..REVIEW_CHARS] else doc;
      assert lines[i] == ContextLine(i + 1, StrOf(rating), StrOf(sentiment), reviewText);
      parts := parts + ["Review " + NatText(i + 1) + " [" + StrOf(rating) + STAR + ", " + StrOf(sentiment) + "]: " + reviewText];
      assert Rendered(lines[..i + 1]) == Rendered(lines[..i]) + [Render(lines[i])];
      i := i + 1;
    }
    assert lines[..i] == lines;
    context := Join("\n\n", parts);
  }

  /** An empty retrieval renders as the empty context. */
  lemma EmptyContext(results: QueryResult, maxReviews: int)
    requires results.documents == [] || results.metadatas == [] || maxReviews == 0
    ensures Join("\n\n", Rendered(ContextLines(results.documents, results.metadatas, maxReviews))) == ""
  {
  }

  /** Every rendered entry starts with its 1-based number, in retrieval order. */
  lemma NumberedInOrder(lines: seq<ContextLine>, i: int)
    requires forall k :: 0 <= k < |lines| ==> lines[k].number == k + 1
    requires 0 <= i < |lines|
    ensures Rendered(lines)[i][..7 + |NatText(i + 1)|] == "Review " + NatText(i + 1)
  {
    var r := Rendered(lines)[i];
    assert r == ("Review " + NatText(i + 1)) + (" [" + lines[i].rating + STAR + ", " + lines[i].sentiment + "]: " + lines[i].text);
  }

  /** The statistics block, present when the stats dict is truthy: total, average rating to
      one decimal, and the three sentiment counts (0 when missing). Formatting a missing or
      textual average raises. */
  function StatsText(stats: Option<map<string, Value>>): (r: Result<string>)
    ensures stats.None? || stats.value == map[] ==> r == Ok("")
    ensures stats.Some? && stats.value != map[] && r.Ok? ==> |r.value| >= 12 && r.value[..12] == "STATISTICS:\n"
    ensures stats.Some? && stats.value != map[] ==>
      (r.Err? <==> Fixed1(Get(stats.value, "avg_rating", Str("N/A"))).Err?)
  {
    if stats.None? || stats.value == map[] then Ok("")
    else
      var s := stats.value;
      match Fixed1(Get(s, "avg_rating", Str("N/A")))
      case Err(e) => Err(e)
      case Ok(avg) =>
        var body := StatsBody(s, avg);
        assert ("STATISTICS:\n" + body)[..12] == "STATISTICS:\n";
        Ok("STATISTICS:\n" + body)
  }

  /** The lines of the statistics block: the total (N/A when missing), then the average, then the
      sentiment line. */
  function StatsBody(s: map<string, Value>, avg: string): (r: string)
    ensures var opening := "Total Reviews: " + StrOf(Get(s, "total", Str("N/A"))) + "\n";
      |r| >= |opening| && r[..|opening|] == opening
    ensures var opening := "Total Reviews: " + StrOf(Get(s, "total", Str("N/A"))) + "\n";
      var average := "Average Rating: " + avg + "/5\n";
      && |r| >= |opening| + |average|
      && r[|opening|..|opening| + |average|] == average
      && r[|opening| + |average|..] == CountsLine(s)
    ensures var closing := " Negative\n\n";
      |r| >= |closing| && r[|r| - |closing|..] == closing
  {
    var opening := "Total Reviews: " + StrOf(Get(s, "total", Str("N/A"))) + "\n";
    var average := "Average Rating: " + avg + "/5\n";
    var counts := CountsLine(s);
    Framed(opening, average, counts);
    opening + average + counts
  }

  /** The sentiment line and the blank line after it; each count is 0 when the statistics lack
      it. */
  function CountsLine(s: map<string, Value>): (r: string)
    ensures var closing := " Negative\n\n";
      |r| >= |closing| && r[|r| - |closing|..] == closing
  {
    var counts :=
      "Sentiment: " + StrOf(Get(s, "positive", Int(0))) + " Positive, " +
      StrOf(Get(s, "neutral", Int(0))) + " Neutral, " +
      StrOf(Get(s, "negative", Int(0)));
    var closing := " Negative\n\n";
    assert (counts + closing)[|counts|..] == closing;
    counts + closing
  }

  /** The sentiment line when the statistics carry no counts. */
  const ZERO_COUNTS := "Sentiment: " + "0" + " Positive, " + "0" + " Neutral, " + "0" + " Negative\n\n"

  /** Statistics without the three sentiment counts show each of them as 0. */
  lemma StatsBodyDefaults(s: map<string, Value>, avg: string)
    requires "positive" !in s && "neutral" !in s && "negative" !in s
    ensures var r := StatsBody(s, avg);
      |r| >= |ZERO_COUNTS| && r[|r| - |ZERO_COUNTS|..] == ZERO_COUNTS
  {
    assert StrOf(Int(0)) == "0";
    assert CountsLine(s) == ZERO_COUNTS;
  }

  /** The human prompt: the statistics block, the reviews, then the question and the answer
      cue. */
  function HumanPrompt(statsText: string, context: string, question: string): (p: string)
    ensures var at := |statsText| + 9;
      |p| >= at + |context| && p[at..at + |context|] == context
  {
    statsText + "REVIEWS:\n" + context + "\n\nQUESTION: " + question + "\n\nANSWER:"
  }

  /** Without statistics the prompt begins with `REVIEWS:`; with or without, it ends with the
      question followed by the answer cue. */
  lemma HumanPromptShape(statsText: string, context: string, question: string)
    ensures var p := HumanPrompt(statsText, context, question);
      var tail := "QUESTION: " + question + "\n\nANSWER:";
      && |p| >= |statsText| + 9 + |tail|
      && p[..|statsText|] == statsText
      && p[|statsText|..|statsText| + 9] == "REVIEWS:\n"
      && p[|p| - |tail|..] == tail
  {
    var p := HumanPrompt(statsText, context, question);
    var tail := "QUESTION: " + question + "\n\nANSWER:";
    assert p == statsText + ("REVIEWS:\n" + context + "\n\n") + tail;
    assert p == statsText + ("REVIEWS:\n" + (context + "\n\n" + tail));
  }

  class RAGPipeline {
    const store: ReviewVectorStore
    const embedder: EmbeddingGenerator
    const llm: ChatModel

    /** The pipeline over a store, an embedder and the chat model (which the program builds
        itself from its settings). */
    constructor (store: ReviewVectorStore, embedder: EmbeddingGenerator, llm: ChatModel)
      ensures this.store == store && this.embedder == embedder && this.llm == llm
    {
      this.store := store;
      this.embedder := embedder;
      this.llm := llm;
    }

    /** `retrieve_relevant_reviews`: the question's vector, `top_k` and the filters go to the
        store's search unchanged. */
    method RetrieveRelevantReviews(question: string, topK: int, filters: Option<map<string, Value>>)
      returns (r: Result<QueryResult>)
      requires store.Valid()
      ensures store.collection.None? ==> r == Err(ValueError(NOT_CREATED_ON_SEARCH))
      ensures store.collection.Some? ==>
        r == Ok(store.nearest(Request(store.collections[store.collection.value],
                                      embedder.EmbedText(Some(question)), topK, WhereFor(filters))))
    {
      var queryEmbedding := embedder.EmbedText(Some(question));
      r := store.Search(queryEmbedding, topK, filters);
    }

    /** `query`: retrieval, then, unless nothing was found, one call to the chat model with the
        system instruction and the human prompt built from the statistics, the context (with
        `max_reviews = top_k`) and the question. A failed retrieval or a statistics block that
        cannot be formatted ends the query before the model is asked. */
    method Query(question: string, topK: int, filters: Option<map<string, Value>>, stats: Option<map<string, Value>>)
      returns (answer: Result<string>)
      requires store.Valid()
      modifies llm
      ensures store.collection.None? ==> answer == Err(ValueError(NOT_CREATED_ON_SEARCH)) && llm.calls == old(llm.calls)
      ensures store.collection.Some? ==>
        var results := store.nearest(Request(store.collections[store.collection.value],
                                             embedder.EmbedText(Some(question)), topK, WhereFor(filters)));
        var context := Join("\n\n", Rendered(ContextLines(results.documents, results.metadatas, topK)));
        && (results.documents == [] ==> answer == Ok(NO_REVIEWS_ANSWER) && llm.calls == old(llm.calls))
        && (results.documents != [] && StatsText(stats).Err? ==>
              answer == Err(StatsText(stats).error) && llm.calls == old(llm.calls))
        && (results.documents != [] && StatsText(stats).Ok? ==>
              answer.Ok? &&
              llm.calls == old(llm.calls) + [[Message(System, SYSTEM_PROMPT),
                                              Message(Human, HumanPrompt(StatsText(stats).value, context, question))]])
    {
      var results := RetrieveRelevantReviews(question, topK, filters);
      if results.Err? {
        return Err(results.error);
      }
      if results.value.documents == [] {
        return Ok(NO_REVIEWS_ANSWER);
      }
      var context := FormatContext(results.value, topK);
      var systemPrompt := Message(System, SYSTEM_PROMPT);
      var statsText := StatsText(stats);
      if statsText.Err? {
        return Err(statsText.error);
      }
      var humanPrompt := Message(Human, HumanPrompt(statsText.value, context, question));
      var reply := llm.Invoke([systemPrompt, humanPrompt]);
      return Ok(reply);
    }
  }
}
