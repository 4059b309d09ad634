# Review analysis pipeline — a Dafny model

This project models the core of a restaurant-review analysis application. The application:

- scrapes Google Maps reviews;
- cleans them into a data frame;
- labels each review's sentiment with a classifier;
- embeds the review texts and stores them in a vector collection;
- answers questions about the reviews in two ways: a retrieval-augmented pipeline, which retrieves the nearest reviews and prompts a chat model, and a direct prompt to a generative model;
- charts the most frequent keywords for each sentiment.

The model keeps the program's decisions and leaves its I/O abstract:

- every branch, default value and error condition;
- every constant: the 512-character classifier cut, the 300-character excerpts, the 15-review sample, the 384-wide zero vector, the stop-word list;
- the exact text of every prompt.

The following become parameters of the model:

- the classifier and the sentence encoder are functions from a text to a result;
- the chroma nearest-neighbour query is a function from a request to a result;
- the two language models are objects that log every prompt they receive and return an arbitrary reply.

Modules:

- `Python`: the slice of Python semantics the program relies on:
  - values in a frame cell: `None`/NaN, text, integers, floats, booleans;
  - truthiness;
  - `str.strip`;
  - `int()` on text;
  - slicing;
  - `str.join`;
  - `str.lower` on ASCII.
- `Frame`: a pandas frame as a sequence of rows (column name to value), plus the `has_text` mask and the column assignment `df[key] = values`. The assignment is modelled as a class that updates its rows in place.
- `Counter`: `collections.Counter(xs).most_common(n)`.
- `GoogleMaps`: parsing of review blocks, `get_reviews` and `clean_reviews` (`src/googlemaps.py`).
- `Sentiment`: `SentimentAnalyzer` (`src/sentiment.py`).
- `Embeddings`: `EmbeddingGenerator` (`src/embeddings.py`).
- `VectorStore`: `ReviewVectorStore` (`src/vector_store.py`).
- `RagPipeline`: `RAGPipeline` (`src/rag_pipeline.py`).
- `Llm`: `GeminiAnalyzer` (`src/llm.py`).
- `Keywords`: the keyword extraction and ranking of `plot_top_keywords` (`src/visualizations.py`).

When nothing is retrieved, the retrieval pipeline answers "I couldn't find any relevant reviews to answer your question." Neither model call is retried, and there is no fallback answer.

## Model

| member | source | states |
|---|---|---|
| GoogleMaps.NormalizeCaption | src/googlemaps.py:88-89 | every carriage return, line feed and tab becomes a space; every other character is kept; the length is unchanged |
| GoogleMaps.Parse | src/googlemaps.py:83-120 | a caption exists exactly when the block has text, and then it is the block's text with line breaks and tabs made spaces; date and rating are copied; the username defaults to "Anonymous"; the review count is the label's count, 1 when the label is missing |
| GoogleMaps.ReviewCount | src/googlemaps.py:108-112 | a missing label gives 1; otherwise the first space-separated word with its commas removed is read by `int()`, and a failed read gives 1 |
| GoogleMaps.ReviewCountWithoutDigit | src/googlemaps.py:108-112 | a label whose first word holds no digit, such as "Local Guide · 120 reviews", gives 1 |
| GoogleMaps.ReviewCountOfNumber | src/googlemaps.py:108-112 | a review-count label that starts with a plain number followed by a space yields that number |
| GoogleMaps.GroupedReviewCount | src/googlemaps.py:109-110 | a count written with thousands separators ("1,234 reviews") yields the number, because the commas are removed before `int()` |
| GoogleMaps.UngroupedIsNatText | src/googlemaps.py:110 | removing the commas from a comma-grouped number gives its plain decimal text |
| GoogleMaps.GroupedHasNoSpace | src/googlemaps.py:110 | a comma-grouped number contains no space, so splitting the label on spaces keeps it whole |
| GoogleMaps.GetReviews | src/googlemaps.py:74-81 | the loop parses exactly the blocks from index `offset` on (all of them for a negative offset, none past the end): the k-th record is the parse of the block at `offset + k` |
| GoogleMaps.ParseFrom | src/googlemaps.py:75-81 | for any parser: one record per block from index `offset` on, in page order, and none before it |
| GoogleMaps.CleanRow | src/googlemaps.py:162-164 | a missing caption becomes ""; `text_length` is the caption's length; `has_text` holds exactly when that length is positive; the other columns are unchanged |
| GoogleMaps.Cleaned | src/googlemaps.py:160-168 | one cleaned row per row, and the result carries a boolean `has_text` column |
| GoogleMaps.CleanReviews | src/googlemaps.py:160-168 | the frame is updated in place to its cleaned rows and returned |
| Frame.TextRows | src/embeddings.py:37 | `df[df['has_text']]` keeps only rows whose flag is true, each one taken from the frame |
| Frame.TextRowsComplete | src/embeddings.py:37 | every flagged row is kept, in row order: row i comes right after the text rows before it |
| Frame.TextRowsAppend | src/llm.py:21 | the mask distributes over concatenation of frames |
| Frame.DataFrame.Assign | src/sentiment.py:46-47 | column assignment sets the column in every row and changes nothing else |
| Sentiment.ClassifierInput | src/sentiment.py:21-24 | a missing or blank text reaches no classifier; otherwise the classifier gets a non-empty prefix of at most 512 characters, the whole text when it is short enough |
| Sentiment.SentimentAnalyzer.Analyze | src/sentiment.py:19-25 | a blank text is NEUTRAL with score 0.0; any other text is the classifier's verdict on its first 512 characters |
| Sentiment.BlankIgnoresModel | src/sentiment.py:21-22 | two analyzers agree on every blank text, whatever their classifiers |
| Sentiment.OnlyPrefixMatters | src/sentiment.py:24 | two texts that share their first 512 characters get the same prediction |
| Sentiment.WhitespaceIsNeutral | src/sentiment.py:21-22 | a text of whitespace only is NEUTRAL |
| Sentiment.SentimentAnalyzer.RowPrediction | src/sentiment.py:32-43 | a row without text is NEUTRAL with score 0.0; a row with text gets the analysis of its caption |
| Sentiment.SentimentAnalyzer.Labelled | src/sentiment.py:45-47 | labelling keeps the number of rows |
| Sentiment.SentimentAnalyzer.AnalyzeReviews | src/sentiment.py:27-52 | the loop builds the per-row predictions and the frame gains the two columns in place |
| Sentiment.LabelledSpec | src/sentiment.py:45-47 | each labelled row has the old columns plus `sentiment` and `sentiment_score`, both set from the row's prediction; the other columns are untouched |
| Sentiment.LabelledByText | src/sentiment.py:33-43 | a row without text is labelled NEUTRAL/0.0; a row with text is labelled with the classifier's result for its caption |
| Embeddings.Zeros | src/embeddings.py:19 | 384 zeros |
| Embeddings.Processed | src/embeddings.py:25 | a missing or blank entry becomes a single space; every other entry is kept; the order and length are kept |
| Embeddings.ProcessedNeverBlank | src/embeddings.py:25 | the encoder is never handed an empty text, and a kept text is not blank |
| Embeddings.ProcessedIdempotent | src/embeddings.py:25 | processing an already processed batch changes nothing |
| Embeddings.EmbeddingGenerator.EmbedText | src/embeddings.py:16-20 | a blank text gives the 384-wide zero vector; any other text gives its encoding |
| Embeddings.EmbeddingGenerator.EmbedBatch | src/embeddings.py:22-32 | one vector per text, in order: the encoding of the text, or of the placeholder for a blank one |
| Embeddings.EmbeddingGenerator.EmbedReviews | src/embeddings.py:34-46 | as written: the bare empty array exactly when no row has text; otherwise the text rows with one vector each |
| Embeddings.EmbeddingGenerator.EmbedReviewsPair | src/embeddings.py:34-46 | corrected: always the pair of vectors and text rows, with the k-th vector encoding the k-th text row's caption |
| Embeddings.TextRowsHaveCaptions | src/embeddings.py:37-43 | every row with text has a caption column |
| Embeddings.BareEmptyWithoutText | src/embeddings.py:39-40 | a frame whose only row has no text yields the bare empty array, not a pair |
| Embeddings.PairAgreesWithWritten | src/embeddings.py:39-46 | the corrected result equals the written one whenever some row has text, and is two empty lists otherwise |
| Embeddings.Captions | src/embeddings.py:43 | one caption per row |
| VectorStore.Metadata.AsDict | src/vector_store.py:48-54 | the metadata dictionary has exactly the five keys, each holding the record's own value |
| VectorStore.AsFloat | src/vector_store.py:49 | `float()` keeps a float and raises TypeError on None |
| VectorStore.AsInt | src/vector_store.py:53 | `int()` keeps an integer, turns a bool into 1 or 0, raises TypeError on None, and on text succeeds exactly when the text parses, giving the parsed value |
| VectorStore.MetadataOf | src/vector_store.py:48-54 | the conversion succeeds exactly when the rating and the text length convert; the rating, username, sentiment, relative date and text length are the row's own, converted, with the defaults "UNKNOWN", "" and 0 when missing |
| VectorStore.Metadatas | src/vector_store.py:46-55 | a successful result has one metadata per row |
| VectorStore.MetadatasSpec | src/vector_store.py:46-55 | the loop succeeds exactly when every row converts, and then gives each row's own metadata |
| VectorStore.MetadatasFirstError | src/vector_store.py:47-55 | a failing loop raises the error of the first row that fails |
| VectorStore.MetadatasErrSticky | src/vector_store.py:47-55 | rows after the first failure do not change the outcome |
| VectorStore.BuildMetadatas | src/vector_store.py:46-55 | the loop computes the metadata list or the first conversion error |
| VectorStore.Documents | src/vector_store.py:43 | one document per row |
| VectorStore.NewEntries | src/vector_store.py:42-63 | one entry per metadata |
| VectorStore.IdsDistinct | src/vector_store.py:42 | ids in a collection are pairwise distinct |
| VectorStore.NewEntriesFresh | src/vector_store.py:42 | adding entries keeps the ids increasing and below the issue counter, so new ids never collide with old ones |
| VectorStore.WhereFor | src/vector_store.py:73-79 | no clause without a filter on rating or sentiment; a rating filter becomes `$gte` and a sentiment filter an equality; no other key appears |
| VectorStore.WhereForAgrees | src/vector_store.py:73-85 | the clause built in place equals the one described declaratively |
| VectorStore.ReviewVectorStore.constructor | src/vector_store.py:11-19 | the store starts with no collection |
| VectorStore.ReviewVectorStore.CreateCollection | src/vector_store.py:21-34 | the named collection is replaced by an empty one and becomes current |
| VectorStore.ReviewVectorStore.AddReviews | src/vector_store.py:36-65 | errors come in this order: no collection, then a metadata conversion error, then a length mismatch; with a collection and convertible rows the call succeeds exactly when there is one vector per row; on success the entries are appended with fresh ids, and on failure nothing is stored |
| VectorStore.ReviewVectorStore.Search | src/vector_store.py:67-88 | fails without a collection; otherwise the nearest-neighbour query gets the collection, the vector, `top_k` and the where clause |
| VectorStore.ReviewVectorStore.CollectionCount | src/vector_store.py:90-96 | 0 without a collection, otherwise the collection's size |
| RagPipeline.ChatModel.Invoke | src/rag_pipeline.py:97-98 | each call records the messages sent |
| RagPipeline.ContextLines | src/rag_pipeline.py:39-49 | at most `max_reviews` lines, bounded by both lists; numbered from 1; the text is the document cut to 300 characters; rating and sentiment default to N/A and UNKNOWN |
| RagPipeline.Render | src/rag_pipeline.py:49 | a rendered entry ends with the entry's review text |
| RagPipeline.StoredMetadataShown | src/rag_pipeline.py:46-49 | a stored metadata record, returned as its dict, shows its own rating and sentiment in the context |
| RagPipeline.Rendered | src/rag_pipeline.py:49 | one rendered line per context line |
| RagPipeline.FormatContext | src/rag_pipeline.py:39-51 | the loop's result is the rendered lines joined by blank lines |
| RagPipeline.EmptyContext | src/rag_pipeline.py:45-51 | no documents, no metadata or `max_reviews` of 0 give the empty context |
| RagPipeline.NumberedInOrder | src/rag_pipeline.py:49 | the i-th line starts with "Review i+1" |
| RagPipeline.StatsText | src/rag_pipeline.py:80-87 | no statistics, or empty ones, give ""; otherwise the block starts with "STATISTICS:\n", and it fails exactly when the average rating cannot be formatted with `:.1f` |
| RagPipeline.StatsBody | src/rag_pipeline.py:82-86 | the statistics lines start with the total, "N/A" when missing; the average line `Average Rating: <avg>/5` follows it directly; the sentiment line comes next and ends the block with " Negative" and a blank line |
| RagPipeline.StatsBodyDefaults | src/rag_pipeline.py:85-86 | when the statistics lack `positive`, `neutral` and `negative`, the block ends with "Sentiment: 0 Positive, 0 Neutral, 0 Negative" and a blank line |
| RagPipeline.HumanPrompt | src/rag_pipeline.py:89-94 | the retrieved context sits right after the statistics block and the "REVIEWS:" line |
| RagPipeline.HumanPromptShape | src/rag_pipeline.py:89-94 | the prompt is the statistics block, then "REVIEWS:\n", and ends with the question and the answer cue |
| RagPipeline.RAGPipeline.constructor | src/rag_pipeline.py:11-22 | the pipeline keeps the store, the embedder and the chat model it is given |
| RagPipeline.RAGPipeline.RetrieveRelevantReviews | src/rag_pipeline.py:25-37 | the question's embedding is searched with `top_k` and the filters |
| RagPipeline.RAGPipeline.Query | src/rag_pipeline.py:53-98 | with nothing retrieved, or when the statistics cannot be formatted, there is no model call; otherwise exactly one call with the system prompt and the human prompt |
| Llm.GenerativeModel.GenerateContent | src/llm.py:54 | each call records its prompt |
| Llm.TextRowsReady | src/llm.py:41-42 | every text row has the columns a sample line reads |
| Llm.Sample | src/llm.py:41 | the sample is the first 15 text rows, or all of them when there are fewer |
| Llm.SampleDependsOnFirstTextRows | src/llm.py:41 | rows added after 15 text rows do not change the sample |
| Llm.PresentSentiments | src/llm.py:27 | `value_counts` sees at most one sentiment per row |
| Llm.PresentSentimentsComplete | src/llm.py:27 | every sentiment that is not missing is counted, in row order |
| Llm.PresentSentimentsCount | src/llm.py:27 | each label that is not missing is counted as often as the rows carry it |
| Llm.TextSentiments | src/llm.py:27 | at most one counted sentiment per text row |
| Llm.TextSentimentsCount | src/llm.py:21-27 | each label is counted once for every text row that carries it |
| Llm.SentimentCounts | src/llm.py:27 | `value_counts().to_dict()` holds each distinct sentiment of the text rows once, with its true positive count, most frequent first and ties in order of first occurrence |
| Llm.DictText | src/llm.py:36 | the dict is rendered between braces, `{}` when empty, and a single entry as `{'label': count}` |
| Llm.InsightsHeader | src/llm.py:30-39 | the data block opens with the total row count and closes with the sample heading |
| Llm.InsightsLine | src/llm.py:42 | a sampled line starts with a newline, the rating and a star |
| Llm.QuestionLine | src/llm.py:82 | a sampled line starts with a newline, the rating and a glowing star |
| Llm.InsightsPrompt | src/llm.py:30-52 | the insights prompt is the data block, then exactly the concatenated lines of the sampled rows, then the fixed instructions |
| Llm.QuestionPrompt | src/llm.py:73-84 | the question prompt is the header that gives the total and the average rating, then exactly the concatenated lines of the sampled rows, then the question |
| Llm.MetricsOf | src/llm.py:21-27 | the total is the frame's size; "with text" is the number of text rows; each of the three counts is the number of text rows with that sentiment, 0 when absent |
| Llm.MetricsBounded | src/llm.py:57-63 | the three counts together never exceed the rows with text, which never exceed the rows |
| Llm.NoTextNoCounts | src/llm.py:61-63 | without text rows all three counts are 0 |
| Llm.InsightsLines | src/llm.py:41-42 | one line per sampled row, line i rendering sampled row i |
| Llm.QuestionLines | src/llm.py:81-82 | one line per sampled row, line i rendering sampled row i |
| Llm.SampledCaptionCut | src/llm.py:42 | each sample line ends with the caption cut to 300 characters |
| Llm.QuestionPromptEnds | src/llm.py:84 | the question prompt ends with the question and the answer cue |
| Llm.AppendInsightsLines | src/llm.py:41-42 | the loop appends the sample lines in order |
| Llm.AppendQuestionLines | src/llm.py:81-82 | the loop appends the sample lines in order |
| Llm.GeminiAnalyzer.constructor | src/llm.py:15-17 | the analyzer keeps the generative model it is given |
| Llm.GeminiAnalyzer.GenerateInsights | src/llm.py:19-66 | the returned metrics are those of the frame, and exactly one prompt, the insights prompt, is sent |
| Llm.GeminiAnalyzer.AskQuestion | src/llm.py:68-87 | exactly one prompt, the question prompt, is sent |
| Counter.MostCommon | src/visualizations.py:104 | `most_common(n)` has `min(n, distinct)` pairs, none when n ≤ 0 |
| Counter.MostCommonSpec | src/visualizations.py:104 | the pairs are distinct elements with their true counts, ranked by count and then by first occurrence, and no element left out ranks above one kept |
| Counter.LookupAllCounts | src/llm.py:27 | looking an element up in the full counts gives its number of occurrences, 0 when absent |
| Counter.CountThreeBounded | src/llm.py:61-63 | the counts of three distinct values sum to at most the length |
| Python.NoTextIffAllSpace | src/sentiment.py:21 | `not text or len(text.strip()) == 0` holds exactly when the text is missing or all whitespace |
| Python.ParseIntText | src/googlemaps.py:110 | `int()` inverts the decimal rendering of an integer |
| Python.BadStartNoInt | src/googlemaps.py:110 | text whose first character is neither whitespace that `int()` skips, a sign nor a digit never parses |
| Python.SeparatorBlocksInt | src/googlemaps.py:110 | the separators U+001C to U+001F count as whitespace for `strip()`, yet text that starts with one never parses as an `int()` |
| Python.LowerAscii | src/visualizations.py:100 | lower-casing keeps the length, leaves no ASCII capital, turns each capital into its small letter and keeps every other character |
| Keywords.WordEnd | src/visualizations.py:101 | the end of the run of word characters from a position |
| Keywords.WordsFrom | src/visualizations.py:101 | every span found is a whole word, that is a maximal run of `\w` characters |
| Keywords.WordsFromOrdered | src/visualizations.py:101 | the words are found in text order without overlap |
| Keywords.WordsFromCover | src/visualizations.py:101 | every word character lies in a word found |
| Keywords.SameWord | src/visualizations.py:101 | two whole words that share a position are the same |
| Keywords.KeptWords | src/visualizations.py:101-102 | the words kept are at least four letters, all a to z, and not stop words |
| Keywords.KeptWordsComplete | src/visualizations.py:101-102 | no word that passes the pattern and the stop-word filter is dropped |
| Keywords.Keywords | src/visualizations.py:101-102 | every extracted keyword has at least four letters, all a to z, and is not a stop word |
| Keywords.KeywordsAreWords | src/visualizations.py:101 | every keyword is a whole word of the text |
| Keywords.KeywordsComplete | src/visualizations.py:101-102 | every whole word of the text that passes is extracted |
| Keywords.SelectedCaptions | src/visualizations.py:94-96 | the selection is empty exactly when no row has the requested sentiment |
| Keywords.SelectedCaptionsSound | src/visualizations.py:94 | every selected caption is the caption of a row, at or after its own position, whose sentiment is the requested one |
| Keywords.SelectedCaptionsComplete | src/visualizations.py:94 | the caption of every row with the requested sentiment is selected, right after the captions selected from the rows before it |
| Keywords.PresentTexts | src/visualizations.py:100 | `dropna` keeps at most the selected captions |
| Keywords.PresentTextsComplete | src/visualizations.py:100 | every caption that is not missing is kept, in order |
| Keywords.PresentTextsCount | src/visualizations.py:100 | `dropna` keeps each text as often as the captions hold it |
| Keywords.SentimentWords | src/visualizations.py:100-102 | every word counted is a keyword, and there are none when no row has the sentiment |
| Keywords.TopKeywords | src/visualizations.py:92-106 | a chart has between 1 and `top_n` bars |
| Keywords.TopKeywordsAbsent | src/visualizations.py:95-106 | no chart exactly when no row has the sentiment, no keyword survives, or `top_n` ≤ 0 |
| Keywords.TopKeywordsBars | src/visualizations.py:104 | each bar is a keyword from the captions with its number of occurrences, and the bars are `most_common(top_n)` of those keywords |

## Left out

- Browser driving and scrolling (`__scroll`, `__expand_reviews`, the cookie dialog, `sleep`) are not modelled. The page is given as a sequence of review blocks. The parser sees the five fields of a block as already extracted. A missing element becomes a missing field.
- The rating string's float conversion is not modelled. A rating is carried as its `str()` and `:.1f` renderings.
- Means are not modelled: `avg_rating` in `generate_insights` and `ask_question` is a parameter, because no float arithmetic is modelled.
- Model loading, the API-key lookup, `print` and logging are left out.
- The transformer classifier, the sentence encoder and the two language models are parameters. Their replies are arbitrary.
- Embeddings.EmbeddingGenerator.EmbedBatch: batch encoding is modelled text by text. Batching by 32 and the progress bar are not modelled.
- ChromaDB ranking, its cosine metric, its own validation and its error wording are not modelled. The nearest-neighbour query is a function of the request. The length-mismatch error of `add` is modelled with a message of this model's own.
- VectorStore.ReviewVectorStore.AddReviews: uuid4 ids are modelled by an issue counter, so freshness is proved rather than assumed from randomness.
- VectorStore.ReviewVectorStore.AddReviews: requires each row to hold a caption of text, a rating that is a float or missing, a username, and a text length that is not a float. The other value kinds are left out because the modelled `float()` and `int()` cover only the values the cleaned frame can hold.
- Llm.GeminiAnalyzer.GenerateInsights and Llm.GeminiAnalyzer.AskQuestion require rows that carry the columns the prompts read, and a float average. A missing column would raise `KeyError` in the program.
- Sentiment.SentimentAnalyzer.AnalyzeReviews requires a boolean `has_text` in every row, and a caption in every row with text. The source raises `KeyError` when a column is missing. The mask `df[df['has_text']]` also fails when `has_text` holds a value that is not a boolean, or NA. A frame here is only its rows, so a frame with no rows passes, while the program raises `KeyError` on a column-less empty frame. Sentiment.SentimentAnalyzer.Labelled, Sentiment.LabelledSpec and Sentiment.LabelledByText carry the same requirement.
- Python.LowerAscii: `str.lower` is modelled on ASCII only. Non-ASCII letters are kept as they are. So a non-ASCII capital that Unicode lower-cases to a–z, such as the Kelvin sign, is not turned into a keyword letter.
- Keywords.WordsFrom: `\w` is modelled as the ASCII letters and digits, the underscore, the letters of Latin-1 and Latin Extended-A/B, the ordinal indicators and the micro sign. Every other character counts as a separator. Python's `\w` also matches the letters and digits of other scripts, Latin letters above U+024F such as 'ệ', and the Latin-1 superscripts and fractions such as '²' and '½'. So where such a character touches an a–z run, the model can find a keyword that the program does not: "nice²" yields "nice" here and nothing in the program.
- Python.Fixed1: `format(i, '.1f')` on an int is modelled as the int's exact digits followed by ".0". Python converts the int to a float first. So an int beyond 2^53 can round differently: 2^53 + 1 gives "9007199254740992.0" in Python. An int too large for a float raises OverflowError in Python, which the model does not raise. RagPipeline.StatsText inherits both differences for an integer average rating.
- Python.ParseInt: only the ASCII digits 0 to 9 are read. Python's `int()` also accepts every other Unicode decimal digit, so a count label such as "１２ reviews" gives 12 in the program and 1 in the model. VectorStore.AsInt has the same limit for a `text_length` held as text.
- GoogleMaps.CleanReviews: a frame here is only its rows, so a frame with no rows has no column set. When the first scrape finds nothing, the program builds a frame with no columns, and `clean_reviews` raises KeyError on `df['caption']`. The model returns the empty frame instead. Frame.TextRows has the same gap for the `has_text` mask on an empty frame.
- Keywords.TopKeywords requires every row to carry a `sentiment`, and every selected row to hold a caption that is text or NA. The program raises `KeyError` at src/visualizations.py:94 for a frame without the `sentiment` column, and `TypeError` in `' '.join` at line 100 for a selected caption of another kind. The model leaves both errors out.
- Llm.DictText: a key is rendered as `'` + key + `'` without escaping. Python's `repr` switches to double quotes for a key holding a single quote (`{"it's": 1}`), and escapes backslashes and non-printable characters. The sentiment labels the counts come from hold none of these. Python.ReprOf has the same limit.
- The chart drawing in `plot_top_keywords` (figure, colours, labels) is left out. The model returns the list of bars.
- The LLM client built inside `RAGPipeline.__init__` and `GeminiAnalyzer.__init__` is passed in as a parameter.

## Findings

| source | as written | input that shows it | evidently intended | confidence | as-written member | corrected member |
|---|---|---|---|---|---|---|
| src/embeddings.py:39-40 | `embed_reviews` returns a bare empty array when no row has text | a frame whose only row has `has_text` false | always return the pair (vectors, text rows), which the caller unpacks | not executed | Embeddings.BareEmptyWithoutText | Embeddings.EmbeddingGenerator.EmbedReviewsPair |
