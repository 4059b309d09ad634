/** The keyword counting behind the top-keywords chart: the captions of the reviews with a given
    sentiment are joined with spaces and lower-cased, every maximal word made only of the letters
    a to z and at least four letters long is extracted (`\b[a-z]{4,}\b`), stop words are dropped,
    and the words are ranked by `Counter.most_common`. The chart itself is not modelled; the
    result is its list of (keyword, count) bars. */
module Keywords {
  import opened Python
  import opened Counter
  import opened Frame

  const MIN_LENGTH := 4

  const STOP_WORDS: set<string> := {
    "the", "and", "was", "for", "with", "this", "that", "but", "from", "very", "have", "had", "has", "are", "were"
  }

  predicate IsAsciiLower(c: char) {
    'a' <= c <= 'z'
  }

  /** The part of `\w` this model recognises: the ASCII letters and digits, the underscore, the
      letters of Latin-1 and Latin Extended-A/B, the ordinal indicators and the micro sign. `\w`
      also matches the letters and digits of other scripts, Latin letters above U+024F and the
      Latin-1 superscripts and fractions; this model treats those as separators. */
  predicate IsWordChar(c: char) {
    || 'a' <= c <= 'z' || 'A' <= c <= 'Z' || '0' <= c <= '9' || c == '_'
    || c == '\U{00AA}' || c == '\U{00B5}' || c == '\U{00BA}'
    || ('\U{00C0}' <= c <= '\U{024F}' && c != '\U{00D7}' && c != '\U{00F7}')
  }

  /** The end of the run of word characters that starts at `i`. */
  function WordEnd(s: string, i: nat): (e: nat)
    requires i <= |s|
    ensures i <= e <= |s|
    ensures forall k :: i <= k < e ==> IsWordChar(s[k])
    ensures e == |s| || !IsWordChar(s[e])
    decreases |s| - i
  {
    if i == |s| || !IsWordChar(s[i]) then i else WordEnd(s, i + 1)
  }

  /** A stretch `[start, end)` of the text. */
  datatype Span = Span(start: nat, end: nat)

  /** `s[start:end]` is a whole word: non-empty, all word characters, and neither preceded nor
      followed by a word character. */
  predicate MaximalWord(s: string, sp: Span) {
    && sp.start < sp.end <= |s|
    && (forall k :: sp.start <= k < sp.end ==> IsWordChar(s[k]))
    && (sp.start == 0 || !IsWordChar(s[sp.start - 1]))
    && (sp.end == |s| || !IsWordChar(s[sp.end]))
  }

  /** Scanning may start at `i`: nothing before it continues into a word at `i`. */
  predicate ScanStart(s: string, i: nat)
    requires i <= |s|
  {
    i == 0 || i == |s| || !IsWordChar(s[i - 1]) || !IsWordChar(s[i])
  }

  /** The words of `s` from position `i` on, in text order, each a maximal word. */
  function WordsFrom(s: string, i: nat): (r: seq<Span>)
    requires i <= |s| && ScanStart(s, i)
    ensures forall k :: 0 <= k < |r| ==> MaximalWord(s, r[k]) && i <= r[k].start
    decreases |s| - i
  {
    if i == |s| then []
    else if !IsWordChar(s[i]) then WordsFrom(s, i + 1)
    else
      var e := WordEnd(s, i);
      [Span(i, e)] + WordsFrom(s, e)
  }

  /** Each span ends before the next begins. */
  predicate Ordered(r: seq<Span>) {
    forall j, k :: 0 <= j < k < |r| ==> r[j].end < r[k].start
  }

  /** Position `p` lies inside one of the spans. */
  predicate Covered(r: seq<Span>, p: nat) {
    exists k :: 0 <= k < |r| && r[k].start <= p < r[k].end
  }

  lemma OrderedCons(x: Span, rest: seq<Span>)
    requires Ordered(rest)
    requires forall k :: 0 <= k < |rest| ==> x.end < rest[k].start
    ensures Ordered([x] + rest)
  {
    var r := [x] + rest;
    forall j, k | 0 <= j < k < |r| ensures r[j].end < r[k].start {
      assert r[k] == rest[k - 1];
      if j > 0 {
        assert r[j] == rest[j - 1];
      }
    }
  }

  lemma CoveredCons(x: Span, rest: seq<Span>, p: nat)
    requires (x.start <= p < x.end) || Covered(rest, p)
    ensures Covered([x] + rest, p)
  {
    var r := [x] + rest;
    if x.start <= p < x.end {
      assert r[0] == x;
    } else {
      var k :| 0 <= k < |rest| && rest[k].start <= p < rest[k].end;
      assert r[k + 1] == rest[k];
    }
  }

  /** The words are found in text order. */
  lemma {:induction false} WordsFromOrdered(s: string, i: nat)
    requires i <= |s| && ScanStart(s, i)
    ensures Ordered(WordsFrom(s, i))
    decreases |s| - i
  {
    if i == |s| {
    } else if !IsWordChar(s[i]) {
      WordsFromOrdered(s, i + 1);
    } else {
      var e := WordEnd(s, i);
      WordsFromOrdered(s, e);
      var rest := WordsFrom(s, e);
      forall k | 0 <= k < |rest| ensures e < rest[k].start {
        assert MaximalWord(s, rest[k]);
        assert IsWordChar(s[rest[k].start]);
      }
      OrderedCons(Span(i, e), rest);
    }
  }

  /** Every word character from `i` on lies in one of the words found. */
  lemma {:induction false} WordsFromCover(s: string, i: nat, p: nat)
    requires i <= p < |s| && ScanStart(s, i) && IsWordChar(s[p])
    ensures Covered(WordsFrom(s, i), p)
    decreases |s| - i
  {
    if !IsWordChar(s[i]) {
      WordsFromCover(s, i + 1, p);
    } else {
      var e := WordEnd(s, i);
      if e <= p {
        WordsFromCover(s, e, p);
      }
      CoveredCons(Span(i, e), WordsFrom(s, e), p);
    }
  }

  /** The pattern `[a-z]{4,}` and the stop-word filter applied to one word. */
  predicate IsKeyword(w: string) {
    && |w| >= MIN_LENGTH
    && (forall k :: 0 <= k < |w| ==> IsAsciiLower(w[k]))
    && w !in STOP_WORDS
  }

  /** The text a span covers (empty when it does not fit the text). */
  function Text(s: string, sp: Span): string {
    if sp.start <= sp.end <= |s| then s[sp.start..sp.end] else []
  }

  /** The words among `spans` that are keywords, in order. */
  function KeptWords(s: string, spans: seq<Span>): (r: seq<string>)
    ensures |r| <= |spans|
    ensures forall j :: 0 <= j < |r| ==> IsKeyword(r[j])
  {
    if spans == [] then []
    else
      var last := spans[|spans| - 1];
      KeptWords(s, spans[..|spans| - 1]) + (if IsKeyword(Text(s, last)) then [Text(s, last)] else [])
  }

  /** Each word kept is the text of one of the spans. */
  lemma {:induction false} KeptWordOrigin(s: string, spans: seq<Span>, j: nat) returns (k: nat)
    requires j < |KeptWords(s, spans)|
    ensures k < |spans| && KeptWords(s, spans)[j] == Text(s, spans[k])
  {
    var front := spans[..|spans| - 1];
    var last := spans[|spans| - 1];
    var rf := KeptWords(s, front);
    var tail := if IsKeyword(Text(s, last)) then [Text(s, last)] else [];
    assert KeptWords(s, spans) == rf + tail;
    if j < |rf| {
      k := KeptWordOrigin(s, front, j);
      assert spans[k] == front[k];
    } else {
      k := |spans| - 1;
      assert KeptWords(s, spans)[j] == tail[0];
    }
  }

  /** Every span whose text is a keyword contributes that text. */
  lemma {:induction false} KeptWordsComplete(s: string, spans: seq<Span>, k: nat)
    requires k < |spans| && IsKeyword(Text(s, spans[k]))
    ensures Text(s, spans[k]) in KeptWords(s, spans)
  {
    var front := spans[..|spans| - 1];
    if k < |front| {
      KeptWordsComplete(s, front, k);
      assert front[k] == spans[k];
    }
  }

  /** `[w for w in re.findall(r'\b[a-z]{4,}\b', text) if w not in stop_words]`. */
  function Keywords(text: string): (r: seq<string>)
    ensures forall j :: 0 <= j < |r| ==> IsKeyword(r[j])
  {
    KeptWords(text, WordsFrom(text, 0))
  }

  /** Each keyword found is a whole word of the text. */
  lemma KeywordsAreWords(text: string, j: nat)
    requires j < |Keywords(text)|
    ensures exists sp :: MaximalWord(text, sp) && Keywords(text)[j] == Text(text, sp)
  {
    var spans := WordsFrom(text, 0);
    var k := KeptWordOrigin(text, spans, j);
    assert MaximalWord(text, spans[k]);
  }

  /** No whole word of the text that is a keyword is missed. */
  lemma KeywordsComplete(text: string, sp: Span)
    requires MaximalWord(text, sp) && IsKeyword(Text(text, sp))
    ensures Text(text, sp) in Keywords(text)
  {
    var spans := WordsFrom(text, 0);
    assert IsWordChar(text[sp.start]);
    WordsFromCover(text, 0, sp.start);
    var k :| 0 <= k < |spans| && spans[k].start <= sp.start < spans[k].end;
    SameWord(text, sp, spans[k]);
    KeptWordsComplete(text, spans, k);
  }

  /** Two whole words that share a position are the same word. */
  lemma SameWord(s: string, a: Span, b: Span)
    requires MaximalWord(s, a) && MaximalWord(s, b)
    requires b.start <= a.start < b.end
    ensures a == b
  {
  }

  /** What the keyword chart needs of the frame: a sentiment in every row, and a caption that is
      text or missing in every row it selects. */
  predicate Chartable(rows: seq<Row>, sentiment: string) {
    forall i :: 0 <= i < |rows| ==>
      && SENTIMENT in rows[i]
      && (rows[i][SENTIMENT] == Str(sentiment) ==> CAPTION in rows[i] && (rows[i][CAPTION].Str? || IsNA(rows[i][CAPTION])))
  }

  /** `df[df['sentiment'] == sentiment]['caption']`, in row order. */
  function SelectedCaptions(rows: seq<Row>, sentiment: string): (r: seq<Value>)
    requires Chartable(rows, sentiment)
    ensures |r| <= |rows|
    ensures forall k :: 0 <= k < |r| ==> r[k].Str? || IsNA(r[k])
    ensures |r| == 0 <==> forall i :: 0 <= i < |rows| ==> rows[i][SENTIMENT] != Str(sentiment)
  {
    if rows == [] then []
    else
      var front := rows[..|rows| - 1];
      var last := rows[|rows| - 1];
      assert forall i :: 0 <= i < |front| ==> front[i] == rows[i];
      SelectedCaptions(front, sentiment) + (if last[SENTIMENT] == Str(sentiment) then [last[CAPTION]] else [])
  }

  /** Every selected caption is the caption of a row with that sentiment, at or after its own
      position: the selection only drops rows. */
  lemma {:induction false} SelectedCaptionsSound(rows: seq<Row>, sentiment: string, k: nat) returns (i: nat)
    requires Chartable(rows, sentiment)
    requires k < |SelectedCaptions(rows, sentiment)|
    ensures k <= i < |rows|
    ensures rows[i][SENTIMENT] == Str(sentiment)
    ensures SelectedCaptions(rows, sentiment)[k] == rows[i][CAPTION]
  {
    var front := rows[..|rows| - 1];
    var last := rows[|rows| - 1];
    assert forall j :: 0 <= j < |front| ==> front[j] == rows[j];
    var before := SelectedCaptions(front, sentiment);
    if k < |before| {
      i := SelectedCaptionsSound(front, sentiment, k);
    } else {
      i := |rows| - 1;
    }
  }

  /** Every row with that sentiment is selected, in row order: its caption comes right after the
      captions selected from the rows before it. */
  lemma {:induction false} SelectedCaptionsComplete(rows: seq<Row>, sentiment: string, i: nat)
    requires Chartable(rows, sentiment)
    requires i < |rows| && rows[i][SENTIMENT] == Str(sentiment)
    ensures Chartable(rows[..i], sentiment)
    ensures |SelectedCaptions(rows[..i], sentiment)| < |SelectedCaptions(rows, sentiment)|
    ensures SelectedCaptions(rows, sentiment)[|SelectedCaptions(rows[..i], sentiment)|] == rows[i][CAPTION]
  {
    var front := rows[..|rows| - 1];
    assert forall j :: 0 <= j < |front| ==> front[j] == rows[j];
    if i == |rows| - 1 {
      assert rows[..i] == front;
    } else {
      assert front[..i] == rows[..i];
      SelectedCaptionsComplete(front, sentiment, i);
    }
  }

  /** `.dropna()` on the selected captions, as texts. */
  function PresentTexts(captions: seq<Value>): (r: seq<string>)
    requires forall k :: 0 <= k < |captions| ==> captions[k].Str? || IsNA(captions[k])
    ensures |r| <= |captions|
  {
    if captions == [] then []
    else
      var last := captions[|captions| - 1];
      PresentTexts(captions[..|captions| - 1]) + (if IsNA(last) then [] else [last.s])
  }

  /** Every caption that is not missing is kept, in order. */
  lemma {:induction false} PresentTextsComplete(captions: seq<Value>, i: nat)
    requires forall k :: 0 <= k < |captions| ==> captions[k].Str? || IsNA(captions[k])
    requires i < |captions| && captions[i].Str?
    ensures |PresentTexts(captions[..i])| < |PresentTexts(captions)|
    ensures PresentTexts(captions)[|PresentTexts(captions[..i])|] == captions[i].s
  {
    var front := captions[..|captions| - 1];
    if i == |captions| - 1 {
      assert captions[..i] == front;
    } else {
      assert front[..i] == captions[..i];
      PresentTextsComplete(front, i);
    }
  }

  /** `dropna` keeps each text as often as the captions hold it. */
  lemma {:induction false} PresentTextsCount(captions: seq<Value>, t: string)
    requires forall k :: 0 <= k < |captions| ==> captions[k].Str? || IsNA(captions[k])
    ensures Count(PresentTexts(captions), t) == Count(captions, Str(t))
  {
    if captions != [] {
      var front := captions[..|captions| - 1];
      PresentTextsCount(front, t);
      var ps := PresentTexts(front);
      var last := captions[|captions| - 1];
      assert Count(captions, Str(t)) == Count(ps, t) + (if last == Str(t) then 1 else 0);
      if !IsNA(last) {
        assert (ps + [last.s])[..|ps|] == ps;
        assert PresentTexts(captions) == ps + [last.s];
      } else {
        assert PresentTexts(captions) == ps + [] == ps;
      }
    }
  }

  /** The words counted for a sentiment: the keywords of the lower-cased, space-joined captions. */
  function SentimentWords(rows: seq<Row>, sentiment: string): (r: seq<string>)
    requires Chartable(rows, sentiment)
    ensures forall j :: 0 <= j < |r| ==> IsKeyword(r[j])
    ensures (forall i :: 0 <= i < |rows| ==> rows[i][SENTIMENT] != Str(sentiment)) ==> r == []
  {
    Keywords(LowerAscii(Join(" ", PresentTexts(SelectedCaptions(rows, sentiment)))))
  }

  /** The bars of `plot_top_keywords`: none when no review has the sentiment or no keyword
      survives, otherwise the `top_n` most common keywords with their counts. */
  function TopKeywords(rows: seq<Row>, sentiment: string, topN: int): (r: Option<seq<(string, nat)>>)
    requires Chartable(rows, sentiment)
    ensures r.Some? ==> 0 < |r.value| && |r.value| <= topN
  {
    if |SelectedCaptions(rows, sentiment)| == 0 then None
    else
      var counts := MostCommon(SentimentWords(rows, sentiment), topN);
      if counts == [] then None else Some(counts)
  }

  /** No chart exactly when no review has the sentiment, when no keyword survives, or when
      `top_n` asks for none. */
  lemma TopKeywordsAbsent(rows: seq<Row>, sentiment: string, topN: int)
    requires Chartable(rows, sentiment)
    ensures TopKeywords(rows, sentiment, topN).None? <==>
      || (forall i :: 0 <= i < |rows| ==> rows[i][SENTIMENT] != Str(sentiment))
      || SentimentWords(rows, sentiment) == []
      || topN <= 0
  {
    var words := SentimentWords(rows, sentiment);
    if words != [] && topN > 0 {
      DistinctNonEmpty(words);
    }
  }

  /** Each bar is a keyword found in the captions with its number of occurrences; the bars are
      `most_common(top_n)` of those keywords, so their order and cut-off are the ones
      `Counter.MostCommonSpec` states. */
  lemma TopKeywordsBars(rows: seq<Row>, sentiment: string, topN: int)
    requires Chartable(rows, sentiment)
    ensures var r := TopKeywords(rows, sentiment, topN);
      r.Some? ==> r.value == MostCommon(SentimentWords(rows, sentiment), topN)
    ensures var r := TopKeywords(rows, sentiment, topN);
      var words := SentimentWords(rows, sentiment);
      r.Some? ==> forall i :: 0 <= i < |r.value| ==>
        && IsKeyword(r.value[i].0)
        && r.value[i].0 in words
        && r.value[i].1 == Count(words, r.value[i].0) >= 1
  {
    var words := SentimentWords(rows, sentiment);
    MostCommonSpec(words, topN);
    var counts := MostCommon(words, topN);
    forall i | 0 <= i < |counts| ensures IsKeyword(counts[i].0) {
      var k :| 0 <= k < |words| && words[k] == counts[i].0;
    }
  }

  lemma DistinctNonEmpty<T>(xs: seq<T>)
    requires xs != []
    ensures |Distinct(xs)| > 0
  {
    assert xs[0] in Distinct(xs);
  }
}
