/** The embedding generator: blank texts become the zero vector (one text) or a single-space
    placeholder (a batch), and `embed_reviews` embeds the captions of the rows flagged as having
    text. The sentence-transformer is an uninterpreted function from a text to its vector; a
    batch is encoded text by text, in order. */
module Embeddings {
  import opened Python
  import opened Frame

  type Vector = seq<real>

  /** The output width of all-MiniLM-L6-v2. */
  const DIMENSION := 384

  const PLACEHOLDER := " "

  /** `np.zeros(self.dimension)`. */
  function Zeros(): (v: Vector)
    ensures |v| == DIMENSION
    ensures forall k :: 0 <= k < |v| ==> v[k] == 0.0
  {
    seq(DIMENSION, k => 0.0)
  }

  /** The batch as `embed_batch` hands it to the encoder: a missing or blank entry is replaced by
      the placeholder, every other entry is kept, in order. */
  function Processed(texts: seq<Option<string>>): (r: seq<string>)
    ensures |r| == |texts|
    ensures forall k :: 0 <= k < |texts| ==> NoText(texts[k]) ==> r[k] == PLACEHOLDER
    ensures forall k :: 0 <= k < |texts| ==> !NoText(texts[k]) ==> r[k] == texts[k].value
  {
    seq(|texts|, k requires 0 <= k < |texts| => Placeheld(texts[k]))
  }

  function Placeheld(text: Option<string>): string {
    if NoText(text) then PLACEHOLDER else text.value
  }

  /** The encoder is never handed an empty or blank text by `embed_batch`. */
  lemma ProcessedNeverBlank(texts: seq<Option<string>>, k: int)
    requires 0 <= k < |texts|
    ensures Processed(texts)[k] != []
    ensures !NoText(texts[k]) ==> Strip(Processed(texts)[k]) != []
  {
  }

  /** Processing is idempotent on the texts it produces: a processed batch is processed again
      into itself. */
  lemma ProcessedIdempotent(texts: seq<Option<string>>)
    ensures var p := Processed(texts);
      Processed(seq(|p|, k requires 0 <= k < |p| => Some(p[k]))) == p
  {
    var p := Processed(texts);
    var q := seq(|p|, k requires 0 <= k < |p| => Some(p[k]));
    forall k | 0 <= k < |p| ensures Processed(q)[k] == p[k] {
      if NoText(texts[k]) {
        assert Strip(p[k]) == [] by {
          assert StripLeft(PLACEHOLDER, WhiteSpace) == [];
        }
      }
    }
  }

  /** The generator, given the encoder it wraps (`self.model.encode`). */
  datatype EmbeddingGenerator = EmbeddingGenerator(encode: string -> Vector)
  {
    /** `embed_text`: the zero vector of the model's width for a missing or blank text, the
        encoder's vector otherwise. */
    function EmbedText(text: Option<string>): (v: Vector)
      ensures NoText(text) ==> |v| == DIMENSION && forall k :: 0 <= k < |v| ==> v[k] == 0.0
      ensures !NoText(text) ==> v == encode(text.value)
    {
      if NoText(text) then Zeros() else encode(text.value)
    }

    /** `embed_batch`: one vector per text, in order, each the encoding of the processed text. */
    function EmbedBatch(texts: seq<Option<string>>): (vs: seq<Vector>)
      ensures |vs| == |texts|
      ensures forall k :: 0 <= k < |texts| ==> !NoText(texts[k]) ==> vs[k] == encode(texts[k].value)
      ensures forall k :: 0 <= k < |texts| ==> NoText(texts[k]) ==> vs[k] == encode(PLACEHOLDER)
    {
      var p := Processed(texts);
      seq(|p|, k requires 0 <= k < |p| => encode(p[k]))
    }

    /** `embed_reviews` as written: a bare empty array when no row has text, otherwise the pair
        of the captions' vectors and the text rows. */
    function EmbedReviews(rows: seq<Row>): (r: EmbedOutcome)
      requires Embeddable(rows)
      ensures r.BareEmpty? <==> TextRows(rows) == []
      ensures r.Embedded? ==> r.rows == TextRows(rows) && |r.vectors| == |r.rows|
    {
      var text := TextRows(rows);
      TextRowsHaveCaptions(rows);
      if |text| == 0 then BareEmpty else Embedded(EmbedBatch(Captions(text)), text)
    }

    /** `embed_reviews` as its caller unpacks it: always the pair of the text rows' vectors and
        the text rows; with no text row, two empty lists and no encoder call. */
    function EmbedReviewsPair(rows: seq<Row>): (r: (seq<Vector>, seq<Row>))
      requires Embeddable(rows)
      ensures r.1 == TextRows(rows)
      ensures |r.0| == |r.1|
      ensures forall k :: 0 <= k < |r.1| ==> CAPTION in r.1[k] && r.0[k] == encode(Placeheld(CaptionText(r.1[k][CAPTION])))
    {
      var text := TextRows(rows);
      TextRowsHaveCaptions(rows);
      if |text| == 0 then ([], []) else (EmbedBatch(Captions(text)), text)
    }
  }

  /** Every row the mask keeps has a caption. */
  lemma TextRowsHaveCaptions(rows: seq<Row>)
    requires Embeddable(rows)
    ensures HasColumn(TextRows(rows), CAPTION)
  {
    var text := TextRows(rows);
    forall i | 0 <= i < |text| ensures CAPTION in text[i] {
      var j :| 0 <= j < |rows| && rows[j] == text[i];
    }
  }

  /** The as-written `embed_reviews` is not a pair when no row has text, although its caller
      unpacks one: a frame whose only row has no text yields the bare empty array. */
  lemma BareEmptyWithoutText(g: EmbeddingGenerator)
    ensures var rows := [map[HAS_TEXT := Bool(false)]];
      Embeddable(rows) && g.EmbedReviews(rows) == BareEmpty
  {
    var rows := [map[HAS_TEXT := Bool(false)]];
    assert rows[..0] == [];
  }

  /** The corrected `embed_reviews` agrees with the written one whenever some row has text, and
      yields two empty lists when none has. */
  lemma PairAgreesWithWritten(g: EmbeddingGenerator, rows: seq<Row>)
    requires Embeddable(rows)
    ensures TextRows(rows) != [] ==> g.EmbedReviews(rows) == Embedded(g.EmbedReviewsPair(rows).0, g.EmbedReviewsPair(rows).1)
    ensures TextRows(rows) == [] ==> g.EmbedReviewsPair(rows) == ([], [])
  {
  }

  /** The two shapes `embed_reviews` returns. */
  datatype EmbedOutcome = BareEmpty | Embedded(vectors: seq<Vector>, rows: seq<Row>)

  /** What `embed_reviews` needs of the frame: a boolean `has_text` mask, and a caption that is
      text or missing in every row the mask keeps. */
  predicate Embeddable(rows: seq<Row>) {
    && TextFlagged(rows)
    && forall i :: 0 <= i < |rows| ==> IsTextRow(rows[i]) ==> CAPTION in rows[i] && (rows[i][CAPTION].Str? || rows[i][CAPTION].Null?)
  }

  /** `text_reviews['caption'].tolist()`. */
  function Captions(rows: seq<Row>): (r: seq<Option<string>>)
    requires HasColumn(rows, CAPTION)
    ensures |r| == |rows|
  {
    seq(|rows|, i requires 0 <= i < |rows| => CaptionText(rows[i][CAPTION]))
  }
}
