/** The pandas data frame of reviews, row by row: each row maps column names to values.
    The frame is an object because `clean_reviews` and `analyze_reviews` assign columns of the
    caller's frame in place. */
module Frame {
  import opened Python

  type Row = map<string, Value>

  const CAPTION := "caption"
  const RATING := "rating"
  const USERNAME := "username"
  const RELATIVE_DATE := "relative_date"
  const N_REVIEW_USER := "n_review_user"
  const HAS_TEXT := "has_text"
  const TEXT_LENGTH := "text_length"
  const SENTIMENT := "sentiment"
  const SENTIMENT_SCORE := "sentiment_score"

  /** `row.get(key, default)`. */
  function Get(row: Row, key: string, default: Value): Value {
    if key in row then row[key] else default
  }

  predicate HasColumn(rows: seq<Row>, key: string) {
    forall i :: 0 <= i < |rows| ==> key in rows[i]
  }

  /** Every row carries a boolean `has_text`, as `clean_reviews` leaves it; this is what makes
      `df[df['has_text']]` a boolean mask. */
  predicate TextFlagged(rows: seq<Row>) {
    forall i :: 0 <= i < |rows| ==> HAS_TEXT in rows[i] && rows[i][HAS_TEXT].Bool?
  }

  predicate IsTextRow(row: Row)
    requires HAS_TEXT in row
  {
    row[HAS_TEXT] == Bool(true)
  }

  /** `df[df['has_text']]`: the rows flagged as having text, in row order. */
  function TextRows(rows: seq<Row>): (r: seq<Row>)
    requires TextFlagged(rows)
    ensures |r| <= |rows|
    ensures TextFlagged(r)
    ensures forall i :: 0 <= i < |r| ==> IsTextRow(r[i]) && r[i] in rows
  {
    if rows == [] then []
    else
      var last := rows[|rows| - 1];
      TextRows(rows[..|rows| - 1]) + (if IsTextRow(last) then [last] else [])
  }

  /** Every flagged row is kept, in row order: row `i` comes right after the text rows that
      precede it. */
  lemma {:induction false} TextRowsComplete(rows: seq<Row>, i: nat)
    requires TextFlagged(rows) && i < |rows| && IsTextRow(rows[i])
    ensures TextFlagged(rows[..i])
    ensures |TextRows(rows[..i])| < |TextRows(rows)|
    ensures TextRows(rows)[|TextRows(rows[..i])|] == rows[i]
  {
    var front := rows[..|rows| - 1];
    if i == |rows| - 1 {
      assert rows[..i] == front;
    } else {
      assert front[..i] == rows[..i];
      TextRowsComplete(front, i);
    }
  }

  /** A text row is kept by the mask and a row without text is dropped, so the text rows of
      `xs + ys` are those of `xs` followed by those of `ys`. */
  lemma {:induction false} TextRowsAppend(xs: seq<Row>, ys: seq<Row>)
    requires TextFlagged(xs) && TextFlagged(ys)
    ensures TextFlagged(xs + ys)
    ensures TextRows(xs + ys) == TextRows(xs) + TextRows(ys)
  {
    if ys != [] {
      var zs := xs + ys;
      assert zs[..|zs| - 1] == xs + ys[..|ys| - 1];
      TextRowsAppend(xs, ys[..|ys| - 1]);
    } else {
      assert xs + ys == xs;
    }
  }

  /** A caption cell as the optional string the text functions receive: text, or missing. */
  function CaptionText(v: Value): Option<string> {
    if v.Str? then Some(v.s) else None
  }

  /** The values of column `key`, in row order (`df[key].tolist()`). */
  function Column(rows: seq<Row>, key: string): (c: seq<Value>)
    requires HasColumn(rows, key)
    ensures |c| == |rows|
  {
    seq(|rows|, i requires 0 <= i < |rows| => rows[i][key])
  }

  /** The rows after `df[key] = values`. */
  function Assigned(rows: seq<Row>, key: string, values: seq<Value>): (r: seq<Row>)
    requires |values| == |rows|
  {
    seq(|rows|, i requires 0 <= i < |rows| => rows[i][key := values[i]])
  }

  class DataFrame {
    var rows: seq<Row>

    constructor (rows: seq<Row>)
      ensures this.rows == rows
    {
      this.rows := rows;
    }

    /** `df[key] = values`: adds the column, or overwrites it, in every row. */
    method Assign(key: string, values: seq<Value>)
      requires |values| == |rows|
      modifies this
      ensures rows == Assigned(old(rows), key, values)
    {
      rows := Assigned(rows, key, values);
    }
  }
}
