/** The data-shaping part of the Google Maps scraper: turning one review block of the page into a
    record (`__parse`), keeping the blocks from an offset onward (`get_reviews`), and deriving the
    text columns of the frame (`clean_reviews`). Browser driving is not part of this model: the
    page is given as the sequence of what the lookups of each review block found. */
module GoogleMaps {
  import opened Python
  import opened Frame

  /** What the lookups of one review block found, `None` where the element (or its attribute)
      was missing. `rating` is the outcome of reading the first word of the stars' aria-label as
      a float: None when that lookup or the float parse failed. */
  datatype Block = Block(
    text: Option<string>,
    rating: Option<Value>,
    date: Option<string>,
    user: Option<string>,
    reviewCount: Option<string>)

  /** The dict that `__parse` returns. */
  datatype Item = Item(
    caption: Option<string>,
    relativeDate: Option<string>,
    rating: Option<Value>,
    username: string,
    nReviewUser: int)

  const ANONYMOUS := "Anonymous"

  predicate IsLineBreakOrTab(c: char) {
    c == '\r' || c == '\n' || c == '\t'
  }

  /** The caption with every carriage return, newline and tab replaced by a space. */
  function NormalizeCaption(s: string): (r: string)
    ensures |r| == |s|
    ensures forall k :: 0 <= k < |r| ==> !IsLineBreakOrTab(r[k])
    ensures forall k :: 0 <= k < |s| ==> r[k] == if IsLineBreakOrTab(s[k]) then ' ' else s[k]
  {
    ReplaceChar(ReplaceChar(ReplaceChar(s, '\r', ' '), '\n', ' '), '\t', ' ')
  }

  /** The review author's review count: the first space-separated word of the label with its commas
      removed, read as an integer; 1 when the label is missing or does not parse. */
  function ReviewCount(text: Option<string>): (n: int)
    ensures text.None? ==> n == 1
    ensures text.Some? ==>
      var parsed := ParseInt(RemoveChar(FirstToken(text.value), ','));
      n == if parsed.Some? then parsed.value else 1
  {
    if text.None? then 1
    else
      match ParseInt(RemoveChar(FirstToken(text.value), ','))
      case Some(n) => n
      case None => 1
  }

  /** `__parse`: one block to one record, with a default for every lookup that failed. */
  function Parse(b: Block): (r: Item)
    ensures r.caption.Some? <==> b.text.Some?
    ensures r.caption.Some? ==> |r.caption.value| == |b.text.value|
    ensures r.caption.Some? ==> forall k :: 0 <= k < |r.caption.value| ==> !IsLineBreakOrTab(r.caption.value[k])
    ensures r.caption.Some? ==> r.caption.value == NormalizeCaption(b.text.value)
    ensures r.relativeDate == b.date && r.rating == b.rating
    ensures r.username == if b.user.Some? then b.user.value else ANONYMOUS
    ensures r.nReviewUser == ReviewCount(b.reviewCount)
    ensures b.reviewCount.None? ==> r.nReviewUser == 1
  {
    Item(
      caption := if b.text.Some? then Some(NormalizeCaption(b.text.value)) else None,
      relativeDate := b.date,
      rating := b.rating,
      username := if b.user.Some? then b.user.value else ANONYMOUS,
      nReviewUser := ReviewCount(b.reviewCount))
  }

  /** A count label written as the decimal number, a space and anything else reads back as that
      number. */
  lemma ReviewCountOfNumber(n: int, rest: string)
    ensures ReviewCount(Some(IntText(n) + " " + rest)) == n
  {
    var t := IntText(n);
    assert FirstToken(t + " " + rest) == t by {
      NoCommaInIntText(n);
      FirstTokenPrefix(t, " " + rest);
      assert t + " " + rest == t + (" " + rest);
    }
    assert RemoveChar(t, ',') == t by {
      NoCommaInIntText(n);
    }
    ParseIntText(n);
  }

  /** A label whose first word holds no digit, as in "Local Guide · 120 reviews", does not parse,
      so the count falls back to 1. */
  lemma ReviewCountWithoutDigit(text: string)
    requires forall k :: 0 <= k < |FirstToken(text)| ==> !IsDigit(FirstToken(text)[k])
    ensures ReviewCount(Some(text)) == 1
  {
    var t := RemoveChar(FirstToken(text), ',');
    RemoveCharKeeps(FirstToken(text), ',');
    NoDigitNoInt(t);
  }

  /** Removing a character keeps only characters that were there. */
  lemma {:induction false} RemoveCharKeeps(s: string, a: char)
    ensures forall k :: 0 <= k < |RemoveChar(s, a)| ==> RemoveChar(s, a)[k] in s
  {
    if s != [] {
      RemoveCharKeeps(s[1..], a);
      var h := if s[0] == a then [] else [s[0]];
      assert RemoveChar(s, a) == h + RemoveChar(s[1..], a);
      forall k | 0 <= k < |RemoveChar(s, a)| ensures RemoveChar(s, a)[k] in s {
        if k >= |h| {
          assert RemoveChar(s, a)[k] == RemoveChar(s[1..], a)[k - |h|];
          assert RemoveChar(s[1..], a)[k - |h|] in s[1..];
        }
      }
    }
  }

  lemma NoCommaInIntText(n: int)
    ensures forall k :: 0 <= k < |IntText(n)| ==> IntText(n)[k] != ',' && IntText(n)[k] != ' '
  {
    var d := NatText(if n < 0 then -n else n);
    if n < 0 {
      assert forall k :: 1 <= k < |IntText(n)| ==> IntText(n)[k] == d[k - 1];
    }
  }

  lemma {:induction false} FirstTokenPrefix(t: string, rest: string)
    requires forall k :: 0 <= k < |t| ==> t[k] != ' '
    requires rest != [] && rest[0] == ' '
    ensures FirstToken(t + rest) == t
  {
    if t != [] {
      assert (t + rest)[1..] == t[1..] + rest;
      FirstTokenPrefix(t[1..], rest);
    } else {
      assert t + rest == rest;
    }
  }

  /** A count shown with thousands separators, as in "1,234 reviews". */
  function Grouped(n: nat): string {
    if n < 1000 then NatText(n) else Grouped(n / 1000) + "," + ThreeDigits(n % 1000)
  }

  function ThreeDigits(m: nat): string
    requires m < 1000
  {
    [DigitChar(m / 100), DigitChar(m / 10 % 10), DigitChar(m % 10)]
  }

  lemma NatTextThousands(n: nat)
    requires n >= 1000
    ensures NatText(n) == NatText(n / 1000) + ThreeDigits(n % 1000)
  {
    DigitsOfThousands(n);
    assert NatText(n) == NatText(n / 10) + [DigitChar(n % 10)];
    assert NatText(n / 10) == NatText(n / 100) + [DigitChar(n / 10 % 10)];
    assert NatText(n / 100) == NatText(n / 1000) + [DigitChar(n / 100 % 10)];
  }

  /** The last three decimal digits of `n`, read off `n % 1000`. */
  lemma DigitsOfThousands(n: nat)
    requires n >= 1000
    ensures n / 10 >= 10 && n / 100 >= 10
    ensures n / 10 / 10 == n / 100 && n / 100 / 10 == n / 1000
    ensures (n % 1000) / 100 == n / 100 % 10
    ensures (n % 1000) / 10 % 10 == n / 10 % 10
    ensures (n % 1000) % 10 == n % 10
  {
  }

  lemma {:induction false} RemoveCharAppend(a: string, b: string, c: char)
    ensures RemoveChar(a + b, c) == RemoveChar(a, c) + RemoveChar(b, c)
  {
    if a != [] {
      RemoveCharAppend(a[1..], b, c);
      var h := if a[0] == c then [] else [a[0]];
      assert (a + b)[0] == a[0];
      assert (a + b)[1..] == a[1..] + b;
      assert RemoveChar(a + b, c) == h + RemoveChar(a[1..] + b, c);
      assert RemoveChar(a, c) == h + RemoveChar(a[1..], c);
      assert h + (RemoveChar(a[1..], c) + RemoveChar(b, c)) == (h + RemoveChar(a[1..], c)) + RemoveChar(b, c);
    } else {
      assert a + b == b;
    }
  }

  lemma {:induction false} UngroupedIsNatText(n: nat)
    ensures RemoveChar(Grouped(n), ',') == NatText(n)
  {
    if n >= 1000 {
      UngroupedIsNatText(n / 1000);
      var three := ThreeDigits(n % 1000);
      RemoveCharAppend(Grouped(n / 1000) + ",", three, ',');
      RemoveCharAppend(Grouped(n / 1000), ",", ',');
      assert RemoveChar(",", ',') == [];
      NatTextThousands(n);
    }
  }

  /** A count with thousands separators, as in "1,234 reviews", reads back as that number. */
  lemma GroupedReviewCount(n: nat, rest: string)
    ensures ReviewCount(Some(Grouped(n) + " " + rest)) == n
  {
    var g := Grouped(n);
    assert forall k :: 0 <= k < |g| ==> g[k] != ' ' by {
      GroupedHasNoSpace(n);
    }
    FirstTokenPrefix(g, " " + rest);
    assert g + " " + rest == g + (" " + rest);
    UngroupedIsNatText(n);
    ParseIntText(n);
  }

  lemma {:induction false} GroupedHasNoSpace(n: nat)
    ensures forall k :: 0 <= k < |Grouped(n)| ==> Grouped(n)[k] != ' '
  {
    if n >= 1000 {
      GroupedHasNoSpace(n / 1000);
    }
  }

  /** The first position from which `get_reviews` parses blocks. */
  function FirstKept(offset: int, count: nat): nat {
    if offset <= 0 then 0 else if offset <= count then offset else count
  }

  /** `get_reviews` after scrolling and expanding: every block whose index is at least `offset`
      is parsed, in page order. */
  method GetReviews(blocks: seq<Block>, offset: int) returns (parsed: seq<Item>)
    ensures |parsed| == |blocks| - FirstKept(offset, |blocks|)
    ensures forall k :: 0 <= k < |parsed| ==> parsed[k] == Parse(blocks[FirstKept(offset, |blocks|) + k])
  {
    parsed := ParseFrom(blocks, offset, Parse);
  }

  /** The loop of `get_reviews`, with `__parse` passed in: every block whose index is at least
      `offset` is parsed and appended, in page order. */
  method ParseFrom<B, I>(blocks: seq<B>, offset: int, parse: B -> I) returns (parsed: seq<I>)
    ensures |parsed| == |blocks| - FirstKept(offset, |blocks|)
    ensures forall k :: 0 <= k < |parsed| ==> parsed[k] == parse(blocks[FirstKept(offset, |blocks|) + k])
  {
    parsed := [];
    var index := 0;
    while index < |blocks|
      invariant 0 <= index <= |blocks|
      invariant |parsed| == index - FirstKept(offset, index)
      invariant forall k :: 0 <= k < |parsed| ==> parsed[k] == parse(blocks[FirstKept(offset, index) + k])
    {
      if index >= offset {
        assert FirstKept(offset, index + 1) == FirstKept(offset, index);
        parsed := parsed + [parse(blocks[index])];
      } else {
        assert FirstKept(offset, index + 1) == index + 1;
        assert FirstKept(offset, index) == index;
      }
      index := index + 1;
    }
  }

  /** The caption column as the scraper leaves it: text or missing. */
  predicate RawCaptions(rows: seq<Row>) {
    forall i :: 0 <= i < |rows| ==> CAPTION in rows[i] && (rows[i][CAPTION].Str? || IsNA(rows[i][CAPTION]))
  }

  /** One row after `clean_reviews`: a missing caption becomes the empty text, `text_length` is
      the caption's length and `has_text` says whether that length is positive; every other
      column is untouched. */
  function CleanRow(row: Row): (r: Row)
    requires CAPTION in row && (row[CAPTION].Str? || IsNA(row[CAPTION]))
    ensures r.Keys == row.Keys + {HAS_TEXT, TEXT_LENGTH}
    ensures r[CAPTION] == if IsNA(row[CAPTION]) then Str("") else row[CAPTION]
    ensures r[TEXT_LENGTH] == Int(|r[CAPTION].s|)
    ensures r[HAS_TEXT] == Bool(r[TEXT_LENGTH].i > 0)
    ensures forall k :: k in row && k != CAPTION && k != HAS_TEXT && k != TEXT_LENGTH ==> r[k] == row[k]
  {
    var caption := if IsNA(row[CAPTION]) then "" else row[CAPTION].s;
    row[CAPTION := Str(caption)][HAS_TEXT := Bool(|caption| > 0)][TEXT_LENGTH := Int(|caption|)]
  }

  function Cleaned(rows: seq<Row>): (r: seq<Row>)
    requires RawCaptions(rows)
    ensures |r| == |rows|
    ensures TextFlagged(r)
  {
    seq(|rows|, i requires 0 <= i < |rows| => CleanRow(rows[i]))
  }

  /** `clean_reviews`: fills missing captions with '' and derives `has_text` and `text_length`,
      column by column, in the caller's frame, which it also returns. */
  method CleanReviews(df: DataFrame) returns (r: DataFrame)
    requires RawCaptions(df.rows)
    modifies df
    ensures r == df
    ensures df.rows == Cleaned(old(df.rows))
  {
    var rows := df.rows;
    var captions := seq(|rows|, i requires 0 <= i < |rows| =>
      if IsNA(rows[i][CAPTION]) then Str("") else rows[i][CAPTION]);
    df.Assign(CAPTION, captions);
    df.Assign(HAS_TEXT, seq(|rows|, i requires 0 <= i < |rows| => Bool(|captions[i].s| > 0)));
    df.Assign(TEXT_LENGTH, seq(|rows|, i requires 0 <= i < |rows| => Int(|captions[i].s|)));
    r := df;
  }
}
