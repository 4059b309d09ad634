/** The ChromaDB-backed review store. The store object holds the client's collections by name,
    the collection it works on (none until `create_collection`), and the source of fresh ids;
    `add_reviews` shapes one id, document and metadata record per row, and `search` turns the
    filter dict into a `where` clause before handing the request to the collection's
    nearest-neighbour query, which is an uninterpreted function. uuid4 ids are modelled by a
    counter, which makes every issued id fresh. */
module VectorStore {
  import opened Python
  import opened Frame
  import opened Embeddings

  const UNKNOWN := "UNKNOWN"

  const NOT_CREATED_ON_ADD := "Collection not created. Call create_collection() first."
  const NOT_CREATED_ON_SEARCH := "Collection not created."

  /** The metadata record stored with each review. */
  datatype Metadata = Metadata(rating: Value, sentiment: string, username: string, relativeDate: string, textLength: int)
  {
    /** The record as the dict the collection stores and returns. */
    function AsDict(): (d: map<string, Value>)
      ensures d.Keys == {RATING, SENTIMENT, USERNAME, RELATIVE_DATE, TEXT_LENGTH}
      ensures d[SENTIMENT] == Str(sentiment) && d[RATING] == rating
      ensures d[USERNAME] == Str(username) && d[RELATIVE_DATE] == Str(relativeDate) && d[TEXT_LENGTH] == Int(textLength)
    {
      map[RATING := rating, SENTIMENT := Str(sentiment), USERNAME := Str(username),
          RELATIVE_DATE := Str(relativeDate), TEXT_LENGTH := Int(textLength)]
    }
  }

  /** One stored review. */
  datatype Entry = Entry(id: nat, embedding: Vector, document: string, metadata: Metadata)

  /** One condition of a `where` clause: `{'$gte': v}` or a plain value (equality). */
  datatype WhereTerm = AtLeast(bound: Value) | Equals(value: Value)

  type Where = map<string, WhereTerm>

  /** What the collection's `query` is asked: the stored entries, the query vector,
      `n_results` and `where`. */
  datatype Request = Request(entries: seq<Entry>, embedding: Vector, nResults: int, where: Option<Where>)

  /** The first (only) query's lists of what `query` returns: documents and metadata dicts. */
  datatype QueryResult = QueryResult(documents: seq<string>, metadatas: seq<map<string, Value>>)

  /** `float(v)` for the values a rating cell holds. */
  function AsFloat(v: Value): (r: Result<Value>)
    requires v.Float? || v.Null?
    ensures v.Float? ==> r == Ok(v)
    ensures v.Null? ==> r.Err? && r.error.TypeError?
  {
    if v.Float? then Ok(v)
    else Err(TypeError("float() argument must be a string or a real number, not 'NoneType'"))
  }

  /** `int(v)` for the values a `text_length` cell holds other than floats. */
  function AsInt(v: Value): (r: Result<int>)
    requires !v.Float?
    ensures v.Int? ==> r == Ok(v.i)
    ensures v.Null? ==> r.Err? && r.error.TypeError?
    ensures v.Bool? ==> r == Ok(if v.b then 1 else 0)
    ensures v.Str? ==> (r.Ok? <==> ParseInt(v.s).Some?)
    ensures v.Str? && r.Ok? ==> r.value == ParseInt(v.s).value
  {
    match v
    case Int(i) => Ok(i)
    case Bool(b) => Ok(if b then 1 else 0)
    case Null => Err(TypeError("int() argument must be a string, a bytes-like object or a real number, not 'NoneType'"))
    case Str(s) =>
      match ParseInt(s)
      case Some(n) => Ok(n)
      case None => Err(ValueError("invalid literal for int() with base 10: " + ReprOf(v)))
  }

  /** What `add_reviews` needs of a row: a text caption, a float or missing rating, a username,
      and a `text_length` that is not a float when present. */
  predicate Storable(row: Row) {
    && CAPTION in row && row[CAPTION].Str?
    && RATING in row && (row[RATING].Float? || row[RATING].Null?)
    && USERNAME in row
    && (TEXT_LENGTH in row ==> !row[TEXT_LENGTH].Float?)
  }

  /** The metadata record of one row, with the defaults `UNKNOWN`, `''` and `0` for a missing
      sentiment, relative date and text length; the error the conversions raise otherwise. */
  function MetadataOf(row: Row): (r: Result<Metadata>)
    requires Storable(row)
    ensures r.Ok? <==> AsFloat(row[RATING]).Ok? && AsInt(Get(row, TEXT_LENGTH, Int(0))).Ok?
    ensures r.Ok? ==> r.value.rating == row[RATING] && r.value.username == StrOf(row[USERNAME])
    ensures r.Ok? && SENTIMENT !in row ==> r.value.sentiment == UNKNOWN
    ensures r.Ok? && SENTIMENT in row ==> r.value.sentiment == StrOf(row[SENTIMENT])
    ensures r.Ok? && RELATIVE_DATE !in row ==> r.value.relativeDate == ""
    ensures r.Ok? && RELATIVE_DATE in row ==> r.value.relativeDate == StrOf(row[RELATIVE_DATE])
    ensures r.Ok? && TEXT_LENGTH !in row ==> r.value.textLength == 0
    ensures r.Ok? && TEXT_LENGTH in row ==> r.value.textLength == AsInt(row[TEXT_LENGTH]).value
  {
    match AsFloat(row[RATING])
    case Err(e) => Err(e)
    case Ok(rating) =>
      match AsInt(Get(row, TEXT_LENGTH, Int(0)))
      case Err(e) => Err(e)
      case Ok(n) =>
        Ok(Metadata(rating, StrOf(Get(row, SENTIMENT, Str(UNKNOWN))), StrOf(row[USERNAME]),
                    StrOf(Get(row, RELATIVE_DATE, Str(""))), n))
  }

  /** The metadata list of the rows, or the error of the first row whose conversion raises. */
  function Metadatas(rows: seq<Row>): (r: Result<seq<Metadata>>)
    requires forall i :: 0 <= i < |rows| ==> Storable(rows[i])
    ensures r.Ok? ==> |r.value| == |rows|
  {
    if rows == [] then Ok([])
    else
      match Metadatas(rows[..|rows| - 1])
      case Err(e) => Err(e)
      case Ok(ms) =>
        match MetadataOf(rows[|rows| - 1])
        case Err(e) => Err(e)
        case Ok(m) => Ok(ms + [m])
  }

  /** The metadata list is built exactly when the conversion of every row succeeds, and then it
      holds one record per row, in row order. */
  lemma MetadatasSpec(rows: seq<Row>)
    requires forall i :: 0 <= i < |rows| ==> Storable(rows[i])
    ensures Metadatas(rows).Ok? <==> forall i :: 0 <= i < |rows| ==> MetadataOf(rows[i]).Ok?
    ensures Metadatas(rows).Ok? ==> forall i :: 0 <= i < |rows| ==> Metadatas(rows).value[i] == MetadataOf(rows[i]).value
  {
    if Metadatas(rows).Ok? {
      forall i | 0 <= i < |rows|
        ensures MetadataOf(rows[i]).Ok? && Metadatas(rows).value[i] == MetadataOf(rows[i]).value
      {
        MetadatasAt(rows, i);
      }
    } else if forall i :: 0 <= i < |rows| ==> MetadataOf(rows[i]).Ok? {
      MetadatasAllOk(rows);
    }
  }

  /** Row `i`'s record sits at position `i` of a built list. */
  lemma {:induction false} MetadatasAt(rows: seq<Row>, i: nat)
    requires forall i :: 0 <= i < |rows| ==> Storable(rows[i])
    requires i < |rows| && Metadatas(rows).Ok?
    ensures MetadataOf(rows[i]).Ok? && Metadatas(rows).value[i] == MetadataOf(rows[i]).value
  {
    var front := rows[..|rows| - 1];
    assert forall k :: 0 <= k < |front| ==> front[k] == rows[k];
    assert Metadatas(front).Ok? && MetadataOf(rows[|rows| - 1]).Ok?;
    assert Metadatas(rows).value == Metadatas(front).value + [MetadataOf(rows[|rows| - 1]).value];
    if i < |front| {
      MetadatasAt(front, i);
    }
  }

  /** When every row converts, the list is built. */
  lemma {:induction false} MetadatasAllOk(rows: seq<Row>)
    requires forall i :: 0 <= i < |rows| ==> Storable(rows[i]) && MetadataOf(rows[i]).Ok?
    ensures Metadatas(rows).Ok?
  {
    if rows != [] {
      var front := rows[..|rows| - 1];
      assert forall i :: 0 <= i < |front| ==> front[i] == rows[i];
      MetadatasAllOk(front);
    }
  }

  /** When the list fails, it fails with the error of the first row whose conversion raises. */
  lemma {:induction false} MetadatasFirstError(rows: seq<Row>)
    requires forall i :: 0 <= i < |rows| ==> Storable(rows[i])
    requires Metadatas(rows).Err?
    ensures exists i :: 0 <= i < |rows| && FirstFailure(rows, i)
  {
    var front := rows[..|rows| - 1];
    assert forall i :: 0 <= i < |front| ==> front[i] == rows[i];
    if Metadatas(front).Err? {
      MetadatasFirstError(front);
      var i :| 0 <= i < |front| && FirstFailure(front, i);
      assert FirstFailure(rows, i);
    } else {
      MetadatasSpec(front);
      assert FirstFailure(rows, |rows| - 1);
    }
  }

  /** Row `i` is the first whose conversion raises, and its error is the list's. */
  predicate FirstFailure(rows: seq<Row>, i: int)
    requires forall i :: 0 <= i < |rows| ==> Storable(rows[i])
    requires 0 <= i < |rows|
  {
    && MetadataOf(rows[i]).Err?
    && Metadatas(rows) == Err(MetadataOf(rows[i]).error)
    && forall j :: 0 <= j < i ==> MetadataOf(rows[j]).Ok?
  }

  /** The `add_reviews` loop: the metadata records built one row at a time. */
  method BuildMetadatas(rows: seq<Row>) returns (r: Result<seq<Metadata>>)
    requires forall i :: 0 <= i < |rows| ==> Storable(rows[i])
    ensures r == Metadatas(rows)
  {
    var metadatas: seq<Metadata> := [];
    var i := 0;
    while i < |rows|
      invariant 0 <= i <= |rows|
      invariant Metadatas(rows[..i]) == Ok(metadatas)
    {
      assert rows[..i + 1][..i] == rows[..i];
      var metadata := MetadataOf(rows[i]);
      if metadata.Err? {
        MetadatasErrSticky(rows, i + 1);
        return Err(metadata.error);
      }
      metadatas := metadatas + [metadata.value];
      i := i + 1;
    }
    assert rows[..i] == rows;
    return Ok(metadatas);
  }

  /** Once a prefix of the rows fails, the whole list fails with the same error. */
  lemma {:induction false} MetadatasErrSticky(rows: seq<Row>, n: nat)
    requires forall i :: 0 <= i < |rows| ==> Storable(rows[i])
    requires n <= |rows| && Metadatas(rows[..n]).Err?
    ensures Metadatas(rows) == Metadatas(rows[..n])
  {
    if n < |rows| {
      assert rows[..|rows| - 1][..n] == rows[..n];
      MetadatasErrSticky(rows[..|rows| - 1], n);
      assert rows[..|rows|] == rows;
    } else {
      assert rows[..n] == rows;
    }
  }

  /** `reviews_df['caption'].tolist()`. */
  function Documents(rows: seq<Row>): (r: seq<string>)
    requires forall i :: 0 <= i < |rows| ==> Storable(rows[i])
    ensures |r| == |rows|
  {
    seq(|rows|, i requires 0 <= i < |rows| => assert Storable(rows[i]); rows[i][CAPTION].s)
  }

  /** The entries one successful `add_reviews` appends: ids `first`, `first + 1`, ... */
  function NewEntries(first: nat, embeddings: seq<Vector>, documents: seq<string>, metadatas: seq<Metadata>): (r: seq<Entry>)
    requires |embeddings| == |documents| == |metadatas|
    ensures |r| == |metadatas|
  {
    seq(|metadatas|, k requires 0 <= k < |metadatas| => Entry(first + k, embeddings[k], documents[k], metadatas[k]))
  }

  /** Ids increase strictly along a collection and stay below the next id to issue, so they are
      pairwise distinct. */
  predicate IdsOrdered(entries: seq<Entry>, issued: nat) {
    && (forall i :: 0 <= i < |entries| ==> entries[i].id < issued)
    && (forall i, j :: 0 <= i < j < |entries| ==> entries[i].id < entries[j].id)
  }

  lemma IdsDistinct(entries: seq<Entry>, issued: nat)
    requires IdsOrdered(entries, issued)
    ensures forall i, j :: 0 <= i < |entries| && 0 <= j < |entries| && i != j ==> entries[i].id != entries[j].id
  {
  }

  /** Appending a fresh batch keeps a collection's ids ordered: each id of the batch is new and
      the ids within it are pairwise distinct. */
  lemma NewEntriesFresh(old_entries: seq<Entry>, issued: nat, embeddings: seq<Vector>, documents: seq<string>, metadatas: seq<Metadata>)
    requires |embeddings| == |documents| == |metadatas|
    requires IdsOrdered(old_entries, issued)
    ensures IdsOrdered(old_entries + NewEntries(issued, embeddings, documents, metadatas), issued + |metadatas|)
  {
  }

  /** Raising the issue counter keeps every collection's ids below it, so appending a fresh batch
      to one collection keeps all of them ordered. */
  lemma OrderedAfterAppend(collections: map<string, seq<Entry>>, name: string, added: seq<Entry>, issued: nat, count: nat)
    returns (updated: map<string, seq<Entry>>)
    requires name in collections
    requires forall n :: n in collections ==> IdsOrdered(collections[n], issued)
    requires IdsOrdered(collections[name] + added, issued + count)
    ensures updated == collections[name := collections[name] + added]
    ensures forall n :: n in updated ==> IdsOrdered(updated[n], issued + count)
  {
    updated := collections[name := collections[name] + added];
  }

  /** `filters` as the `where` clause `search` builds: a lower bound for `rating`, an equality
      for `sentiment`, every other key ignored, and no clause at all when neither is present. */
  function WhereFor(filters: Option<map<string, Value>>): (r: Option<Where>)
    ensures r.None? <==> filters.None? || (RATING !in filters.value && SENTIMENT !in filters.value)
    ensures r.Some? ==> forall k :: k in r.value ==> k == RATING || k == SENTIMENT
    ensures r.Some? ==> (RATING in r.value <==> RATING in filters.value)
    ensures r.Some? ==> (SENTIMENT in r.value <==> SENTIMENT in filters.value)
    ensures r.Some? && RATING in r.value ==> r.value[RATING] == AtLeast(filters.value[RATING])
    ensures r.Some? && SENTIMENT in r.value ==> r.value[SENTIMENT] == Equals(filters.value[SENTIMENT])
  {
    if filters.None? then None
    else
      var f := filters.value;
      var w := map k | k in f && (k == RATING || k == SENTIMENT) :: if k == RATING then AtLeast(f[k]) else Equals(f[k]);
      assert RATING in f ==> RATING in w;
      assert SENTIMENT in f ==> SENTIMENT in w;
      if w == map[] then None else Some(w)
  }

  class ReviewVectorStore {
    /** The client's collections, by name. */
    var collections: map<string, seq<Entry>>
    /** The name of the collection the store works on (`self.collection`), if any. */
    var collection: Option<string>
    /** The next id to issue. */
    var issued: nat
    /** The collections' nearest-neighbour query. */
    const nearest: Request -> QueryResult

    ghost predicate Valid()
      reads this
    {
      && (collection.Some? ==> collection.value in collections)
      && forall name :: name in collections ==> IdsOrdered(collections[name], issued)
    }

    /** A new store: no collection yet. */
    constructor (nearest: Request -> QueryResult)
      ensures Valid()
      ensures collection.None? && collections == map[] && issued == 0
      ensures this.nearest == nearest
    {
      collections := map[];
      collection := None;
      issued := 0;
      this.nearest := nearest;
    }

    /** `create_collection`: drops any collection of that name (a failed delete is ignored),
        creates it empty and makes it the store's collection. */
    method CreateCollection(name: string) returns (created: string)
      requires Valid()
      modifies this
      ensures Valid()
      ensures created == name && collection == Some(name)
      ensures collections == old(collections)[name := []]
      ensures issued == old(issued)
    {
      collections := collections[name := []];
      collection := Some(name);
      created := name;
    }

    /** `add_reviews`: fails when no collection exists; otherwise appends one entry per row,
        with a fresh id, the caption as its document and the row's metadata record, unless a
        conversion raises or the collection rejects vectors that do not match the rows one to
        one (in which case nothing is stored). */
    method AddReviews(embeddings: seq<Vector>, rows: seq<Row>) returns (err: Option<Error>)
      requires Valid()
      requires forall i :: 0 <= i < |rows| ==> Storable(rows[i])
      modifies this
      ensures Valid()
      ensures old(collection).None? ==> err == Some(ValueError(NOT_CREATED_ON_ADD))
      ensures collection == old(collection)
      ensures err.None? ==> old(collection).Some? && Metadatas(rows).Ok? && |embeddings| == |rows|
      ensures old(collection).Some? && Metadatas(rows).Ok? ==> (err.None? <==> |embeddings| == |rows|)
      ensures err.None? ==>
        var name := collection.value;
        var documents := Documents(rows);
        && issued == old(issued) + |rows|
        && collections == old(collections)[name := old(collections)[name] +
             NewEntries(old(issued), embeddings, documents, Metadatas(rows).value)]
      ensures err.Some? ==> collections == old(collections) && issued == old(issued)
      ensures old(collection).Some? && Metadatas(rows).Err? ==> err == Some(Metadatas(rows).error)
    {
      if collection.None? {
        return Some(ValueError(NOT_CREATED_ON_ADD));
      }
      var documents := Documents(rows);
      var metadatas := BuildMetadatas(rows);
      if metadatas.Err? {
        return Some(metadatas.error);
      }
      if |embeddings| != |rows| {
        return Some(ValueError("the number of embeddings does not match the number of ids"));
      }
      var name := collection.value;
      var added := NewEntries(issued, embeddings, documents, metadatas.value);
      NewEntriesFresh(collections[name], issued, embeddings, documents, metadatas.value);
      ghost var updated := OrderedAfterAppend(collections, name, added, issued, |rows|);
      collections := collections[name := collections[name] + added];
      issued := issued + |rows|;
      err := None;
    }

    /** `search`: fails when no collection exists; otherwise asks the collection for the
        `top_k` nearest entries to the query vector under the `where` clause built from
        `filters`. The clause is filled in place, as the program does. */
    method Search(queryEmbedding: Vector, topK: int, filters: Option<map<string, Value>>) returns (r: Result<QueryResult>)
      requires Valid()
      ensures collection.None? ==> r == Err(ValueError(NOT_CREATED_ON_SEARCH))
      ensures collection.Some? ==>
        r == Ok(nearest(Request(collections[collection.value], queryEmbedding, topK, WhereFor(filters))))
    {
      if collection.None? {
        return Err(ValueError(NOT_CREATED_ON_SEARCH));
      }
      var whereClause: Option<Where> := None;
      if filters.Some? && filters.value != map[] {
        var clause: Where := map[];
        if RATING in filters.value {
          clause := clause[RATING := AtLeast(filters.value[RATING])];
        }
        if SENTIMENT in filters.value {
          clause := clause[SENTIMENT := Equals(filters.value[SENTIMENT])];
        }
        whereClause := Some(clause);
      }
      var where := if whereClause.Some? && whereClause.value != map[] then whereClause else None;
      assert where == WhereFor(filters) by {
        WhereForAgrees(filters, where);
      }
      var results := nearest(Request(collections[collection.value], queryEmbedding, topK, where));
      return Ok(results);
    }

    /** `get_collection_stats`: the number of entries in the store's collection, 0 when there
        is none. */
    function CollectionCount(): (count: nat)
      requires Valid()
      reads this
      ensures collection.None? ==> count == 0
      ensures collection.Some? ==> count == |collections[collection.value]|
    {
      if collection.None? then 0 else |collections[collection.value]|
    }
  }

  /** The clause `search` fills in place is the declarative `WhereFor`. */
  lemma WhereForAgrees(filters: Option<map<string, Value>>, where: Option<Where>)
    requires filters.None? || filters.value == map[] ==> where.None?
    requires filters.Some? && filters.value != map[] ==>
      var f := filters.value;
      var c0: Where := map[];
      var c1 := if RATING in f then c0[RATING := AtLeast(f[RATING])] else c0;
      var c2 := if SENTIMENT in f then c1[SENTIMENT := Equals(f[SENTIMENT])] else c1;
      where == if c2 != map[] then Some(c2) else None
    ensures where == WhereFor(filters)
  {
    if filters.Some? && filters.value != map[] {
      var f := filters.value;
      var w := WhereFor(filters);
      if w.Some? {
        var c0: Where := map[];
        var c1 := if RATING in f then c0[RATING := AtLeast(f[RATING])] else c0;
        var c2 := if SENTIMENT in f then c1[SENTIMENT := Equals(f[SENTIMENT])] else c1;
        assert c2 == w.value;
      }
    }
  }
}
