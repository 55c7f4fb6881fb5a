/** The generic data-access object (mongo/crud_dao.go). Each operation hands
    one request to the driver and translates the driver's outcome into the
    object's own result with a fixed decision table; reads of many documents
    run the fetched records through the ordered decode.

    Driver calls are given by their outcomes (`Result` values), a cursor by
    the records it yields and the errors its `Err` and `Close` report, and
    decoding by a function from a raw record to a document or an error. */
module Crud {
  import opened Wrappers
  import opened MongoHelpers
  import MongoClient

  /** `*mongo.Collection`: a database and a collection name. */
  datatype Collection = Collection(database: MongoClient.Database, name: string)

  /** `*mongo.UpdateResult`, as far as it is read. */
  datatype UpdateCounts = UpdateCounts(matchedCount: nat, modifiedCount: nat, upsertedCount: nat)

  /** `*mongo.Cursor`: the records `Next` yields, the error `Err` reports once
      iteration stops, and the error `Close` returns. */
  datatype Cursor<R> = Cursor(records: seq<R>, iterErr: Option<Error>, closeErr: Option<Error>)

  /** `crudDAO`: one collection bound to one document type. */
  class CrudDao {
    /** The zero document, read only for its names and index declarations. */
    const modelRef: Document
    const collection: Collection
    /** Whether construction launched the background index creation. */
    const indexCreationLaunched: bool

    /** The collection is the one the document type names. */
    ghost predicate Valid()
      reads this
    {
      collection.name == modelRef.collectionName
    }

    /** `NewCrudDAO`: binds the collection named by the document type and
        launches index creation when the type declares indexes. */
    constructor (db: MongoClient.Database, modelRef: Document)
      ensures this.modelRef == modelRef
      ensures collection == Collection(db, modelRef.collectionName)
      ensures indexCreationLaunched <==> |modelRef.indexes| > 0
      ensures Valid()
    {
      this.modelRef := modelRef;
      collection := Collection(db, modelRef.collectionName);
      indexCreationLaunched := |modelRef.indexes| > 0;
    }

    /** The collection bound at construction, for operations the object
        does not cover. */
    function GetCollection(): (c: Collection)
      reads this
      requires Valid()
      ensures c == collection && c.name == modelRef.collectionName
    {
      collection
    }
  }

  // ------------------------------------------------------ single operations

  /** `Create`, from the outcome of `InsertOne`: a duplicate key is a normal
      `(false, nil)`; any other error is returned with `false`; success is
      `(true, nil)`. */
  function Create(insert: Option<Error>): (r: Return<bool>)
    ensures r.value <==> insert.None?
    ensures r.err.Some? <==> insert.Some? && !insert.value.DuplicateKey?
    ensures r.err.Some? ==> r.err == insert
  {
    match insert
    case None => Return(true, None)
    case Some(e) => if e.DuplicateKey? then Return(false, None) else Return(false, Some(e))
  }

  /** `Update`, from the outcome of `UpdateOne`: a duplicate key is reported
      by `UniqueError` without error; any other error comes back with the
      zero result; `NotFound` is set exactly when upsert is off and nothing
      matched; otherwise `Inserted` tells whether the upsert inserted one
      document. At most one flag is ever set, and an error never comes with
      a flag. */
  function Update(update: Result<UpdateCounts, Error>, withUpsert: bool): (r: Return<UpdateResult>)
    ensures r.value.AtMostOneFlag()
    ensures r.err.Some? <==> update.Failure? && !update.error.DuplicateKey?
    ensures r.err.Some? ==> r.err == Some(update.error) && r.value == NoFlags
    ensures r.value.uniqueError <==> update.Failure? && update.error.DuplicateKey?
    ensures r.value.notFound <==> update.Success? && !withUpsert && update.value.matchedCount == 0
    ensures r.value.inserted <==>
      update.Success? && (withUpsert || update.value.matchedCount != 0) && update.value.upsertedCount == 1
  {
    match update
    case Failure(e) =>
      if e.DuplicateKey? then Return(UpdateResult(false, true, false), None)
      else Return(NoFlags, Some(e))
    case Success(ur) =>
      if !withUpsert && ur.matchedCount == 0 then Return(UpdateResult(true, false, false), None)
      else Return(UpdateResult(false, false, ur.upsertedCount == 1), None)
  }

  /** With upsert on, a filter that matches nothing is never reported as
      not found; with upsert off it always is. */
  lemma UpsertDecidesNotFound(update: UpdateCounts, withUpsert: bool)
    requires update.matchedCount == 0
    ensures Update(Success(update), withUpsert).value.notFound <==> !withUpsert
    ensures withUpsert ==> Update(Success(update), withUpsert).value.inserted == (update.upsertedCount == 1)
  {
  }

  /** `Exists`, from the outcome of `CountDocuments`: whether the count is
      positive; "no documents" is `(false, nil)`; any other error is
      returned with `false`. */
  function Exists(count: Result<nat, Error>): (r: Return<bool>)
    ensures r.value <==> count.Success? && count.value > 0
    ensures r.err.Some? <==> count.Failure? && !count.error.NoDocuments?
    ensures r.err.Some? ==> r.err == Some(count.error)
  {
    match count
    case Failure(e) => if e.NoDocuments? then Return(false, None) else Return(false, Some(e))
    case Success(n) => Return(n > 0, None)
  }

  /** `Count`: the driver's count, or the sentinel -1 on any error. */
  function Count(count: Result<nat, Error>): (r: int)
    ensures r == -1 <==> count.Failure?
    ensures r >= 0 ==> count == Success(r)
    ensures count.Success? ==> r == count.value
  {
    match count
    case Failure(_) => -1
    case Success(n) => n
  }

  /** `FindOne`, from the outcome of the query and the decoding of its
      document: "no documents" is `(nil, nil)`; a query or decode error is
      returned with nil; otherwise the decoded document. */
  function FindOne<R, T>(query: Result<R, Error>, decode: R -> Result<T, Error>): (r: Return<Option<T>>)
    ensures r.value.Some? <==> r.err.None? && query.Success?
    ensures r.value.Some? ==> decode(query.value) == Success(r.value.value)
    ensures r.value.None? && r.err.None? <==> query == Failure(NoDocuments)
    ensures query.Failure? && !query.error.NoDocuments? ==> r.err == Some(query.error)
    ensures query.Success? && decode(query.value).Failure? ==> r.err == Some(decode(query.value).error)
    ensures query.Success? && decode(query.value).Success? ==> r == Return(Some(decode(query.value).value), None)
  {
    match query
    case Failure(e) => if e.NoDocuments? then Return(None, None) else Return(None, Some(e))
    case Success(raw) =>
      match decode(raw)
      case Failure(e) => Return(None, Some(e))
      case Success(t) => Return(Some(t), None)
  }

  /** `Delete`, from the outcome of `DeleteOne`: `true` only when a document
      was removed; "no documents" and a zero count are `(false, nil)`; any
      other error is returned with `false`. */
  function Delete(delete: Result<nat, Error>): (r: Return<bool>)
    ensures r.value <==> delete.Success? && delete.value > 0
    ensures r.err.Some? <==> delete.Failure? && !delete.error.NoDocuments?
    ensures r.err.Some? ==> r.err == Some(delete.error)
  {
    match delete
    case Failure(e) => if e.NoDocuments? then Return(false, None) else Return(false, Some(e))
    case Success(n) => if n == 0 then Return(false, None) else Return(true, None)
  }

  /** `DeleteMany`: the number removed, or 0 with the error. */
  function DeleteMany(delete: Result<nat, Error>): (r: Return<nat>)
    ensures r.err.Some? <==> delete.Failure?
    ensures r.err.Some? ==> r.err == Some(delete.error) && r.value == 0
    ensures delete.Success? ==> r.value == delete.value
  {
    match delete
    case Failure(e) => Return(0, Some(e))
    case Success(n) => Return(n, None)
  }

  // ------------------------------------------------------------ decoding

  /** Decoding the records one at a time, in order: all the documents when
      every record decodes, otherwise the error of the first record that
      does not. */
  function DecodeAll<R, T>(records: seq<R>, decode: R -> Result<T, Error>): (r: Result<seq<T>, Error>)
    ensures r.Success? ==> |r.value| == |records|
  {
    if |records| == 0 then Success([])
    else
      match DecodeAll(records[..|records| - 1], decode)
      case Failure(e) => Failure(e)
      case Success(docs) =>
        match decode(records[|records| - 1])
        case Failure(e) => Failure(e)
        case Success(doc) => Success(docs + [doc])
  }

  /** Ordering: when the decode succeeds, the j-th document is the decoding
      of the j-th record. */
  lemma {:induction false} DecodeAllOrdered<R, T>(records: seq<R>, decode: R -> Result<T, Error>, j: nat)
    requires DecodeAll(records, decode).Success? && j < |records|
    ensures decode(records[j]) == Success(DecodeAll(records, decode).value[j])
  {
    if j < |records| - 1 {
      DecodeAllOrdered(records[..|records| - 1], decode, j);
      assert records[..|records| - 1][j] == records[j];
    }
  }

  /** All or nothing: the decode succeeds exactly when every record
      decodes. */
  lemma {:induction false} DecodeAllSucceedsIffEach<R, T>(records: seq<R>, decode: R -> Result<T, Error>)
    ensures DecodeAll(records, decode).Success? <==>
      forall j :: 0 <= j < |records| ==> decode(records[j]).Success?
  {
    if |records| > 0 {
      var init := records[..|records| - 1];
      DecodeAllSucceedsIffEach(init, decode);
      assert forall j :: 0 <= j < |init| ==> init[j] == records[j];
    }
  }

  /** A failure at record k, with every earlier record decoding, makes the
      whole decode fail with record k's error. */
  lemma {:induction false} DecodeAllFirstFailure<R, T>(records: seq<R>, decode: R -> Result<T, Error>, k: nat)
    requires k < |records| && decode(records[k]).Failure?
    requires forall j :: 0 <= j < k ==> decode(records[j]).Success?
    ensures DecodeAll(records, decode) == Failure(decode(records[k]).error)
  {
    var init := records[..|records| - 1];
    if k == |records| - 1 {
      assert forall j :: 0 <= j < |init| ==> init[j] == records[j];
      DecodeAllSucceedsIffEach(init, decode);
    } else {
      assert init[k] == records[k];
      DecodeAllFirstFailure(init, decode, k);
    }
  }

  /** A failed prefix decides the whole decode. */
  lemma {:induction false} DecodeAllPrefixFailure<R, T>(records: seq<R>, decode: R -> Result<T, Error>, n: nat)
    requires n <= |records| && DecodeAll(records[..n], decode).Failure?
    ensures DecodeAll(records, decode) == DecodeAll(records[..n], decode)
    decreases |records| - n
  {
    if n < |records| {
      var next := records[..n + 1];
      assert next[..n] == records[..n];
      DecodeAllPrefixFailure(records, decode, n + 1);
    } else {
      assert records[..n] == records;
    }
  }

  /** `concurrentDecode`, in its sequential form: a counter starting at -1
      numbers the records as the cursor yields them, each decoded record is
      stored in a map under its number, fetching stops at the first decode
      error, and on success the slice is rebuilt from slots 0 to len-1.
      The result is the in-order decode of the records: the documents when
      all decode, otherwise nil and the first error. */
  method ConcurrentDecode<R, T(0)>(records: seq<R>, decode: R -> Result<T, Error>)
    returns (res: Option<seq<T>>, err: Option<Error>)
    ensures res.Some? <==> err.None?
    ensures DecodeAll(records, decode) ==
      if err.Some? then Failure(err.value) else Success(res.value)
  {
    var i: int := -1;
    var indexedRes: map<int, T> := map[];
    var decodeErr: Option<Error> := None;
    var pos := 0;
    while pos < |records|
      invariant 0 <= pos <= |records|
      invariant decodeErr.None? ==> i == pos - 1
      invariant decodeErr.None? ==> forall k :: k in indexedRes <==> 0 <= k < pos
      invariant decodeErr.None? ==> |indexedRes| == pos
      invariant decodeErr.None? ==> DecodeAll(records[..pos], decode).Success?
      invariant decodeErr.None? ==> forall k :: 0 <= k < pos ==>
        indexedRes[k] == DecodeAll(records[..pos], decode).value[k]
      invariant decodeErr.Some? ==>
        0 <= i < pos && DecodeAll(records[..i + 1], decode) == Failure(decodeErr.value)
    {
      // `cur.Next` has advanced to the record at `pos`.
      var record := records[pos];
      pos := pos + 1;
      if decodeErr.Some? {
        break;
      }
      i := i + 1;
      assert records[..pos][..i] == records[..i];
      var decoded := decode(record);
      if decoded.Failure? {
        decodeErr := Some(decoded.error);
      } else {
        indexedRes := indexedRes[i := decoded.value];
      }
    }

    if decodeErr.Some? {
      DecodeAllPrefixFailure(records, decode, i + 1);
      return None, decodeErr;
    }

    assert records[..pos] == records;
    var resLen := |indexedRes|;
    var slice := new T[resLen];
    for j := 0 to resLen
      invariant forall k :: 0 <= k < j ==> slice[k] == indexedRes[k]
    {
      slice[j] := indexedRes[j];
    }
    assert slice[..] == DecodeAll(records, decode).value;
    return Some(slice[..]), None;
  }

  // ---------------------------------------------------------- many results

  /** What a multi-document read returns: the query error, else the decode
      error, else the cursor's error, else the error of closing it, else the
      decoded documents. */
  function ReadMany<R, T>(query: Result<Cursor<R>, Error>, decode: R -> Result<T, Error>): Result<seq<T>, Error>
  {
    match query
    case Failure(e) => Failure(e)
    case Success(cur) =>
      match DecodeAll(cur.records, decode)
      case Failure(e) => Failure(e)
      case Success(docs) =>
        if cur.iterErr.Some? then Failure(cur.iterErr.value)
        else if cur.closeErr.Some? then Failure(cur.closeErr.value)
        else Success(docs)
  }

  /** Documents come back only when the query, every decode, the cursor and
      its closing all succeed, and then one per record, in order. */
  lemma ReadManySucceedsIffAllSteps<R, T>(query: Result<Cursor<R>, Error>, decode: R -> Result<T, Error>)
    ensures ReadMany(query, decode).Success? <==>
      && query.Success?
      && (forall j :: 0 <= j < |query.value.records| ==> decode(query.value.records[j]).Success?)
      && query.value.iterErr.None? && query.value.closeErr.None?
    ensures ReadMany(query, decode).Success? ==>
      var docs := ReadMany(query, decode).value;
      |docs| == |query.value.records| &&
      forall j :: 0 <= j < |docs| ==> decode(query.value.records[j]) == Success(docs[j])
  {
    if query.Success? {
      DecodeAllSucceedsIffEach(query.value.records, decode);
      if ReadMany(query, decode).Success? {
        forall j | 0 <= j < |query.value.records|
          ensures decode(query.value.records[j]) == Success(DecodeAll(query.value.records, decode).value[j])
        {
          DecodeAllOrdered(query.value.records, decode, j);
        }
      }
    }
  }

  /** The shared tail of `FindMany` and `Aggregate`, once the query has
      given a cursor. The cursor is closed only when decoding and the
      cursor's own error check both succeed. */
  method DecodeCursor<R, T(0)>(cur: Cursor<R>, decode: R -> Result<T, Error>)
    returns (res: Option<seq<T>>, err: Option<Error>, closed: bool)
    ensures res.Some? <==> err.None?
    ensures ReadMany(Success(cur), decode) ==
      if err.Some? then Failure(err.value) else Success(res.value)
    ensures closed <==> DecodeAll(cur.records, decode).Success? && cur.iterErr.None?
  {
    closed := false;
    var docs, decodeErr := ConcurrentDecode(cur.records, decode);
    if decodeErr.Some? {
      return None, decodeErr, closed;
    }
    if cur.iterErr.Some? {
      return None, cur.iterErr, closed;
    }
    closed := true;
    if cur.closeErr.Some? {
      return None, cur.closeErr, closed;
    }
    return docs, None, closed;
  }

  /** `FindMany`: nil and the error unless the query, the decode, the
      cursor and its closing all succeed; then the documents in cursor
      order. `closed` tells whether `Close` was called. */
  method FindMany<R, T(0)>(query: Result<Cursor<R>, Error>, decode: R -> Result<T, Error>)
    returns (res: Option<seq<T>>, err: Option<Error>, closed: bool)
    ensures res.Some? <==> err.None?
    ensures ReadMany(query, decode) == if err.Some? then Failure(err.value) else Success(res.value)
    ensures closed <==>
      query.Success? && DecodeAll(query.value.records, decode).Success? && query.value.iterErr.None?
  {
    if query.Failure? {
      return None, Some(query.error), false;
    }
    res, err, closed := DecodeCursor(query.value, decode);
  }

  /** `Aggregate`: the same translation as `FindMany`, for the cursor of an
      aggregation pipeline. */
  method Aggregate<R, T(0)>(pipelineRun: Result<Cursor<R>, Error>, decode: R -> Result<T, Error>)
    returns (res: Option<seq<T>>, err: Option<Error>, closed: bool)
    ensures res.Some? <==> err.None?
    ensures ReadMany(pipelineRun, decode) == if err.Some? then Failure(err.value) else Success(res.value)
    ensures closed <==>
      pipelineRun.Success? && DecodeAll(pipelineRun.value.records, decode).Success?
      && pipelineRun.value.iterErr.None?
  {
    if pipelineRun.Failure? {
      return None, Some(pipelineRun.error), false;
    }
    var cur := pipelineRun.value;
    res, err, closed := DecodeCursor(cur, decode);
  }
}
