/**
 * The HTTP front of the vector store: a FastAPI app over one persistent collection client.
 * The store is a map from collection name to its metadata and its records; each handler
 * turns any exception into HTTP 500 with the exception text as the detail.
 *
 * The embedding model, similarity search and the store's own validation are not modelled:
 * they are the parameter `chroma`, which says whether a name or an insert is refused (and
 * with what text) and what a query returns.
 */
module StoreApi {
  import opened Wrappers
  import opened PyText
  import opened Json

  const DefaultCollection: string := "default"
  const DescriptionPrefix: string := "Collection for document embeddings: "
  const InternalServerError: int := 500

  datatype Record = Record(id: string, document: string, metadata: Dict)

  datatype Collection = Collection(metadata: Dict, records: seq<Record>)

  type Collections = map<string, Collection>

  /** `BatchInsertRequest`: `metadatas` and `ids` may be omitted. */
  datatype BatchInsertRequest = BatchInsertRequest(
    documents: seq<string>,
    metadatas: Option<seq<Dict>>,
    ids: Option<seq<string>>,
    collectionName: string)

  /** `QueryRequest`: everything but the collection name is handed on to the store's query. */
  datatype QueryRequest = QueryRequest(
    queryTexts: seq<string>,
    nResults: int,
    where: Option<Dict>,
    whereDocument: Option<Dict>,
    included: seq<string>,
    collectionName: string)

  /** A handler's answer: a JSON body, or an `HTTPException`. */
  datatype Response = Ok(body: Json) | HttpError(status: int, detail: string)

  /**
   * What the collection client decides on its own: whether it refuses a collection name, an
   * `add` (documents, metadatas, ids), what `delete_collection` of a missing name says, and
   * the result of a similarity query.
   */
  datatype Chroma = Chroma(
    nameError: string -> Option<string>,
    addError: (seq<string>, seq<Dict>, seq<string>) -> Option<string>,
    missingError: string -> string,
    search: (Collection, QueryRequest) -> Result<Json, string>)

  /** The client refuses an `add` whose three lists differ in length. */
  ghost predicate RefusesRaggedAdds(chroma: Chroma) {
    forall documents: seq<string>, metadatas: seq<Dict>, ids: seq<string> ::
      (|metadatas| != |documents| || |ids| != |documents|) ==> chroma.addError(documents, metadatas, ids).Some?
  }

  /** `{"description": f"Collection for document embeddings: {name}"}`. */
  function Described(name: string): Dict {
    map["description" := JStr(DescriptionPrefix + name)]
  }

  /** An empty collection with the description metadata. */
  function Fresh(name: string): Collection {
    Collection(Described(name), [])
  }

  /** `get_or_create_collection(name)`: an existing collection is kept as it is. */
  function GetOrCreate(cols: Collections, name: string, chroma: Chroma): (r: Result<Collections, string>)
    ensures r.Success? ==> name in r.value && r.value.Keys == cols.Keys + {name}
    ensures r.Success? ==> r.value[name] == (if name in cols then cols[name] else Fresh(name))
    ensures r.Success? ==> forall other :: other in cols ==> r.value[other] == cols[other]
  {
    if chroma.nameError(name).Some? then Failure(chroma.nameError(name).value)
    else if name in cols then Success(cols)
    else Success(cols[name := Fresh(name)])
  }

  /** `[str(i) for i in range(count, count + n)]`. */
  function DefaultIds(count: nat, n: nat): seq<string> {
    seq(n, i requires 0 <= i < n => NatToString(count + i))
  }

  /** `[{"timestamp": timestamp, "index": i} for i in range(n)]`. */
  function DefaultMetadatas(n: nat, timestamp: int): seq<Dict> {
    seq(n, i requires 0 <= i < n => map["timestamp" := JInt(timestamp), "index" := JInt(i)])
  }

  /** The records an `add` appends: the three lists, zipped. */
  function Zipped(documents: seq<string>, metadatas: seq<Dict>, ids: seq<string>): (rs: seq<Record>)
    requires |metadatas| == |documents| && |ids| == |documents|
    ensures |rs| == |documents|
  {
    seq(|documents|, i requires 0 <= i < |documents| => Record(ids[i], documents[i], metadatas[i]))
  }

  /** The ids and metadatas `batch_insert` passes on: the given ones, or the defaults. */
  function IdsUsed(request: BatchInsertRequest, count: nat): seq<string> {
    request.ids.GetOr(DefaultIds(count, |request.documents|))
  }

  function MetadatasUsed(request: BatchInsertRequest, timestamp: int): seq<Dict> {
    request.metadatas.GetOr(DefaultMetadatas(|request.documents|, timestamp))
  }

  /** `{"message": f"Successfully inserted {n} documents", "ids": ids}`. */
  function InsertedBody(n: nat, ids: seq<string>): Json {
    JObject(map[
      "message" := JStr("Successfully inserted " + NatToString(n) + " documents"),
      "ids" := JList(seq(|ids|, i requires 0 <= i < |ids| => JStr(ids[i])))])
  }

  /** `batch_insert` at the time `timestamp` (`int(time.time())`): the new store and the answer. */
  function BatchInsert(cols: Collections, request: BatchInsertRequest, timestamp: int, chroma: Chroma): (r: (Collections, Response))
    requires RefusesRaggedAdds(chroma)
    ensures r.1.HttpError? ==> r.1.status == InternalServerError
  {
    match GetOrCreate(cols, request.collectionName, chroma)
    case Failure(e) => (cols, HttpError(InternalServerError, e))
    case Success(cols1) =>
      var name := request.collectionName;
      var ids := IdsUsed(request, |cols1[name].records|);
      var metadatas := MetadatasUsed(request, timestamp);
      match chroma.addError(request.documents, metadatas, ids)
      case Some(e) => (cols1, HttpError(InternalServerError, e))
      case None =>
        var c := cols1[name];
        (cols1[name := c.(records := c.records + Zipped(request.documents, metadatas, ids))],
         Ok(InsertedBody(|request.documents|, ids)))
  }

  /** `query`: the collection is created if missing, then searched. */
  function Query(cols: Collections, request: QueryRequest, chroma: Chroma): (r: (Collections, Response))
    ensures r.1.HttpError? ==> r.1.status == InternalServerError
  {
    match GetOrCreate(cols, request.collectionName, chroma)
    case Failure(e) => (cols, HttpError(InternalServerError, e))
    case Success(cols1) =>
      match chroma.search(cols1[request.collectionName], request)
      case Failure(e) => (cols1, HttpError(InternalServerError, e))
      case Success(results) => (cols1, Ok(results))
  }

  /** `get_collection_info`: the count, the name and the metadata, creating the collection if missing. */
  function CollectionInfo(cols: Collections, name: string, chroma: Chroma): (r: (Collections, Response))
    ensures r.1.HttpError? ==> r.1.status == InternalServerError
  {
    match GetOrCreate(cols, name, chroma)
    case Failure(e) => (cols, HttpError(InternalServerError, e))
    case Success(cols1) =>
      (cols1, Ok(JObject(map[
        "count" := JInt(|cols1[name].records|),
        "name" := JStr(name),
        "metadata" := JObject(cols1[name].metadata)])))
  }

  /** `delete_collection` on the client: a missing name raises. */
  function Delete(cols: Collections, name: string, chroma: Chroma): (r: Result<Collections, string>)
    ensures r.Success? <==> name in cols
    ensures r.Success? ==> r.value == cols - {name}
  {
    if name in cols then Success(cols - {name}) else Failure(chroma.missingError(name))
  }

  /** `reset_collection`: delete, then create again. */
  function ResetCollection(cols: Collections, name: string, chroma: Chroma): (r: (Collections, Response))
    ensures r.1.HttpError? ==> r.1.status == InternalServerError
  {
    match Delete(cols, name, chroma)
    case Failure(e) => (cols, HttpError(InternalServerError, e))
    case Success(cols1) =>
      match GetOrCreate(cols1, name, chroma)
      case Failure(e) => (cols1, HttpError(InternalServerError, e))
      case Success(cols2) => (cols2, Ok(JObject(map["message" := JStr("Collection " + name + " has been reset")])))
  }

  /** The `delete_collection` handler. */
  function DeleteCollection(cols: Collections, name: string, chroma: Chroma): (r: (Collections, Response))
    ensures r.1.HttpError? ==> r.1.status == InternalServerError
  {
    match Delete(cols, name, chroma)
    case Failure(e) => (cols, HttpError(InternalServerError, e))
    case Success(cols1) => (cols1, Ok(JObject(map["message" := JStr("Collection " + name + " has been deleted")])))
  }

  // ---------------------------------------------------------------- the server

  /** The app's one client over the persistent store. */
  class StoreServer {
    var collections: Collections

    /** Start-up opens the stored collections and makes sure `default` exists. */
    constructor(stored: Collections)
      ensures collections == (if DefaultCollection in stored then stored else stored[DefaultCollection := Fresh(DefaultCollection)])
    {
      collections := if DefaultCollection in stored then stored else stored[DefaultCollection := Fresh(DefaultCollection)];
    }

    method HandleBatchInsert(request: BatchInsertRequest, timestamp: int, chroma: Chroma) returns (response: Response)
      requires RefusesRaggedAdds(chroma)
      modifies this
      ensures (collections, response) == BatchInsert(old(collections), request, timestamp, chroma)
    {
      var r := BatchInsert(collections, request, timestamp, chroma);
      collections, response := r.0, r.1;
    }

    method HandleQuery(request: QueryRequest, chroma: Chroma) returns (response: Response)
      modifies this
      ensures (collections, response) == Query(old(collections), request, chroma)
    {
      var r := Query(collections, request, chroma);
      collections, response := r.0, r.1;
    }

    method HandleCollectionInfo(name: string, chroma: Chroma) returns (response: Response)
      modifies this
      ensures (collections, response) == CollectionInfo(old(collections), name, chroma)
    {
      var r := CollectionInfo(collections, name, chroma);
      collections, response := r.0, r.1;
    }

    method HandleResetCollection(name: string, chroma: Chroma) returns (response: Response)
      modifies this
      ensures (collections, response) == ResetCollection(old(collections), name, chroma)
    {
      var r := ResetCollection(collections, name, chroma);
      collections, response := r.0, r.1;
    }

    method HandleDeleteCollection(name: string, chroma: Chroma) returns (response: Response)
      modifies this
      ensures (collections, response) == DeleteCollection(old(collections), name, chroma)
    {
      var r := DeleteCollection(collections, name, chroma);
      collections, response := r.0, r.1;
    }
  }

  // ---------------------------------------------------------------- properties

  /**
   * Default ids are one per document, `str(count + i)` for the `i`-th, all different, and
   * different from every default id handed out before (`str(0)` … `str(count - 1)`).
   */
  lemma DefaultIdsFresh(count: nat, n: nat)
    ensures |DefaultIds(count, n)| == n
    ensures forall i :: 0 <= i < n ==> DefaultIds(count, n)[i] == NatToString(count + i)
    ensures forall i, j :: 0 <= i < j < n ==> DefaultIds(count, n)[i] != DefaultIds(count, n)[j]
    ensures forall i, j :: 0 <= i < n && 0 <= j < count ==> DefaultIds(count, n)[i] != NatToString(j)
  {
    var ids := DefaultIds(count, n);
    forall i, j | 0 <= i < j < n
      ensures ids[i] != ids[j]
    {
      if ids[i] == ids[j] {
        NatToStringInjective(count + i, count + j);
      }
    }
    forall i, j | 0 <= i < n && 0 <= j < count
      ensures ids[i] != NatToString(j)
    {
      if ids[i] == NatToString(j) {
        NatToStringInjective(count + i, j);
      }
    }
  }

  /** Default metadata is one map per document: the shared timestamp and the document's position. */
  lemma DefaultMetadatasShape(n: nat, timestamp: int)
    ensures |DefaultMetadatas(n, timestamp)| == n
    ensures forall i :: 0 <= i < n ==>
      var m := DefaultMetadatas(n, timestamp)[i];
      m.Keys == {"timestamp", "index"} && m["timestamp"] == JInt(timestamp) && m["index"] == JInt(i)
  {
  }

  /**
   * A successful insert appends one record per document to the named collection (created if
   * missing), with the supplied ids and metadatas unchanged or else the defaults, leaves every
   * other collection alone, and answers with the document count and the ids used.
   */
  lemma BatchInsertAppends(cols: Collections, request: BatchInsertRequest, timestamp: int, chroma: Chroma)
    requires RefusesRaggedAdds(chroma)
    requires BatchInsert(cols, request, timestamp, chroma).1.Ok?
    ensures var (cols', response) := BatchInsert(cols, request, timestamp, chroma);
      var name := request.collectionName;
      var before := if name in cols then cols[name] else Fresh(name);
      var ids := IdsUsed(request, |before.records|);
      var metadatas := MetadatasUsed(request, timestamp);
      && cols'.Keys == cols.Keys + {name}
      && (forall other :: other in cols && other != name ==> cols'[other] == cols[other])
      && cols'[name].metadata == before.metadata
      && |ids| == |request.documents| && |metadatas| == |request.documents|
      && cols'[name].records == before.records + Zipped(request.documents, metadatas, ids)
      && (request.ids.Some? ==> ids == request.ids.value)
      && (request.metadatas.Some? ==> metadatas == request.metadatas.value)
      && response == Ok(InsertedBody(|request.documents|, ids))
  {
    var name := request.collectionName;
    var cols1 := GetOrCreate(cols, name, chroma).value;
    var ids := IdsUsed(request, |cols1[name].records|);
    var metadatas := MetadatasUsed(request, timestamp);
    assert chroma.addError(request.documents, metadatas, ids).None?;
  }

  /** A refused insert still leaves the named collection created, and changes nothing else. */
  lemma BatchInsertRefused(cols: Collections, request: BatchInsertRequest, timestamp: int, chroma: Chroma)
    requires RefusesRaggedAdds(chroma)
    requires chroma.nameError(request.collectionName).None?
    requires BatchInsert(cols, request, timestamp, chroma).1.HttpError?
    ensures BatchInsert(cols, request, timestamp, chroma).0 == GetOrCreate(cols, request.collectionName, chroma).value
  {
  }

  /** Query and info create a missing collection, empty and described, and change nothing else. */
  lemma ReadsCreateMissing(cols: Collections, request: QueryRequest, name: string, chroma: Chroma)
    requires chroma.nameError(request.collectionName).None? && chroma.nameError(name).None?
    ensures var cols' := Query(cols, request, chroma).0;
      && cols'.Keys == cols.Keys + {request.collectionName}
      && cols'[request.collectionName] == (if request.collectionName in cols then cols[request.collectionName] else Fresh(request.collectionName))
      && forall other :: other in cols ==> cols'[other] == cols[other]
    ensures var (cols', response) := CollectionInfo(cols, name, chroma);
      && cols'.Keys == cols.Keys + {name}
      && (forall other :: other in cols ==> cols'[other] == cols[other])
      && response.Ok? && response.body.fields["count"] == JInt(if name in cols then |cols[name].records| else 0)
  {
  }

  /**
   * Resetting an existing collection leaves it empty with its description and keeps every
   * other collection; resetting a missing one is a 500 that changes nothing.
   */
  lemma ResetEmpties(cols: Collections, name: string, chroma: Chroma)
    requires chroma.nameError(name).None?
    ensures var (cols', response) := ResetCollection(cols, name, chroma);
      && (name in cols ==>
            && cols'.Keys == cols.Keys
            && cols'[name] == Fresh(name) && cols'[name].records == []
            && (forall other :: other in cols && other != name ==> cols'[other] == cols[other])
            && response.Ok?)
      && (name !in cols ==> cols' == cols && response == HttpError(500, chroma.missingError(name)))
  {
  }

  /** Deleting removes exactly the named collection; a missing name is a 500 that changes nothing. */
  lemma DeleteRemoves(cols: Collections, name: string, chroma: Chroma)
    ensures var (cols', response) := DeleteCollection(cols, name, chroma);
      && (name in cols ==>
            cols'.Keys == cols.Keys - {name} && (forall other :: other in cols' ==> cols'[other] == cols[other]) && response.Ok?)
      && (name !in cols ==> cols' == cols && response == HttpError(500, chroma.missingError(name)))
  {
  }
}
