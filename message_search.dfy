/**
 * The MCP service that answers the `search_messages` and `search_chat` tools: it sends a query
 * to the vector store's HTTP API, turns the store's answer into `QueryResult` records and renders
 * them as one text block. Every failure on the way becomes the text
 * `Error searching messages: <reason>` instead of an exception.
 *
 * The HTTP round trip is the parameter `post` (the URL and the JSON body in, the decoded JSON
 * answer or the text of the request exception out), and the two renderings Python does itself
 * and this model does not (`str()` of a float, list or dict, and `:.4f`) are parameters too.
 */
module MessageSearch {
  import opened Wrappers
  import opened PyText
  import opened Json
  import QueryPayload
  import Chunking
  import Ingestion

  const DefaultCollection: string := "imessages"
  const DefaultResults: int := 10
  const ErrorPrefix: string := "Error searching messages: "
  const StoreErrorPrefix: string := "Vector DB error: "
  const MissingQuery: string := "query parameter is required"
  const MissingChatArguments: string := "Both query and chat_id parameters are required"
  const UnknownTool: string := "Unknown tool: "

  /** The HTTP round trip: URL and body in; the decoded answer, or `str()` of the request exception. */
  type Post = (string, Dict) -> Result<Json, string>

  /** `str(v)` for a float, list or dict, and `f"{x:.4f}"`. */
  datatype Render = Render(repr: Json -> string, fourPlaces: real -> string)

  predicate IsSlash(c: char) { c == '/' }

  // ---------------------------------------------------------------- the client

  class VectorDBClient {
    const baseUrl: string

    /** The base URL with its trailing slashes removed. */
    constructor(baseUrl0: string)
      ensures baseUrl <= baseUrl0
      ensures baseUrl == [] || baseUrl[|baseUrl| - 1] != '/'
      ensures forall i :: |baseUrl| <= i < |baseUrl0| ==> baseUrl0[i] == '/'
    {
      baseUrl := RStrip(baseUrl0, IsSlash);
    }

    /** The URL and JSON body that `query_collection` posts. */
    function QueryRequest(queryText: Json, nResults: Json, collectionName: string, where: Option<Dict>): (string, Dict) {
      (baseUrl + "/query", QueryPayload.Payload(queryText, nResults, collectionName, where))
    }

    /**
     * `query_collection`: the store's decoded answer, or a request exception that comes back
     * as `RuntimeError("Vector DB error: …")` around the exception's text.
     */
    function QueryCollection(queryText: Json, nResults: Json, collectionName: string, where: Option<Dict>, post: Post): (r: Result<Json, string>)
      ensures var answer := post(QueryRequest(queryText, nResults, collectionName, where).0,
                                 QueryRequest(queryText, nResults, collectionName, where).1);
        && (r.Failure? <==> answer.Failure?)
        && (r.Success? ==> r.value == answer.value)
        && (r.Failure? ==> r.error == StoreErrorPrefix + answer.error)
    {
      var (url, payload) := QueryRequest(queryText, nResults, collectionName, where);
      match post(url, payload)
      case Success(answer) => Success(answer)
      case Failure(e) => Failure(StoreErrorPrefix + e)
    }
  }

  /** The client's URL never ends in a slash, so the query URL has exactly one before `query`. */
  lemma QueryUrlShape(client: VectorDBClient, queryText: Json, nResults: Json, collectionName: string, where: Option<Dict>)
    requires client.baseUrl == [] || client.baseUrl[|client.baseUrl| - 1] != '/'
    ensures var url := client.QueryRequest(queryText, nResults, collectionName, where).0;
      && url == client.baseUrl + "/query"
      && (|url| < 7 || url[|url| - 7] != '/')
  {
  }

  // ---------------------------------------------------------------- the store's answer

  /** `QueryResult(document=…, metadata=…, distance=…)`. */
  datatype QueryResult = QueryResult(document: string, metadata: Dict, distance: real)

  /** `type(v).__name__`. */
  function TypeName(v: Json): string {
    match v
    case JNull => "NoneType"
    case JBool(_) => "bool"
    case JInt(_) => "int"
    case JFloat(_) => "float"
    case JStr(_) => "str"
    case JList(_) => "list"
    case JObject(_) => "dict"
  }

  /** `v[0]`, with the exception Python raises for each kind of value. */
  function First(v: Json): (r: Result<Json, string>)
    ensures v.JList? && v.items != [] ==> r == Success(v.items[0])
    ensures r.Success? ==> v.JList? || v.JStr?
  {
    match v
    case JList(items) => if items == [] then Failure("list index out of range") else Success(items[0])
    case JStr(s) => if s == "" then Failure("string index out of range") else Success(JStr([s[0]]))
    case JObject(_) => Failure("0")
    case _ => Failure("'" + TypeName(v) + "' object is not subscriptable")
  }

  /** `d[key]`: a missing key is a `KeyError` whose text is the quoted key. */
  function Lookup(d: Dict, key: string): (r: Result<Json, string>)
    ensures key in d <==> r.Success?
    ensures r.Success? ==> r.value == d[key]
    ensures r.Failure? ==> r.error == "'" + key + "'"
  {
    if key in d then Success(d[key]) else Failure("'" + key + "'")
  }

  /**
   * Iterating a non-empty dict yields its keys in insertion order, which `Dict` does not keep,
   * so the model gives up there; an empty dict yields nothing.
   */
  const DictIteration: string := "iteration over a dict is not modelled"

  /** `iter(v)`: a list yields its items, a string its one-character strings, an empty dict nothing. */
  function Items(v: Json): (r: Result<seq<Json>, string>)
    ensures v.JList? ==> r == Success(v.items)
    ensures v.JStr? ==> r.Success? && |r.value| == |v.s|
    ensures v.JStr? ==> forall i :: 0 <= i < |v.s| ==> r.value[i] == JStr([v.s[i]])
    ensures v.JObject? && v.fields == map[] ==> r == Success([])
    ensures r.Failure? <==> !(v.JList? || v.JStr? || (v.JObject? && v.fields == map[]))
  {
    match v
    case JList(items) => Success(items)
    case JStr(s) => Success(seq(|s|, i requires 0 <= i < |s| => JStr([s[i]])))
    case JObject(fields) => if fields == map[] then Success([]) else Failure(DictIteration)
    case _ => Failure("'" + TypeName(v) + "' object is not iterable")
  }

  /** The field types `QueryResult` accepts: a string, a dict and a number. */
  predicate Valid(doc: Json, meta: Json, dist: Json) {
    doc.JStr? && meta.JObject? && (dist.JInt? || dist.JFloat?)
  }

  function Number(dist: Json): real
    requires dist.JInt? || dist.JFloat?
  {
    if dist.JInt? then dist.i as real else dist.f
  }

  /** Building one `QueryResult`; a failure is the first line of pydantic's `ValidationError`. */
  function Validate(doc: Json, meta: Json, dist: Json): (r: Result<QueryResult, string>)
    ensures r.Success? <==> Valid(doc, meta, dist)
    ensures r.Success? ==> r.value == QueryResult(doc.s, meta.fields, Number(dist))
  {
    var wrong := (if doc.JStr? then 0 else 1) + (if meta.JObject? then 0 else 1)
      + (if dist.JInt? || dist.JFloat? then 0 else 1);
    if wrong == 0 then Success(QueryResult(doc.s, meta.fields, Number(dist)))
    else Failure(NatToString(wrong) + (if wrong == 1 then " validation error" else " validation errors") + " for QueryResult")
  }

  function Min3(a: nat, b: nat, c: nat): (m: nat)
    ensures m <= a && m <= b && m <= c
    ensures m == a || m == b || m == c
  {
    if a <= b && a <= c then a else if b <= c then b else c
  }

  /** The three columns to zip, or `None` when the answer holds no documents. */
  datatype Columns = Columns(documents: seq<Json>, metadatas: seq<Json>, distances: seq<Json>)

  /** Everything `format_query_results` does before its loop. */
  function ZipInputs(results: Json): Result<Option<Columns>, string> {
    if !results.JObject? then Failure("'" + TypeName(results) + "' object has no attribute 'get'")
    else
      var d := results.fields;
      if !Truthy(Get(d, "documents", JNull)) then Success(None)
      else
        var documents :- First(d["documents"]);
        if !Truthy(documents) then Success(None)
        else
          var metadatasColumn :- Lookup(d, "metadatas");
          var metadatas :- First(metadatasColumn);
          var distancesColumn :- Lookup(d, "distances");
          var distances :- First(distancesColumn);
          var ds :- Items(documents);
          var ms :- Items(metadatas);
          var xs :- Items(distances);
          Success(Some(Columns(ds, ms, xs)))
  }

  /** The first `n` rows of the zip, each built into a `QueryResult`; the first bad row raises. */
  function ZipPrefix(c: Columns, n: nat): Result<seq<QueryResult>, string>
    requires n <= |c.documents| && n <= |c.metadatas| && n <= |c.distances|
  {
    if n == 0 then Success([])
    else
      var rs :- ZipPrefix(c, n - 1);
      var q :- Validate(c.documents[n - 1], c.metadatas[n - 1], c.distances[n - 1]);
      Success(rs + [q])
  }

  function Rows(c: Columns): nat {
    Min3(|c.documents|, |c.metadatas|, |c.distances|)
  }

  /** `format_query_results(results)`. */
  function Formatted(results: Json): Result<seq<QueryResult>, string> {
    var inputs :- ZipInputs(results);
    if inputs.None? then Success([]) else ZipPrefix(inputs.value, Rows(inputs.value))
  }

  /** Once a row fails, every longer prefix fails with the same error. */
  lemma {:induction false} ZipFailureSticks(c: Columns, j: nat, n: nat)
    requires j <= n <= Rows(c)
    requires ZipPrefix(c, j).Failure?
    ensures ZipPrefix(c, n) == ZipPrefix(c, j)
    decreases n
  {
    if n > j {
      ZipFailureSticks(c, j, n - 1);
    }
  }

  /** `format_query_results` as Python runs it: the zip loop appends one record per row. */
  method FormatQueryResults(results: Json) returns (r: Result<seq<QueryResult>, string>)
    ensures r == Formatted(results)
  {
    var inputs :- ZipInputs(results);
    if inputs.None? {
      return Success([]);
    }
    var c := inputs.value;
    var n := Rows(c);
    var formatted: seq<QueryResult> := [];
    for k := 0 to n
      invariant ZipPrefix(c, k) == Success(formatted)
    {
      var q := Validate(c.documents[k], c.metadatas[k], c.distances[k]);
      if q.Failure? {
        ZipFailureSticks(c, k + 1, n);
        return Failure(q.error);
      }
      formatted := formatted + [q.value];
    }
    r := Success(formatted);
  }

  /**
   * A prefix of the zip succeeds exactly when each of its rows is valid, and then it holds
   * one record per row, in order, carrying that row's document, metadata and distance.
   */
  lemma {:induction false} ZipPrefixRows(c: Columns, n: nat)
    requires n <= |c.documents| && n <= |c.metadatas| && n <= |c.distances|
    ensures ZipPrefix(c, n).Success? <==> forall k :: 0 <= k < n ==> Valid(c.documents[k], c.metadatas[k], c.distances[k])
    ensures ZipPrefix(c, n).Success? ==>
      && |ZipPrefix(c, n).value| == n
      && forall k :: 0 <= k < n ==>
           ZipPrefix(c, n).value[k] == QueryResult(c.documents[k].s, c.metadatas[k].fields, Number(c.distances[k]))
  {
    if n > 0 {
      ZipPrefixRows(c, n - 1);
    }
  }

  /**
   * For the list-of-lists answer the store gives, the records are the rows of the zip of the
   * first document, metadata and distance lists, truncated to the shortest, and formatting
   * succeeds exactly when every such row has a string, a dict and a number.
   */
  lemma FormattedZip(results: Json, ds: seq<Json>, ms: seq<Json>, xs: seq<Json>)
    requires results.JObject?
    requires "documents" in results.fields && results.fields["documents"].JList?
    requires var l := results.fields["documents"].items; l != [] && l[0] == JList(ds) && ds != []
    requires "metadatas" in results.fields && results.fields["metadatas"].JList?
    requires var l := results.fields["metadatas"].items; l != [] && l[0] == JList(ms)
    requires "distances" in results.fields && results.fields["distances"].JList?
    requires var l := results.fields["distances"].items; l != [] && l[0] == JList(xs)
    ensures var n := Min3(|ds|, |ms|, |xs|);
      && (Formatted(results).Success? <==> forall k :: 0 <= k < n ==> Valid(ds[k], ms[k], xs[k]))
      && (Formatted(results).Success? ==>
            && |Formatted(results).value| == n
            && forall k :: 0 <= k < n ==> Formatted(results).value[k] == QueryResult(ds[k].s, ms[k].fields, Number(xs[k])))
  {
    var c := Columns(ds, ms, xs);
    assert ZipInputs(results) == Success(Some(c));
    ZipPrefixRows(c, Rows(c));
  }

  /** An answer without documents, or whose first document list is empty, formats to no records. */
  lemma FormattedNoDocuments(results: Json)
    requires results.JObject?
    requires var d := results.fields;
      || !Truthy(Get(d, "documents", JNull))
      || (d["documents"].JList? && d["documents"].items != [] && !Truthy(d["documents"].items[0]))
    ensures Formatted(results) == Success([])
  {
  }

  // ---------------------------------------------------------------- the response text

  /** `str(v)`. */
  function Show(v: Json, render: Render): string {
    match v
    case JStr(s) => s
    case JNull => "None"
    case JBool(b) => if b then "True" else "False"
    case JInt(i) => if i < 0 then "-" + NatToString(-i) else NatToString(i)
    case _ => render.repr(v)
  }

  /** The block for the `i`-th record; `search_chat` leaves out the `Chat:` line. */
  function Entry(i: nat, r: QueryResult, withChat: bool, render: Render): string {
    "\n" + NatToString(i) + ". Message: " + r.document + "\n"
      + "   From: " + Show(Get(r.metadata, "sender", JStr("Unknown")), render) + "\n"
      + (if withChat then "   Chat: " + Show(Get(r.metadata, "chat_name", JStr("N/A")), render) + "\n" else "")
      + "   Date: " + Show(Get(r.metadata, "timestamp", JStr("N/A")), render) + "\n"
      + "   Relevance: " + render.fourPlaces(1.0 - r.distance) + "\n"
  }

  /** `response_parts`: the header, then one block per record, numbered from 1. */
  function Parts(header: string, rs: seq<QueryResult>, withChat: bool, render: Render): seq<string> {
    [header] + seq(|rs|, k requires 0 <= k < |rs| => Entry(k + 1, rs[k], withChat, render))
  }

  /** Taking one more record adds its block at the end. */
  lemma PartsSnoc(header: string, rs: seq<QueryResult>, withChat: bool, render: Render, k: nat)
    requires k < |rs|
    ensures Parts(header, rs[..k + 1], withChat, render) == Parts(header, rs[..k], withChat, render) + [Entry(k + 1, rs[k], withChat, render)]
  {
    var longer := Parts(header, rs[..k + 1], withChat, render);
    var shorter := Parts(header, rs[..k], withChat, render);
    assert |longer| == |shorter| + 1;
    forall j | 1 <= j <= k
      ensures longer[j] == shorter[j]
    {
      assert rs[..k + 1][j - 1] == rs[..k][j - 1];
    }
  }

  /** `"".join(response_parts)`. */
  function Response(header: string, rs: seq<QueryResult>, withChat: bool, render: Render): string {
    Join("", Parts(header, rs, withChat, render))
  }

  /** In a concatenation, each part follows the concatenation of the parts before it. */
  lemma {:induction false} ConcatOrder(parts: seq<string>, k: nat)
    requires k < |parts|
    ensures Join("", parts[..k]) + parts[k] <= Join("", parts)
  {
    if k == 0 {
      assert parts[..0] == [];
      if |parts| > 1 {
        assert Join("", parts) == parts[0] + "" + Join("", parts[1..]);
      }
    } else {
      var tail := parts[1..];
      ConcatOrder(tail, k - 1);
      assert tail[k - 1] == parts[k];
      assert Join("", parts) == parts[0] + "" + Join("", tail);
      if k == 1 {
        assert parts[..1] == [parts[0]];
        assert tail[..0] == [];
      } else {
        assert parts[..k][1..] == tail[..k - 1];
        assert Join("", parts[..k]) == parts[0] + "" + Join("", tail[..k - 1]);
      }
    }
  }

  /**
   * The response starts with its header, is only the header when there are no records, and
   * holds the block of record `k` as item `k + 1`, right after the header and the blocks of
   * the records before it.
   */
  lemma ResponseLayout(header: string, rs: seq<QueryResult>, withChat: bool, render: Render)
    ensures header <= Response(header, rs, withChat, render)
    ensures rs == [] ==> Response(header, rs, withChat, render) == header
    ensures forall k :: 0 <= k < |rs| ==>
      Join("", Parts(header, rs, withChat, render)[..k + 1]) + Entry(k + 1, rs[k], withChat, render) <= Response(header, rs, withChat, render)
  {
    var parts := Parts(header, rs, withChat, render);
    assert parts[0] == header by {
      ConcatOrder(parts, 0);
      assert parts[..0] == [];
    }
    forall k | 0 <= k < |rs|
      ensures Join("", parts[..k + 1]) + Entry(k + 1, rs[k], withChat, render) <= Join("", parts)
    {
      assert parts[k + 1] == Entry(k + 1, rs[k], withChat, render);
      ConcatOrder(parts, k + 1);
    }
  }

  /** What a tool call asks the store for, and how its answer is headed. */
  datatype Search = Search(query: Json, nResults: Json, where: Option<Dict>, header: string, withChat: bool)

  /** The argument checks and the request of each tool. */
  function Plan(name: string, arguments: Json, render: Render): Result<Search, string> {
    if name == "search_messages" then
      if !arguments.JObject? || "query" !in arguments.fields then Failure(MissingQuery)
      else
        var a := arguments.fields;
        var category := Get(a, "category", JNull);
        var where := if Truthy(category) then Some(map["category" := category]) else None;
        Success(Search(a["query"], Get(a, "n_results", JInt(DefaultResults)), where, "Message Search Results:\n", true))
    else if name == "search_chat" then
      if !arguments.JObject? || "query" !in arguments.fields || "chat_id" !in arguments.fields then
        Failure(MissingChatArguments)
      else
        var a := arguments.fields;
        Success(Search(a["query"], Get(a, "n_results", JInt(DefaultResults)), Some(map["chat_id" := a["chat_id"]]),
          "Search Results for Chat " + Show(a["chat_id"], render) + ":\n", false))
    else Failure(UnknownTool + name)
  }

  /** What the call makes of the store's answer: the header and one block per record. */
  function Respond(search: Search, answer: Result<Json, string>, render: Render): Result<string, string> {
    var results :- answer;
    var formatted :- Formatted(results);
    Success(Response(search.header, formatted, search.withChat, render))
  }

  /** The text of a successful call, or the exception that ends it. */
  function Answer(client: VectorDBClient, name: string, arguments: Json, post: Post, render: Render): Result<string, string> {
    match Plan(name, arguments, render)
    case Failure(e) => Failure(e)
    case Success(search) => Respond(search, client.QueryCollection(search.query, search.nResults, DefaultCollection, search.where, post), render)
  }

  /** `call_tool(name, arguments)`: the one text it returns. */
  function CallToolText(client: VectorDBClient, name: string, arguments: Json, post: Post, render: Render): string {
    match Answer(client, name, arguments, post, render)
    case Success(text) => text
    case Failure(e) => ErrorPrefix + e
  }

  /** The response loop: the header, then each record's block numbered from 1, joined. */
  method RenderResults(header: string, rs: seq<QueryResult>, withChat: bool, render: Render) returns (text: string)
    ensures text == Response(header, rs, withChat, render)
  {
    var parts := [header];
    for k := 0 to |rs|
      invariant parts == Parts(header, rs[..k], withChat, render)
    {
      PartsSnoc(header, rs, withChat, render, k);
      parts := parts + [Entry(k + 1, rs[k], withChat, render)];
    }
    assert rs[..|rs|] == rs;
    text := Join("", parts);
  }

  /** `call_tool`: never raises, and always answers with exactly one text. */
  method CallTool(client: VectorDBClient, name: string, arguments: Json, post: Post, render: Render) returns (contents: seq<string>)
    ensures contents == [CallToolText(client, name, arguments, post, render)]
  {
    var plan := Plan(name, arguments, render);
    if plan.Failure? {
      return [ErrorPrefix + plan.error];
    }
    var search := plan.value;
    var results := client.QueryCollection(search.query, search.nResults, DefaultCollection, search.where, post);
    if results.Failure? {
      return [ErrorPrefix + results.error];
    }
    var formatted := FormatQueryResults(results.value);
    if formatted.Failure? {
      return [ErrorPrefix + formatted.error];
    }
    var text := RenderResults(search.header, formatted.value, search.withChat, render);
    contents := [text];
  }

  // ---------------------------------------------------------------- properties of a call

  /**
   * `search_messages` sends the query text as the single query, asks for `n_results` results
   * (10 when not given) from the `imessages` collection, and filters on `category` exactly when
   * a truthy category is given.
   */
  lemma SearchMessagesRequest(client: VectorDBClient, arguments: Dict, render: Render)
    requires "query" in arguments
    ensures var plan := Plan("search_messages", JObject(arguments), render);
      && plan.Success?
      && var (url, payload) := client.QueryRequest(plan.value.query, plan.value.nResults, DefaultCollection, plan.value.where);
      && url == client.baseUrl + "/query"
      && payload["query_texts"] == JList([arguments["query"]])
      && payload["n_results"] == (if "n_results" in arguments then arguments["n_results"] else JInt(10))
      && payload["collection_name"] == JStr("imessages")
      && ("where" in payload <==> "category" in arguments && Truthy(arguments["category"]))
      && ("where" in payload ==> payload["where"] == JObject(map["category" := arguments["category"]]))
  {
    var plan := Plan("search_messages", JObject(arguments), render);
    var category := Get(arguments, "category", JNull);
    if Truthy(category) {
      assert plan.value.where == Some(map["category" := category]);
      assert "category" in plan.value.where.value;
    } else {
      assert plan.value.where == None;
    }
    QueryPayload.PayloadFields(plan.value.query, plan.value.nResults, DefaultCollection, plan.value.where);
  }

  /** `search_chat` always filters on the given `chat_id`, and heads the answer with it. */
  lemma SearchChatRequest(client: VectorDBClient, arguments: Dict, render: Render)
    requires "query" in arguments && "chat_id" in arguments
    ensures var plan := Plan("search_chat", JObject(arguments), render);
      && plan.Success?
      && plan.value.header == "Search Results for Chat " + Show(arguments["chat_id"], render) + ":\n"
      && var (url, payload) := client.QueryRequest(plan.value.query, plan.value.nResults, DefaultCollection, plan.value.where);
      && payload["query_texts"] == JList([arguments["query"]])
      && payload["n_results"] == (if "n_results" in arguments then arguments["n_results"] else JInt(10))
      && "where" in payload && payload["where"] == JObject(map["chat_id" := arguments["chat_id"]])
  {
    var plan := Plan("search_chat", JObject(arguments), render);
    assert plan.value.where == Some(map["chat_id" := arguments["chat_id"]]);
    assert "chat_id" in plan.value.where.value;
    QueryPayload.PayloadFields(plan.value.query, plan.value.nResults, DefaultCollection, plan.value.where);
  }

  /** Bad arguments, an unknown tool and a failed request each become one error text, without contacting the store for the first two. */
  lemma CallToolErrors(client: VectorDBClient, name: string, arguments: Json, post: Post, render: Render)
    ensures name != "search_messages" && name != "search_chat" ==>
      CallToolText(client, name, arguments, post, render) == ErrorPrefix + UnknownTool + name
    ensures name == "search_messages" && (!arguments.JObject? || "query" !in arguments.fields) ==>
      CallToolText(client, name, arguments, post, render) == ErrorPrefix + MissingQuery
    ensures name == "search_chat" && (!arguments.JObject? || "query" !in arguments.fields || "chat_id" !in arguments.fields) ==>
      CallToolText(client, name, arguments, post, render) == ErrorPrefix + MissingChatArguments
    ensures Plan(name, arguments, render).Success? ==>
      var s := Plan(name, arguments, render).value;
      var (url, payload) := client.QueryRequest(s.query, s.nResults, DefaultCollection, s.where);
      post(url, payload).Failure? ==>
        CallToolText(client, name, arguments, post, render) == ErrorPrefix + StoreErrorPrefix + post(url, payload).error
  {
    if name == "search_chat" {
      assert name != "search_messages";
    }
  }

  /**
   * A call whose arguments are accepted and whose request is answered returns the tool's header
   * followed by one block per record of the answer; an answer that cannot be formatted returns
   * the formatting error instead.
   */
  lemma CallToolAnswers(client: VectorDBClient, name: string, arguments: Json, post: Post, render: Render)
    requires Plan(name, arguments, render).Success?
    ensures var s := Plan(name, arguments, render).value;
      var (url, payload) := client.QueryRequest(s.query, s.nResults, DefaultCollection, s.where);
      post(url, payload).Success? ==>
        var formatted := Formatted(post(url, payload).value);
        && (formatted.Success? ==>
              CallToolText(client, name, arguments, post, render) == Response(s.header, formatted.value, s.withChat, render))
        && (formatted.Failure? ==>
              CallToolText(client, name, arguments, post, render) == ErrorPrefix + formatted.error)
  {
  }

  // ---------------------------------------------------------------- the chunker's metadata

  /** The store's equality filter: every key of `where` is in the metadata with the same value. */
  predicate Matches(where: Dict, metadata: Dict) {
    forall k :: k in where ==> k in metadata && metadata[k] == where[k]
  }

  /** A record without the printed keys shows the defaults. */
  lemma EntryDefaults(i: nat, r: QueryResult, withChat: bool, render: Render)
    requires "sender" !in r.metadata && "chat_name" !in r.metadata && "timestamp" !in r.metadata
    ensures Entry(i, r, withChat, render)
      == "\n" + NatToString(i) + ". Message: " + r.document + "\n"
         + "   From: " + "Unknown" + "\n"
         + (if withChat then "   Chat: " + "N/A" + "\n" else "")
         + "   Date: " + "N/A" + "\n"
         + "   Relevance: " + render.fourPlaces(1.0 - r.distance) + "\n"
  {
    assert Show(Get(r.metadata, "sender", JStr("Unknown")), render) == "Unknown";
    assert Show(Get(r.metadata, "chat_name", JStr("N/A")), render) == "N/A";
    assert Show(Get(r.metadata, "timestamp", JStr("N/A")), render) == "N/A";
  }

  /** None of the keys the service prints or filters on is one the ingestion script writes. */
  lemma UnprintedKeys()
    ensures "sender" !in Ingestion.WireKeys && "chat_name" !in Ingestion.WireKeys
    ensures "timestamp" !in Ingestion.WireKeys && "category" !in Ingestion.WireKeys
  {
  }

  /**
   * The ingestion script stores none of the keys the service prints, so a chunk it wrote is
   * shown as from `Unknown`, in chat `N/A`, on date `N/A`, and it has no `category`.
   */
  lemma ChunkMetadataUnprinted(md: Chunking.ChunkMetadata, listing: set<string> -> seq<string>)
    ensures var m := Ingestion.WireMetadata(md, listing);
      && Get(m, "sender", JStr("Unknown")) == JStr("Unknown")
      && Get(m, "chat_name", JStr("N/A")) == JStr("N/A")
      && Get(m, "timestamp", JStr("N/A")) == JStr("N/A")
      && "category" !in m
  {
    Ingestion.WireMetadataKeys(md, listing);
    UnprintedKeys();
  }

  /** A one-key filter on a key the metadata lacks matches nothing. */
  lemma MissingKeyNeverMatches(key: string, value: Json, metadata: Dict)
    requires key !in metadata
    ensures !Matches(map[key := value], metadata)
  {
    assert key in map[key := value];
  }

  /** A `category` filter from `search_messages` matches no chunk the ingestion script wrote. */
  lemma CategoryFilterMatchesNoChunk(md: Chunking.ChunkMetadata, listing: set<string> -> seq<string>, category: Json)
    ensures !Matches(map["category" := category], Ingestion.WireMetadata(md, listing))
  {
    ChunkMetadataUnprinted(md, listing);
    MissingKeyNeverMatches("category", category, Ingestion.WireMetadata(md, listing));
  }

  /** The `chat_id` filter of `search_chat` matches exactly the chunks of that chat. */
  lemma ChatFilterMatchesItsChunks(md: Chunking.ChunkMetadata, listing: set<string> -> seq<string>, chatId: Json)
    ensures Matches(map["chat_id" := chatId], Ingestion.WireMetadata(md, listing)) <==> chatId == JInt(md.chatId)
  {
    var m := Ingestion.WireMetadata(md, listing);
    Ingestion.WireMetadataKeys(md, listing);
    Ingestion.WireMetadataChat(md, listing);
    assert "chat_id" in m && m["chat_id"] == JInt(md.chatId);
    assert "chat_id" in map["chat_id" := chatId];
  }
}
