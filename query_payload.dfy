/**
 * The body of a `POST /query` request to the vector store. Both the ingestion script's
 * `query_messages` and the MCP server's `VectorDBClient.query_collection` build it the same way.
 */
module QueryPayload {
  import opened Wrappers
  import opened Json

  /** The result fields every query asks for. */
  const IncludeFields: seq<Json> := [JStr("documents"), JStr("metadatas"), JStr("distances")]

  /** `if where:` — a filter is sent only when it is given and not empty. */
  predicate FilterGiven(where: Option<Dict>) {
    where.Some? && Truthy(JObject(where.value))
  }

  /** The payload dict: the query text, the result count, the collection, the include list and the optional filter. */
  function Payload(queryText: Json, nResults: Json, collectionName: string, where: Option<Dict>): Dict {
    var base := map[
      "query_texts" := JList([queryText]),
      "n_results" := nResults,
      "collection_name" := JStr(collectionName),
      "include" := JList(IncludeFields)];
    if FilterGiven(where) then base["where" := JObject(where.value)] else base
  }

  /**
   * The four fixed fields are always present with the given values, `where` is present exactly
   * when the filter is a non-empty dict, and then it is that filter; there are no other keys.
   */
  lemma PayloadFields(queryText: Json, nResults: Json, collectionName: string, where: Option<Dict>)
    ensures var p := Payload(queryText, nResults, collectionName, where);
      && p["query_texts"] == JList([queryText])
      && p["n_results"] == nResults
      && p["collection_name"] == JStr(collectionName)
      && p["include"] == JList(IncludeFields)
      && ("where" in p <==> where.Some? && where.value != map[])
      && ("where" in p ==> p["where"] == JObject(where.value))
      && p.Keys <= {"query_texts", "n_results", "collection_name", "include", "where"}
  {
  }
}
