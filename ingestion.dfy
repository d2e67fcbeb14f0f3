/**
 * process_chats and query_messages in generate_embedding_vectors.py: the chunks of every chat
 * are sent to the vector store in batches of `batch_size`, through a buffer that a failed
 * request leaves in place so that its chunks go out again with the next batch.
 *
 * HTTP is an oracle: `reset` says what the reset request did, and `respond(n)` is the outcome
 * of the `n`-th insert request (counted from 0).
 */
module Ingestion {
  import opened Wrappers
  import opened PyText
  import opened Json
  import Calendar
  import ExtractChats
  import Chunking
  import QueryPayload

  type Row = ExtractChats.Row
  type Chunk = Chunking.Chunk

  const CollectionName: string := "imessages"
  const DefaultBatchSize: int := 32
  const DefaultQueryResults: int := 5

  /** What `range(0, n, 0)` raises. */
  const ZeroStepError: string := "range() arg 3 must not be zero"

  /** The reset request: a JSON answer, a connection error (caught), or any other exception (not caught). */
  datatype ResetOutcome = ResetAnswered | ResetConnectionError | ResetRaised(error: string)

  /** One insert request: an HTTP answer (with whether its body decodes as JSON), or a RequestException. */
  datatype PostOutcome = Answered(status: int, jsonBody: bool) | RequestFailed(error: string)

  /**
   * The buffer is cleared after a request that was answered with 200, or with another status
   * whose body can be printed as JSON. Printing a body that is not JSON raises a
   * RequestException (JSONDecodeError) before the buffer is cleared.
   */
  predicate Clears(o: PostOutcome) {
    o.Answered? && (o.status == 200 || o.jsonBody)
  }

  /** The JSON body of one `POST /batch_insert`. */
  datatype InsertRequest = InsertRequest(documents: seq<string>, metadatas: seq<Dict>, collectionName: string)

  /** The buffers `all_documents`/`all_metadata` and the insert requests sent so far. */
  datatype Sending = Sending(documents: seq<string>, metadatas: seq<Dict>, requests: seq<InsertRequest>)

  datatype Outcome = Completed | NoServer | Raised(error: string)

  /** What a call of process_chats did: the requests it sent, what was left in the buffer, and how it ended. */
  datatype Run = Run(requests: seq<InsertRequest>, unsent: seq<string>, result: Outcome)

  // ---------------------------------------------------------------- wire format

  /** `datetime.isoformat()` of an instant. */
  function IsoText(t: int): string {
    Calendar.IsoFormat(Calendar.CivilOf(t))
  }

  /**
   * A chunk's metadata as sent: the chunk's dict with `start_time`/`end_time` replaced by
   * their `isoformat()` text. `listing` is the iteration order of the author set, which
   * `', '.join` follows.
   */
  function WireMetadata(md: Chunking.ChunkMetadata, listing: set<string> -> seq<string>): Dict {
    WireFields(md, IsoText(md.startTime), IsoText(md.endTime), Join(", ", listing(md.authors)))
  }

  /** The metadata dict, given the texts of its times and of its authors. */
  function WireFields(md: Chunking.ChunkMetadata, startText: string, endText: string, authorsText: string): Dict {
    map[
      "chat_id" := JInt(md.chatId),
      "group_chat_name" := (if md.groupChatName.Some? then JStr(md.groupChatName.value) else JNull),
      "start_time" := JStr(startText),
      "end_time" := JStr(endText),
      "authors" := JStr(authorsText),
      "offset_minutes" := JFloat(md.offsetMinutes as real)]
  }

  /** The keys the ingestion writes into every stored metadata dict. */
  const WireKeys: set<string> := {"chat_id", "group_chat_name", "start_time", "end_time", "authors", "offset_minutes"}

  lemma WireFieldsValues(md: Chunking.ChunkMetadata, startText: string, endText: string, authorsText: string)
    ensures var d := WireFields(md, startText, endText, authorsText);
      && d.Keys == WireKeys
      && d["chat_id"] == JInt(md.chatId)
      && (d["group_chat_name"] == JNull <==> md.groupChatName.None?)
      && d["start_time"] == JStr(startText)
      && d["end_time"] == JStr(endText)
  {
  }

  /** The stored metadata has exactly the chunk's six keys. */
  lemma WireMetadataKeys(md: Chunking.ChunkMetadata, listing: set<string> -> seq<string>)
    ensures WireMetadata(md, listing).Keys == WireKeys
  {
    WireFieldsValues(md, IsoText(md.startTime), IsoText(md.endTime), Join(", ", listing(md.authors)));
  }

  /** The chat identity and the group name (None as null) stored are the chunk's. */
  lemma WireMetadataChat(md: Chunking.ChunkMetadata, listing: set<string> -> seq<string>)
    ensures var d := WireMetadata(md, listing);
      && d["chat_id"] == JInt(md.chatId)
      && (d["group_chat_name"] == JNull <==> md.groupChatName.None?)
  {
    WireFieldsValues(md, IsoText(md.startTime), IsoText(md.endTime), Join(", ", listing(md.authors)));
  }

  /** The stored times are the ISO text of the chunk's first and last instants. */
  lemma WireMetadataTimes(md: Chunking.ChunkMetadata, listing: set<string> -> seq<string>)
    ensures var d := WireMetadata(md, listing);
      && d["start_time"] == JStr(IsoText(md.startTime))
      && d["end_time"] == JStr(IsoText(md.endTime))
  {
    WireFieldsValues(md, IsoText(md.startTime), IsoText(md.endTime), Join(", ", listing(md.authors)));
  }

  /** `[chunk[0] for chunk in batch]`. */
  function Documents(batch: seq<Chunk>): (ds: seq<string>)
    ensures |ds| == |batch|
  {
    seq(|batch|, k requires 0 <= k < |batch| => batch[k].text)
  }

  /** The metadata comprehension over a batch. */
  function Metadatas(batch: seq<Chunk>, listing: set<string> -> seq<string>): (ms: seq<Dict>)
    ensures |ms| == |batch|
  {
    seq(|batch|, k requires 0 <= k < |batch| => WireMetadata(batch[k].metadata, listing))
  }

  function Min(a: int, b: int): int {
    if a <= b then a else b
  }

  // ---------------------------------------------------------------- specification

  /** Sends the buffer as one insert request; the outcome decides whether the buffer is cleared. */
  function Post(st: Sending, respond: nat -> PostOutcome): Sending {
    var requests := st.requests + [InsertRequest(st.documents, st.metadatas, CollectionName)];
    if Clears(respond(|st.requests|)) then Sending([], [], requests)
    else Sending(st.documents, st.metadatas, requests)
  }

  /**
   * One iteration of the batch loop at index `i`: the slice `cs[i:i + bs]` joins the buffer,
   * which is sent once it holds `bs` documents or the slice reaches the end of the chat.
   */
  function Batch(st: Sending, cs: seq<Chunk>, i: nat, bs: int, respond: nat -> PostOutcome, listing: set<string> -> seq<string>): Sending
    requires i < |cs| && bs > 0
  {
    var batch := cs[i..Min(i + bs, |cs|)];
    var grown := Sending(st.documents + Documents(batch), st.metadatas + Metadatas(batch, listing), st.requests);
    if |grown.documents| >= bs || i + bs >= |cs| then Post(grown, respond) else grown
  }

  /** The batch loop over one chat's chunks, from index `i` on. */
  function BatchesFrom(st: Sending, cs: seq<Chunk>, i: nat, bs: int, respond: nat -> PostOutcome, listing: set<string> -> seq<string>): Sending
    requires bs > 0
    decreases |cs| - i
  {
    if i >= |cs| then st
    else BatchesFrom(Batch(st, cs, i, bs, respond, listing), cs, i + bs, bs, respond, listing)
  }

  /** The chunks of one chat with the default window (30 minutes) and offset (10 minutes). */
  function ChunksOf(rows: seq<Row>, hasAuthorName: bool): seq<Chunk>
    requires !Chunking.HasMissingDate(rows)
  {
    Chunking.OverlappingChunks(Chunking.SortBySent(Chunking.Stamp(rows)), hasAuthorName,
                               Chunking.DefaultWindowMinutes, Chunking.DefaultOffsetMinutes)
  }

  /** The chat loop from chat `j` on. */
  function ChatsFrom(st: Sending, chats: seq<seq<Row>>, j: nat, hasAuthorName: bool, bs: int,
                     respond: nat -> PostOutcome, listing: set<string> -> seq<string>): Run
    decreases |chats| - j
  {
    if j >= |chats| then Run(st.requests, st.documents, Completed)
    else if Chunking.HasMissingDate(chats[j]) then Run(st.requests, st.documents, Raised(Chunking.MissingDateError))
    else if bs == 0 then Run(st.requests, st.documents, Raised(ZeroStepError))
    else if bs < 0 then ChatsFrom(st, chats, j + 1, hasAuthorName, bs, respond, listing)
    else ChatsFrom(BatchesFrom(st, ChunksOf(chats[j], hasAuthorName), 0, bs, respond, listing), chats, j + 1, hasAuthorName, bs, respond, listing)
  }

  /** process_chats: reset the collection, then run the chat loop from empty buffers. */
  function ProcessChatsSpec(chats: seq<seq<Row>>, hasAuthorName: bool, bs: int, reset: ResetOutcome,
                            respond: nat -> PostOutcome, listing: set<string> -> seq<string>): Run {
    match reset
    case ResetConnectionError => Run([], [], NoServer)
    case ResetRaised(e) => Run([], [], Raised(e))
    case ResetAnswered => ChatsFrom(Sending([], [], []), chats, 0, hasAuthorName, bs, respond, listing)
  }

  // ---------------------------------------------------------------- the loops

  /**
   * process_chats. A connection error on the reset returns before anything is sent; a chat
   * with a row without `date_sent`, or a zero `batch_size`, raises out of the loop.
   */
  method ProcessChats(chats: seq<seq<Row>>, hasAuthorName: bool, batchSize: int, reset: ResetOutcome,
                      respond: nat -> PostOutcome, listing: set<string> -> seq<string>)
    returns (run: Run)
    ensures run == ProcessChatsSpec(chats, hasAuthorName, batchSize, reset, respond, listing)
    ensures reset.ResetConnectionError? ==> run.requests == [] && run.result == NoServer
  {
    if reset.ResetConnectionError? {
      return Run([], [], NoServer);
    }
    if reset.ResetRaised? {
      return Run([], [], Raised(reset.error));
    }
    var documents: seq<string> := [];
    var metadatas: seq<Dict> := [];
    var requests: seq<InsertRequest> := [];
    var j := 0;
    while j < |chats|
      invariant 0 <= j <= |chats|
      invariant ChatsFrom(Sending(documents, metadatas, requests), chats, j, hasAuthorName, batchSize, respond, listing)
             == ChatsFrom(Sending([], [], []), chats, 0, hasAuthorName, batchSize, respond, listing)
    {
      var chunks := Chunking.CreateChunksWithOverlap(chats[j], hasAuthorName, Chunking.DefaultWindowMinutes, Chunking.DefaultOffsetMinutes);
      if chunks.Failure? {
        return Run(requests, documents, Raised(chunks.error));
      }
      if batchSize == 0 {
        return Run(requests, documents, Raised(ZeroStepError));
      }
      if batchSize > 0 {
        documents, metadatas, requests := SendChunks(documents, metadatas, requests, chunks.value, batchSize, respond, listing);
      }
      j := j + 1;
    }
    return Run(requests, documents, Completed);
  }

  /** The batch loop of process_chats over one chat's chunks. */
  method SendChunks(documents0: seq<string>, metadatas0: seq<Dict>, requests0: seq<InsertRequest>, cs: seq<Chunk>,
                    batchSize: int, respond: nat -> PostOutcome, listing: set<string> -> seq<string>)
    returns (documents: seq<string>, metadatas: seq<Dict>, requests: seq<InsertRequest>)
    requires batchSize > 0
    ensures Sending(documents, metadatas, requests)
         == BatchesFrom(Sending(documents0, metadatas0, requests0), cs, 0, batchSize, respond, listing)
  {
    documents, metadatas, requests := documents0, metadatas0, requests0;
    var i := 0;
    while i < |cs|
      invariant BatchesFrom(Sending(documents, metadatas, requests), cs, i, batchSize, respond, listing)
             == BatchesFrom(Sending(documents0, metadatas0, requests0), cs, 0, batchSize, respond, listing)
      decreases |cs| - i
    {
      var batch := cs[i..Min(i + batchSize, |cs|)];
      documents := documents + Documents(batch);
      metadatas := metadatas + Metadatas(batch, listing);
      if |documents| >= batchSize || i + batchSize >= |cs| {
        var outcome := respond(|requests|);
        requests := requests + [InsertRequest(documents, metadatas, CollectionName)];
        if Clears(outcome) {
          documents, metadatas := [], [];
        }
      }
      i := i + batchSize;
    }
  }

  // ---------------------------------------------------------------- batches when every request clears

  /** The slices `cs[i:i + bs]` for `i` in `range(i, len(cs), bs)`. */
  function Slices(cs: seq<Chunk>, i: nat, bs: int): seq<seq<Chunk>>
    requires bs > 0
    decreases |cs| - i
  {
    if i >= |cs| then [] else [cs[i..Min(i + bs, |cs|)]] + Slices(cs, i + bs, bs)
  }

  function Flatten<T>(xss: seq<seq<T>>): seq<T> {
    if xss == [] then [] else xss[0] + Flatten(xss[1..])
  }

  lemma {:induction false} FlattenAppend<T>(a: seq<seq<T>>, b: seq<seq<T>>)
    ensures Flatten(a + b) == Flatten(a) + Flatten(b)
  {
    if a == [] {
      assert a + b == b;
    } else {
      assert (a + b)[0] == a[0] && (a + b)[1..] == a[1..] + b;
      FlattenAppend(a[1..], b);
    }
  }

  /** The slices are non-empty, hold at most `bs` chunks each, and together are the chunks from `i` on, in order. */
  lemma {:induction false} SlicesPartition(cs: seq<Chunk>, i: nat, bs: int)
    requires bs > 0 && i <= |cs|
    ensures Flatten(Slices(cs, i, bs)) == cs[i..]
    ensures forall k :: 0 <= k < |Slices(cs, i, bs)| ==> 1 <= |Slices(cs, i, bs)[k]| <= bs
    decreases |cs| - i
  {
    if i < |cs| {
      var e := Min(i + bs, |cs|);
      SlicesPartition(cs, e, bs);
      assert Slices(cs, e, bs) == Slices(cs, i + bs, bs);
      assert cs[i..] == cs[i..e] + cs[e..];
    }
  }

  function RequestOf(batch: seq<Chunk>, listing: set<string> -> seq<string>): InsertRequest {
    InsertRequest(Documents(batch), Metadatas(batch, listing), CollectionName)
  }

  function RequestsOf(batches: seq<seq<Chunk>>, listing: set<string> -> seq<string>): (rs: seq<InsertRequest>)
    ensures |rs| == |batches|
    ensures forall k :: 0 <= k < |batches| ==> rs[k] == RequestOf(batches[k], listing)
  {
    seq(|batches|, k requires 0 <= k < |batches| => RequestOf(batches[k], listing))
  }

  lemma RequestsOfAppend(a: seq<seq<Chunk>>, b: seq<seq<Chunk>>, listing: set<string> -> seq<string>)
    ensures RequestsOf(a + b, listing) == RequestsOf(a, listing) + RequestsOf(b, listing)
  {
  }

  /**
   * When every request clears, a chat whose chunks enter an empty buffer sends exactly one
   * request per slice, in order, and leaves the buffer empty.
   */
  lemma {:induction false} BatchesAllClear(st: Sending, cs: seq<Chunk>, i: nat, bs: int, respond: nat -> PostOutcome, listing: set<string> -> seq<string>)
    requires bs > 0 && st.documents == [] && st.metadatas == []
    requires forall n :: Clears(respond(n))
    ensures BatchesFrom(st, cs, i, bs, respond, listing) == Sending([], [], st.requests + RequestsOf(Slices(cs, i, bs), listing))
    decreases |cs| - i
  {
    if i < |cs| {
      var batch := cs[i..Min(i + bs, |cs|)];
      var next := Sending([], [], st.requests + [RequestOf(batch, listing)]);
      assert st.documents + Documents(batch) == Documents(batch);
      assert st.metadatas + Metadatas(batch, listing) == Metadatas(batch, listing);
      assert Batch(st, cs, i, bs, respond, listing) == next;
      assert BatchesFrom(st, cs, i, bs, respond, listing) == BatchesFrom(next, cs, i + bs, bs, respond, listing);
      BatchesAllClear(next, cs, i + bs, bs, respond, listing);
      assert RequestsOf(Slices(cs, i, bs), listing) == [RequestOf(batch, listing)] + RequestsOf(Slices(cs, i + bs, bs), listing);
      AppendAssoc(st.requests, [RequestOf(batch, listing)], RequestsOf(Slices(cs, i + bs, bs), listing));
    }
  }

  /** One turn of the chat loop for a chat that has its dates, with a positive batch size. */
  lemma ChatsFromStep(st: Sending, chats: seq<seq<Row>>, j: nat, hasAuthorName: bool, bs: int,
                      respond: nat -> PostOutcome, listing: set<string> -> seq<string>)
    requires bs > 0 && j < |chats| && !Chunking.HasMissingDate(chats[j])
    ensures ChatsFrom(st, chats, j, hasAuthorName, bs, respond, listing)
         == ChatsFrom(BatchesFrom(st, ChunksOf(chats[j], hasAuthorName), 0, bs, respond, listing), chats, j + 1, hasAuthorName, bs, respond, listing)
  {
  }

  /** The slices of every chat from chat `j` on, chat by chat. */
  function ChatSlices(chats: seq<seq<Row>>, j: nat, hasAuthorName: bool, bs: int): seq<seq<Chunk>>
    requires bs > 0
    requires forall k :: 0 <= k < |chats| ==> !Chunking.HasMissingDate(chats[k])
    decreases |chats| - j
  {
    if j >= |chats| then [] else Slices(ChunksOf(chats[j], hasAuthorName), 0, bs) + ChatSlices(chats, j + 1, hasAuthorName, bs)
  }

  lemma {:induction false} ChatsAllClear(st: Sending, chats: seq<seq<Row>>, j: nat, hasAuthorName: bool, bs: int,
                                         respond: nat -> PostOutcome, listing: set<string> -> seq<string>)
    requires bs > 0 && st.documents == [] && st.metadatas == []
    requires forall n :: Clears(respond(n))
    requires forall k :: 0 <= k < |chats| ==> !Chunking.HasMissingDate(chats[k])
    ensures ChatsFrom(st, chats, j, hasAuthorName, bs, respond, listing)
         == Run(st.requests + RequestsOf(ChatSlices(chats, j, hasAuthorName, bs), listing), [], Completed)
    decreases |chats| - j
  {
    if j < |chats| {
      var cs := ChunksOf(chats[j], hasAuthorName);
      var slices := Slices(cs, 0, bs);
      var next := Sending([], [], st.requests + RequestsOf(slices, listing));
      ChatStepAllClear(st, chats, j, hasAuthorName, bs, respond, listing);
      ChatsAllClear(next, chats, j + 1, hasAuthorName, bs, respond, listing);
      ChatSlicesStep(st.requests, chats, j, hasAuthorName, bs, listing);
    } else {
      assert RequestsOf(ChatSlices(chats, j, hasAuthorName, bs), listing) == [];
    }
  }

  /** One turn of the chat loop when every request clears: the chat's slices are all sent. */
  lemma ChatStepAllClear(st: Sending, chats: seq<seq<Row>>, j: nat, hasAuthorName: bool, bs: int,
                         respond: nat -> PostOutcome, listing: set<string> -> seq<string>)
    requires bs > 0 && st.documents == [] && st.metadatas == []
    requires forall n :: Clears(respond(n))
    requires j < |chats| && !Chunking.HasMissingDate(chats[j])
    ensures ChatsFrom(st, chats, j, hasAuthorName, bs, respond, listing)
         == ChatsFrom(Sending([], [], st.requests + RequestsOf(Slices(ChunksOf(chats[j], hasAuthorName), 0, bs), listing)),
                      chats, j + 1, hasAuthorName, bs, respond, listing)
  {
    ChatsFromStep(st, chats, j, hasAuthorName, bs, respond, listing);
    BatchesAllClear(st, ChunksOf(chats[j], hasAuthorName), 0, bs, respond, listing);
  }

  lemma ChatSlicesStep(sent: seq<InsertRequest>, chats: seq<seq<Row>>, j: nat, hasAuthorName: bool, bs: int,
                       listing: set<string> -> seq<string>)
    requires bs > 0 && j < |chats|
    requires forall k :: 0 <= k < |chats| ==> !Chunking.HasMissingDate(chats[k])
    ensures sent + RequestsOf(ChatSlices(chats, j, hasAuthorName, bs), listing)
         == (sent + RequestsOf(Slices(ChunksOf(chats[j], hasAuthorName), 0, bs), listing))
            + RequestsOf(ChatSlices(chats, j + 1, hasAuthorName, bs), listing)
  {
    var slices := Slices(ChunksOf(chats[j], hasAuthorName), 0, bs);
    RequestsOfAppend(slices, ChatSlices(chats, j + 1, hasAuthorName, bs), listing);
    AppendAssoc(sent, RequestsOf(slices, listing), RequestsOf(ChatSlices(chats, j + 1, hasAuthorName, bs), listing));
  }

  /**
   * When the reset is answered, every chat has its dates, `batch_size` is positive and every
   * insert request clears, process_chats completes, sends one request per slice of at most
   * `batch_size` chunks of one chat, chat after chat and slice after slice, and ends with an
   * empty buffer.
   */
  lemma AllClearSendsEverySlice(chats: seq<seq<Row>>, hasAuthorName: bool, bs: int,
                                respond: nat -> PostOutcome, listing: set<string> -> seq<string>)
    requires bs > 0
    requires forall n :: Clears(respond(n))
    requires forall k :: 0 <= k < |chats| ==> !Chunking.HasMissingDate(chats[k])
    ensures var run := ProcessChatsSpec(chats, hasAuthorName, bs, ResetAnswered, respond, listing);
      && run.result == Completed && run.unsent == []
      && run.requests == RequestsOf(ChatSlices(chats, 0, hasAuthorName, bs), listing)
  {
    ChatsAllClear(Sending([], [], []), chats, 0, hasAuthorName, bs, respond, listing);
  }

  // ---------------------------------------------------------------- the buffer ledger

  /** The documents of the requests whose outcome cleared the buffer, in sending order. */
  function Delivered(requests: seq<InsertRequest>, respond: nat -> PostOutcome): seq<string> {
    if requests == [] then []
    else Delivered(requests[..|requests| - 1], respond)
         + (if Clears(respond(|requests| - 1)) then requests[|requests| - 1].documents else [])
  }

  function Drop(cs: seq<Chunk>, i: nat): seq<Chunk> {
    if i < |cs| then cs[i..] else []
  }

  lemma DocumentsAppend(a: seq<Chunk>, b: seq<Chunk>)
    ensures Documents(a + b) == Documents(a) + Documents(b)
  {
  }

  lemma BatchLedger(st: Sending, cs: seq<Chunk>, i: nat, bs: int, respond: nat -> PostOutcome, listing: set<string> -> seq<string>)
    requires i < |cs| && bs > 0
    ensures var b := Batch(st, cs, i, bs, respond, listing);
      Delivered(b.requests, respond) + b.documents
      == Delivered(st.requests, respond) + st.documents + Documents(cs[i..Min(i + bs, |cs|)])
  {
    var batch := cs[i..Min(i + bs, |cs|)];
    var grown := Sending(st.documents + Documents(batch), st.metadatas + Metadatas(batch, listing), st.requests);
    if |grown.documents| >= bs || i + bs >= |cs| {
      var p := Post(grown, respond);
      assert p.requests[..|p.requests| - 1] == st.requests;
    }
  }

  /**
   * Along one chat's batch loop, every chunk text that enters the buffer ends up in exactly one
   * request that cleared the buffer, or is still in the buffer: a cleared request (200, or a
   * non-200 that is printed) takes the whole buffer with it, and a failed one leaves it in place.
   */
  lemma {:induction false} BatchesLedger(st: Sending, cs: seq<Chunk>, i: nat, bs: int, respond: nat -> PostOutcome, listing: set<string> -> seq<string>)
    requires bs > 0
    ensures var e := BatchesFrom(st, cs, i, bs, respond, listing);
      Delivered(e.requests, respond) + e.documents == Delivered(st.requests, respond) + st.documents + Documents(Drop(cs, i))
    decreases |cs| - i
  {
    if i < |cs| {
      var e := Min(i + bs, |cs|);
      var b := Batch(st, cs, i, bs, respond, listing);
      var last := BatchesFrom(b, cs, i + bs, bs, respond, listing);
      BatchesStep(st, cs, i, bs, respond, listing);
      BatchLedger(st, cs, i, bs, respond, listing);
      BatchesLedger(b, cs, i + bs, bs, respond, listing);
      DropSplit(cs, i, bs);
      LedgerChain(Delivered(st.requests, respond) + st.documents, Delivered(b.requests, respond) + b.documents,
                  Delivered(last.requests, respond) + last.documents, Documents(cs[i..e]), Documents(Drop(cs, i + bs)));
    }
  }

  /** One turn of the batch loop. */
  lemma BatchesStep(st: Sending, cs: seq<Chunk>, i: nat, bs: int, respond: nat -> PostOutcome, listing: set<string> -> seq<string>)
    requires bs > 0 && i < |cs|
    ensures BatchesFrom(st, cs, i, bs, respond, listing)
         == BatchesFrom(Batch(st, cs, i, bs, respond, listing), cs, i + bs, bs, respond, listing)
  {
  }

  /** The chunks from `i` on are the next slice followed by the chunks after it. */
  lemma DropSplit(cs: seq<Chunk>, i: nat, bs: int)
    requires bs > 0 && i < |cs|
    ensures Documents(Drop(cs, i)) == Documents(cs[i..Min(i + bs, |cs|)]) + Documents(Drop(cs, i + bs))
  {
    assert Drop(cs, i) == cs[i..Min(i + bs, |cs|)] + Drop(cs, i + bs);
    DocumentsAppend(cs[i..Min(i + bs, |cs|)], Drop(cs, i + bs));
  }

  lemma LedgerChain<T>(before: seq<T>, mid: seq<T>, after: seq<T>, a: seq<T>, b: seq<T>)
    requires mid == before + a && after == mid + b
    ensures after == before + (a + b)
  {
    AppendAssoc(before, a, b);
  }

  /** The texts of the chunks of chats `j` onwards, chat by chat. */
  function AllTexts(chats: seq<seq<Row>>, j: nat, hasAuthorName: bool): seq<string>
    requires forall k :: 0 <= k < |chats| ==> !Chunking.HasMissingDate(chats[k])
    decreases |chats| - j
  {
    if j >= |chats| then [] else Documents(ChunksOf(chats[j], hasAuthorName)) + AllTexts(chats, j + 1, hasAuthorName)
  }

  lemma {:induction false} ChatsLedger(st: Sending, chats: seq<seq<Row>>, j: nat, hasAuthorName: bool, bs: int,
                                       respond: nat -> PostOutcome, listing: set<string> -> seq<string>)
    requires bs > 0
    requires forall k :: 0 <= k < |chats| ==> !Chunking.HasMissingDate(chats[k])
    ensures var run := ChatsFrom(st, chats, j, hasAuthorName, bs, respond, listing);
      && run.result == Completed
      && Delivered(run.requests, respond) + run.unsent == Delivered(st.requests, respond) + st.documents + AllTexts(chats, j, hasAuthorName)
    decreases |chats| - j
  {
    if j < |chats| {
      assert !Chunking.HasMissingDate(chats[j]);
      var cs := ChunksOf(chats[j], hasAuthorName);
      var next := BatchesFrom(st, cs, 0, bs, respond, listing);
      assert Delivered(next.requests, respond) + next.documents == Delivered(st.requests, respond) + st.documents + Documents(cs) by {
        BatchesLedger(st, cs, 0, bs, respond, listing);
        assert Drop(cs, 0) == cs;
      }
      ChatsFromStep(st, chats, j, hasAuthorName, bs, respond, listing);
      ChatsLedger(next, chats, j + 1, hasAuthorName, bs, respond, listing);
      var run := ChatsFrom(next, chats, j + 1, hasAuthorName, bs, respond, listing);
      var texts := AllTexts(chats, j + 1, hasAuthorName);
      assert AllTexts(chats, j, hasAuthorName) == Documents(cs) + texts;
      AppendAssoc(Delivered(st.requests, respond) + st.documents, Documents(cs), texts);
    }
  }

  /**
   * Whatever the insert requests answer, a run over chats that all have their dates completes,
   * and every chunk text of every chat, in order, is in exactly one request that cleared the
   * buffer or in the buffer left at the end: failed requests lose nothing, and a non-200
   * answer drops its batch for good.
   */
  lemma NothingLostOrRepeated(chats: seq<seq<Row>>, hasAuthorName: bool, bs: int,
                              respond: nat -> PostOutcome, listing: set<string> -> seq<string>)
    requires bs > 0
    requires forall k :: 0 <= k < |chats| ==> !Chunking.HasMissingDate(chats[k])
    ensures var run := ProcessChatsSpec(chats, hasAuthorName, bs, ResetAnswered, respond, listing);
      && run.result == Completed
      && Delivered(run.requests, respond) + run.unsent == AllTexts(chats, 0, hasAuthorName)
  {
    ChatsLedger(Sending([], [], []), chats, 0, hasAuthorName, bs, respond, listing);
  }

  // ---------------------------------------------------------------- resending after a failure

  /** Every request that did not clear the buffer is a prefix of the next request. */
  predicate Resent(requests: seq<InsertRequest>, respond: nat -> PostOutcome) {
    forall k :: 0 <= k < |requests| - 1 && !Clears(respond(k)) ==> requests[k].documents <= requests[k + 1].documents
  }

  /** The last request, when it did not clear the buffer, is still at the head of the buffer. */
  predicate Pending(st: Sending, respond: nat -> PostOutcome) {
    |st.requests| > 0 && !Clears(respond(|st.requests| - 1)) ==> st.requests[|st.requests| - 1].documents <= st.documents
  }

  lemma BatchResends(st: Sending, cs: seq<Chunk>, i: nat, bs: int, respond: nat -> PostOutcome, listing: set<string> -> seq<string>)
    requires i < |cs| && bs > 0
    requires Resent(st.requests, respond) && Pending(st, respond)
    ensures var b := Batch(st, cs, i, bs, respond, listing);
      Resent(b.requests, respond) && Pending(b, respond)
  {
    var batch := cs[i..Min(i + bs, |cs|)];
    var grown := Sending(st.documents + Documents(batch), st.metadatas + Metadatas(batch, listing), st.requests);
    assert st.documents <= grown.documents;
    if |grown.documents| >= bs || i + bs >= |cs| {
      var p := Post(grown, respond);
      forall k | 0 <= k < |p.requests| - 1 && !Clears(respond(k))
        ensures p.requests[k].documents <= p.requests[k + 1].documents
      {
        if k < |st.requests| - 1 {
          assert p.requests[k] == st.requests[k] && p.requests[k + 1] == st.requests[k + 1];
        }
      }
    }
  }

  lemma {:induction false} BatchesResend(st: Sending, cs: seq<Chunk>, i: nat, bs: int, respond: nat -> PostOutcome, listing: set<string> -> seq<string>)
    requires bs > 0
    requires Resent(st.requests, respond) && Pending(st, respond)
    ensures var e := BatchesFrom(st, cs, i, bs, respond, listing);
      Resent(e.requests, respond) && Pending(e, respond)
    decreases |cs| - i
  {
    if i < |cs| {
      BatchResends(st, cs, i, bs, respond, listing);
      BatchesResend(Batch(st, cs, i, bs, respond, listing), cs, i + bs, bs, respond, listing);
    }
  }

  lemma {:induction false} ChatsResend(st: Sending, chats: seq<seq<Row>>, j: nat, hasAuthorName: bool, bs: int,
                                       respond: nat -> PostOutcome, listing: set<string> -> seq<string>)
    requires Resent(st.requests, respond) && Pending(st, respond)
    ensures Resent(ChatsFrom(st, chats, j, hasAuthorName, bs, respond, listing).requests, respond)
    decreases |chats| - j
  {
    if j < |chats| && !Chunking.HasMissingDate(chats[j]) && bs != 0 {
      if bs < 0 {
        ChatsResend(st, chats, j + 1, hasAuthorName, bs, respond, listing);
      } else {
        var cs := ChunksOf(chats[j], hasAuthorName);
        BatchesResend(st, cs, 0, bs, respond, listing);
        ChatsResend(BatchesFrom(st, cs, 0, bs, respond, listing), chats, j + 1, hasAuthorName, bs, respond, listing);
      }
    }
  }

  /**
   * A request that fails (a RequestException, or a non-200 answer whose body is not JSON)
   * leaves its documents in the buffer, so the next request starts with all of them.
   */
  lemma FailedBatchIsResent(chats: seq<seq<Row>>, hasAuthorName: bool, bs: int, reset: ResetOutcome,
                            respond: nat -> PostOutcome, listing: set<string> -> seq<string>, k: nat)
    requires k + 1 < |ProcessChatsSpec(chats, hasAuthorName, bs, reset, respond, listing).requests|
    requires !Clears(respond(k))
    ensures var rs := ProcessChatsSpec(chats, hasAuthorName, bs, reset, respond, listing).requests;
      rs[k].documents <= rs[k + 1].documents
  {
    ChatsResend(Sending([], [], []), chats, 0, hasAuthorName, bs, respond, listing);
  }

  // ---------------------------------------------------------------- query_messages

  /**
   * query_messages: the payload asks the `imessages` collection for `n_results` matches with
   * documents, metadatas and distances, filtered by `filter_metadata` when it is a non-empty
   * dict. `post` is the store's answer: its decoded JSON, or None for a RequestException
   * (which includes a body that is not JSON).
   */
  function QueryMessages(queryText: string, nResults: int, filterMetadata: Option<Dict>, post: Dict -> Option<Json>): Option<Json>
  {
    post(QueryPayload.Payload(JStr(queryText), JInt(nResults), CollectionName, filterMetadata))
  }

  /**
   * query_messages posts exactly one payload and returns the store's answer to it: the query
   * text as a one-element list, the result count, the `imessages` collection, and a `where`
   * that is present exactly when the filter is a non-empty dict, and then is that filter.
   */
  lemma QueryMessagesRequest(queryText: string, nResults: int, filterMetadata: Option<Dict>, post: Dict -> Option<Json>)
    ensures var p := QueryPayload.Payload(JStr(queryText), JInt(nResults), CollectionName, filterMetadata);
      && QueryMessages(queryText, nResults, filterMetadata, post) == post(p)
      && p["query_texts"] == JList([JStr(queryText)])
      && p["n_results"] == JInt(nResults)
      && p["collection_name"] == JStr("imessages")
      && ("where" in p <==> filterMetadata.Some? && filterMetadata.value != map[])
      && ("where" in p ==> p["where"] == JObject(filterMetadata.value))
  {
    QueryPayload.PayloadFields(JStr(queryText), JInt(nResults), CollectionName, filterMetadata);
  }
}
