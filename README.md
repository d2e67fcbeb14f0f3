# imessage-mcp, modelled in Dafny

imessage-mcp makes a user's iMessage history searchable by meaning. It works in four stages:

- **Contacts.** The address-book export is flattened into one entry per phone number or e-mail address (`extract_contacts.py`).
- **Chats.** Every chat in `chat.db` becomes a table of messages whose authors are resolved against those contacts (`extract_chats.py`). The driver script saves each chat to a CSV file named after the chat (`main.py`).
- **Ingestion.** Each chat is cut into overlapping time-window chunks. The chunks are sent in batches to a small HTTP front of a vector store (`generate_embedding_vectors.py`, `chroma-imessage/app.py`).
- **Search.** An MCP service answers the `search_messages` and `search_chat` tools by querying that store and rendering the matches as text (`imessage_service/src/imessage_service/server.py`).

The model has one module per source file plus shared helpers:

| module | file | models |
|---|---|---|
| `Wrappers` | `wrappers.dfy` | `Option`, and `Result` with failure propagation (`:-`) |
| `PyText` | `pytext.dfy` | the Python string operations the code uses: `split`, `join`, `replace`, `lower`, `strip`, `in`, `str(n)`, zero padding |
| `Json` | `json.dfy` | JSON values, Python truthiness, `dict.get` |
| `Calendar` | `calendar.dfy` | naive `datetime` as microseconds since 1970, and `isoformat()` |
| `ExtractContacts` | `extract_contacts.dfy` | `extract_contacts.py` |
| `ExtractChats` | `extract_chats.dfy` | `extract_chats.py` |
| `ChatFiles` | `chat_files.dfy` | `main.py` lines 30-46 |
| `Chunking` | `chunking.dfy` | `create_chunks_with_overlap` |
| `QueryPayload` | `query_payload.dfy` | the `/query` body shared by the ingestion script and the MCP service |
| `Ingestion` | `ingestion.dfy` | `process_chats`, `query_messages` |
| `MessageSearch` | `message_search.dfy` | `server.py` |
| `StoreApi` | `store_api.dfy` | `chroma-imessage/app.py` |

Loops in the source are Dafny methods with `while`/`for` loops. Each such method is proved equal to a specification function, and the properties are proved about those functions. The two objects whose state the source updates are classes:

- the chat directory of `main.py` (`ChatFiles.ChatDirectory`);
- the store server of `app.py` (`StoreApi.StoreServer`).

The store client (`MessageSearch.VectorDBClient`) is also a class; its only field is fixed at construction. Things outside the program are parameters (oracles):

- SQLite query results;
- HTTP outcomes;
- the iteration order of Python sets;
- file I/O failures;
- the vector store's own decisions;
- float formatting.

A few properties tie the stages together:

- the metadata the ingestion script writes has none of the keys the search service prints or filters on (`sender`, `chat_name`, `timestamp`, `category`);
- a `category` filter therefore matches no stored chunk;
- a `chat_id` filter matches exactly that chat's chunks. The chunks store the chat id as a JSON integer, while the tool schema declares `chat_id` a string, so a client that sends `"42"` matches no chunk.

Three behaviours of the code are worth knowing when reading the model:

- An insert request that raises does not clear the buffer, so its chunks are sent again at the head of the next request (`Ingestion.FailedBatchIsResent`).
- A non-200 answer whose body is JSON is printed, and its batch is dropped for good.
- Store errors are HTTP 500 responses whose detail is the exception text.

## Model

| member | source | states |
|---|---|---|
| ExtractContacts.DisplayName | extract_contacts.py:27-29 | when first, middle and last name hold no word the name is the organisation; otherwise the name has exactly their words, in that order, and no whitespace at either end |
| ExtractContacts.AddRecord | extract_contacts.py:28-37 | `contacts[record_id] = …` maps the id to a fresh contact with no phone number or e-mail, leaves every other id unchanged, keeps a repeated id in its place and appends a new one; the key order still lists every key once |
| ExtractContacts.LoadRecords | extract_contacts.py:19-37 | the record loop builds the same dict, keys in insertion order, as the specification function |
| ExtractContacts.AttachValues | extract_contacts.py:45-61 | the phone loop and the e-mail loop append each non-empty value to an existing owner and never add or reorder contacts |
| ExtractContacts.AttachAll | extract_contacts.py:45-61 | attaching values keeps the key order and the key set of the contact dict |
| ExtractContacts.AttachedValuesComeFromRows | extract_contacts.py:45-61 | an attached value was already there, or is non-empty and comes from a row owned by that contact |
| ExtractContacts.KeepDialChars | extract_contacts.py:79 | `re.sub(r'[^\d+]', '', p)` leaves only digits and '+' |
| ExtractContacts.KeepDialCharsPerChar | extract_contacts.py:79 | the substitution keeps one character exactly when it is a digit or '+', and works piece by piece on a concatenation, so every digit and '+' of the input is kept, in order |
| ExtractContacts.KeepDialCharsOfDialString | extract_contacts.py:79 | the substitution leaves a string of digits and '+' unchanged |
| ExtractContacts.LStripOnes | extract_contacts.py:81 | `lstrip('1')` is the suffix after the leading '1's, and it does not start with '1' |
| ExtractContacts.CleanPhone | extract_contacts.py:79-81 | a cleaned number starts with '+' and has only digits and '+' |
| ExtractContacts.CleanPhoneCases | extract_contacts.py:79-81 | a number whose kept characters start with '+' keeps them; any other becomes "+1" plus its kept digits after their leading '1's |
| ExtractContacts.CleanPhoneIdempotent | extract_contacts.py:79-81 | cleaning a cleaned number changes nothing |
| ExtractContacts.EntriesOf | extract_contacts.py:77-91 | one entry per phone number (cleaned, e-mail null), then one per e-mail address (phone null), each with the contact's name fields |
| ExtractContacts.SimplifyContacts | extract_contacts.py:66-91 | the final loop gives every contact's entries, contact by contact in first-seen order |
| ExtractContacts.ExtractContactsFromAbcddb | extract_contacts.py:6-93 | the four loops of one database give the specified entries |
| ExtractContacts.FlattenEntriesHaveOneContactPoint | extract_contacts.py:82-91 | every flattened entry has a phone number or an e-mail address, never both |
| ExtractContacts.FlattenLength | extract_contacts.py:77-91 | there are as many entries as attached phone numbers and e-mail addresses |
| ExtractContacts.KeepReachable | extract_contacts.py:121-123 | the filter keeps only entries with a phone number or an e-mail address, drawn from its input |
| ExtractContacts.KeepReachableKeepsAll | extract_contacts.py:121-123 | on flattened entries the filter removes nothing |
| ExtractContacts.ExtractContacts | extract_contacts.py:95-125 | no database, or no entry in any database, gives the column-less `pl.DataFrame()` (None); otherwise the result is every database's entries in order, each with exactly one contact point |
| ExtractContacts.AllEntriesHaveOneContactPoint | extract_contacts.py:107-125 | every entry of every database has exactly one contact point |
| ExtractChats.ParseAppleTimestamp | extract_chats.py:52-56 | NULL or 0 gives None; otherwise the Apple epoch plus `ts` nanoseconds, rounded to the microsecond |
| ExtractChats.ParseAppleTimestampMonotone | extract_chats.py:52-56 | a later Apple timestamp never parses to an earlier instant |
| ExtractChats.GroupChatName | extract_chats.py:19 | an empty or NULL display name becomes None; any other is kept |
| ExtractChats.MessageDataOf | extract_chats.py:41-71 | the author handle is "Me" for the user's own messages and the handle id otherwise |
| ExtractChats.PhoneMatches | extract_chats.py:79 | the join matches exactly the contacts whose phone number equals the handle; NULL keys never match |
| ExtractChats.JoinedRowsOfMessage | extract_chats.py:79-80 | the left join keeps a message with no match as one row and repeats it once per matching contact |
| ExtractChats.AuthorNameRule | extract_chats.py:79-80 | `author_name` is "Me" for the handle "Me", else the name of a contact with that phone number, else null only when no contact has it |
| ExtractChats.ResolveAuthorsKeepsMessages | extract_chats.py:79-80 | when no two contacts share a phone number, the join keeps one row per message, in order |
| ExtractChats.AtMostOneMatch | extract_chats.py:79 | distinct phone numbers give at most one match per handle |
| ExtractChats.NoPhoneMatches | extract_chats.py:79 | a handle that is no contact's phone number matches nothing |
| ExtractChats.EmailHandlesNeverResolve | extract_chats.py:79-80 | an e-mail handle never gets a name from flattened contacts, whose phone numbers hold no '@' |
| ExtractChats.ResolveAuthorsRows | extract_chats.py:79-80 | the join loses no message and invents none: every message has a row carrying it, and every row carries a message |
| ExtractChats.ResolveAuthorsAppend | extract_chats.py:79-80 | the join keeps the message order: the rows of two runs of messages are the rows of the first run, then those of the second |
| ExtractChats.ExtractChatsFrom | extract_chats.py:6-91 | the chat loop builds the specified frame for each chat with messages, in chat-table order |
| ExtractChats.ChatFrameRows | extract_chats.py:16-80 | every row of a chat's frame carries that chat's id, guid and group name, with at least one row per message |
| ExtractChats.ChatFramesNonEmpty | extract_chats.py:74-86 | chats without messages are skipped, so every returned frame is non-empty and there are at most as many frames as chats |
| ExtractChats.OwnMessagesAreMe | extract_chats.py:48-80 | the user's own messages carry the author name "Me", whatever the contacts hold |
| ChatFiles.NormalizeNormalized | main.py:38 | a normalised name has no whitespace, no '+' and no upper-case ASCII letter |
| ChatFiles.NormalizeIdempotent | main.py:38 | normalising a normalised name changes nothing |
| ChatFiles.GroupNames | main.py:35 | `drop_nulls` gives exactly the rows' non-null group names, is empty exactly when every row's group name is null, and its first item is the group name of the first row that has one |
| ChatFiles.GroupNamesAppend | main.py:35 | `drop_nulls` keeps the row order: the names of two runs of rows are those of the first run, then those of the second |
| ChatFiles.Candidates | main.py:36-37 | the fallback set holds exactly the present values whose lower-case form does not contain "me" |
| ChatFiles.NameChain | main.py:35-37 | the name chain computes the specified name; None stands for the IndexError of the last `[0]` |
| ChatFiles.ChatNameChain | main.py:35-37 | first group name, else a qualifying author name, else a qualifying author handle, else no name; a participant name never contains "me" |
| ChatFiles.SaveAllNames | main.py:39-44 | afterwards a file exists exactly when it existed before or some chat was saved to it |
| ChatFiles.SaveChatEffect | main.py:39-42 | one chat appends its rows to the file it is saved to, after the rows that file already held |
| ChatFiles.SaveAllContents | main.py:33-44 | a file holds its earlier rows followed by the rows of each chat saved to it, in chat order; a skipped chat changes nothing |
| ChatFiles.NoFileExtended | main.py:39-44 | when stacking onto an existing file always raises, no existing file changes, and a new file holds exactly the one chat first saved under its name |
| ChatFiles.NothingSavedOutsideTargets | main.py:39-44 | no chat's rows reach a name no chat is saved to |
| ChatFiles.ChatDirectory.SaveChats | main.py:33-44 | the loop leaves the directory as specified: each named chat is appended, and a chat whose naming or file access raises is skipped |
| ChatFiles.ChatDirectory.PrepareChats | main.py:30-46 | below 100 files the extracted chats are saved and passed on; otherwise every listed file is read back and nothing is written |
| Chunking.SortBySent | generate_embedding_vectors.py:18 | the sort gives a permutation of the messages ordered by `date_sent` |
| Chunking.CreateChunksWithOverlap | generate_embedding_vectors.py:10-81 | a row without `date_sent` raises TypeError; otherwise the chunks of the three phases of the sorted messages, in phase order |
| Chunking.ScanPhase | generate_embedding_vectors.py:26-79 | one phase appends the chunk of each run of the scan, in order, including the final run |
| Chunking.BreakTest | generate_embedding_vectors.py:41-43 | the three-way test on the tracked times is exactly "no open run, silence over 30 minutes, or past the window on the shifted clock" |
| Chunking.MakeChunkFields | generate_embedding_vectors.py:46-57 | a chunk holds the newline-joined non-null texts, the first row's chat id and group name, the first and last `date_sent`, exactly the distinct non-null authors, and the phase offset |
| Chunking.BreaksIgnoreShift | generate_embedding_vectors.py:35-43 | the phase shift is added to both sides of the window test and never changes its outcome |
| Chunking.RunsIgnoreShift | generate_embedding_vectors.py:21-43 | all phases cut the messages into the same runs |
| Chunking.OverlappingChunksPhases | generate_embedding_vectors.py:21-81 | the three phases produce the same chunks from the same runs, differing only in `offset_minutes` |
| Chunking.PhaseChunksOffsetOnly | generate_embedding_vectors.py:49-56 | the chunk of a run in two phases differs only in `offset_minutes` |
| Chunking.ScanCovers | generate_embedding_vectors.py:41-65 | the flushed runs followed by the open run are exactly the messages scanned so far |
| Chunking.RunsPartition | generate_embedding_vectors.py:41-79 | the runs are non-empty, consecutive and together exactly the messages: none dropped or repeated |
| Chunking.RunsWellCut | generate_embedding_vectors.py:41-65 | each run is cohesive, and each run after the first starts with a message that breaks from the run before |
| Chunking.WellCutUnique | generate_embedding_vectors.py:41-65 | a well-cut sequence of runs is the one the scan makes of its messages |
| Chunking.RunsCharacterised | generate_embedding_vectors.py:41-65 | the runs of a phase are the unique well cut of the messages (both directions) |
| Chunking.ChunkSpan | generate_embedding_vectors.py:41-63 | for sorted messages every chunk starts and ends at instants of the chat's messages, starts no later than it ends, and spans at most the window unless it holds one instant |
| Chunking.NoMessagesNoChunks | generate_embedding_vectors.py:46-79 | a chat without messages gives no chunk |
| Chunking.SingleMessageThreeChunks | generate_embedding_vectors.py:21-79 | a single message gives exactly three chunks, one per phase, each of that message alone |
| Chunking.GapSplits | generate_embedding_vectors.py:42 | two messages more than 30 minutes apart are in different runs, whatever the window and the phase |
| Chunking.CloseMessagesJoin | generate_embedding_vectors.py:41-43 | two messages at most 30 minutes apart and within the window share a run |
| Chunking.DefaultThresholds | generate_embedding_vectors.py:10-43 | with the default window a message exactly 30 minutes later stays in the run, and one 31 minutes later starts a new one |
| Chunking.WindowSplitsSteadyConversation | generate_embedding_vectors.py:10-43 | messages 20 minutes apart are split once the third is 40 minutes after the first |
| Chunking.NullTextsGiveEmptyText | generate_embedding_vectors.py:47 | a run whose texts are all null gives a chunk with empty text |
| QueryPayload.PayloadFields | generate_embedding_vectors.py:174-181 | the payload holds the query as a one-element list, the count, the collection and the include list; `where` is present exactly for a non-empty filter, and is then that filter; there are no other keys |
| Ingestion.WireMetadataKeys | generate_embedding_vectors.py:111-118 | the stored metadata has exactly the six chunk keys |
| Ingestion.WireMetadataChat | generate_embedding_vectors.py:111-118 | the stored chat id and group name (None as null) are the chunk's |
| Ingestion.WireMetadataTimes | generate_embedding_vectors.py:114-115 | the stored times are the `isoformat()` text of the chunk's first and last instants |
| Ingestion.SendChunks | generate_embedding_vectors.py:106-144 | the batch loop leaves the buffer and the requests sent as the specification function says |
| Ingestion.ProcessChats | generate_embedding_vectors.py:83-149 | the run follows the specification; a connection error on the reset returns before anything is sent |
| Ingestion.SlicesPartition | generate_embedding_vectors.py:106-107 | the slices are non-empty, hold at most `batch_size` chunks each, and together are the chunks in order |
| Ingestion.BatchesAllClear | generate_embedding_vectors.py:106-141 | when every request clears, a chat entering an empty buffer sends one request per slice and leaves the buffer empty |
| Ingestion.ChatsAllClear | generate_embedding_vectors.py:102-144 | when every request clears, the chat loop sends every slice of every chat, in order, and completes with an empty buffer |
| Ingestion.AllClearSendsEverySlice | generate_embedding_vectors.py:91-144 | with an answered reset and every request clearing, process_chats completes, sends one request per slice (chat after chat) and leaves nothing unsent |
| Ingestion.BatchLedger | generate_embedding_vectors.py:121-144 | one batch adds its slice's texts to the delivered texts followed by the buffer |
| Ingestion.BatchesLedger | generate_embedding_vectors.py:106-144 | along one chat, every chunk text ends up in exactly one request that cleared the buffer, or is still in the buffer |
| Ingestion.ChatsLedger | generate_embedding_vectors.py:102-144 | the same ledger holds over the chat loop, which completes |
| Ingestion.NothingLostOrRepeated | generate_embedding_vectors.py:98-144 | whatever the inserts answer, the delivered texts followed by the unsent buffer are every chunk text of every chat, in order, once |
| Ingestion.BatchResends | generate_embedding_vectors.py:125-144 | after one batch, every request that did not clear is a prefix of the next, and the last such request still heads the buffer |
| Ingestion.BatchesResend | generate_embedding_vectors.py:106-144 | the resend invariant holds along one chat's batch loop |
| Ingestion.ChatsResend | generate_embedding_vectors.py:102-144 | the resend invariant holds along the chat loop |
| Ingestion.FailedBatchIsResent | generate_embedding_vectors.py:138-144 | a request that raises, or whose non-200 body is not JSON, is sent again at the start of the next request |
| Ingestion.QueryMessagesRequest | generate_embedding_vectors.py:161-184 | `query_messages` posts one payload for the `imessages` collection with the given text and count, filtered exactly when the filter is a non-empty dict, and returns the store's answer |
| MessageSearch.VectorDBClient.constructor | imessage_service/src/imessage_service/server.py:32-33 | the base URL is a prefix of the given one, does not end in '/', and only slashes were removed |
| MessageSearch.QueryUrlShape | imessage_service/src/imessage_service/server.py:33-54 | the query URL is the base URL plus "/query", with a single slash before `query` |
| MessageSearch.VectorDBClient.QueryCollection | imessage_service/src/imessage_service/server.py:35-62 | a successful request returns the store's decoded answer; a failed one raises "Vector DB error: " followed by the request exception's text |
| MessageSearch.First | imessage_service/src/imessage_service/server.py:73-78 | `v[0]` of a non-empty list is its first item; only lists and strings can be indexed |
| MessageSearch.Lookup | imessage_service/src/imessage_service/server.py:77-78 | `d[key]` returns the key's value when the key is present, and otherwise raises `KeyError` with the quoted key |
| MessageSearch.Items | imessage_service/src/imessage_service/server.py:80 | iterating a list gives its items, a string its characters as one-character strings in order, an empty dict nothing; any other value fails |
| MessageSearch.Validate | imessage_service/src/imessage_service/server.py:64-86 | a `QueryResult` is built exactly for a string document, dict metadata and numeric distance, and then holds them |
| MessageSearch.FormatQueryResults | imessage_service/src/imessage_service/server.py:69-89 | the loop produces the specified records, or the exception Python raises |
| MessageSearch.ZipFailureSticks | imessage_service/src/imessage_service/server.py:80-87 | the first invalid row ends the loop with its error |
| MessageSearch.ZipPrefixRows | imessage_service/src/imessage_service/server.py:80-87 | a prefix of the zip succeeds exactly when each of its rows is valid, and then holds one record per row in order |
| MessageSearch.FormattedZip | imessage_service/src/imessage_service/server.py:69-89 | for the store's list-of-lists answer the records are the zip of the first lists, truncated to the shortest, and formatting succeeds exactly when every row is valid |
| MessageSearch.FormattedNoDocuments | imessage_service/src/imessage_service/server.py:73-74 | an answer without documents, or with an empty first document list, gives no records and no error |
| MessageSearch.ResponseLayout | imessage_service/src/imessage_service/server.py:173-217 | the text starts with its header, is only the header when there are no records, and holds record k's block, numbered k+1, after the blocks before it |
| MessageSearch.RenderResults | imessage_service/src/imessage_service/server.py:173-185 | the response loop produces the header followed by every record's block, joined |
| MessageSearch.CallTool | imessage_service/src/imessage_service/server.py:149-228 | a tool call never raises, and returns exactly one text |
| MessageSearch.SearchMessagesRequest | imessage_service/src/imessage_service/server.py:153-167 | `search_messages` sends the query as the only query text and `n_results` (10 when absent) to `imessages`, with a `category` filter exactly when a truthy category is given |
| MessageSearch.SearchChatRequest | imessage_service/src/imessage_service/server.py:188-206 | `search_chat` always filters on the given `chat_id` and heads its answer with it |
| MessageSearch.CallToolAnswers | imessage_service/src/imessage_service/server.py:162-218 | an accepted call whose request is answered returns the tool's header and one block per record of the answer, or the formatting error when the answer cannot be formatted |
| MessageSearch.CallToolErrors | imessage_service/src/imessage_service/server.py:149-228 | an unknown tool, missing arguments or a failed request each give the single text "Error searching messages: " plus the reason |
| MessageSearch.EntryDefaults | imessage_service/src/imessage_service/server.py:175-181 | a record without `sender`, `chat_name` and `timestamp` shows "Unknown", "N/A" and "N/A" |
| MessageSearch.UnprintedKeys | imessage_service/src/imessage_service/server.py:159-179 | none of `sender`, `chat_name`, `timestamp`, `category` is a key the ingestion script writes |
| MessageSearch.ChunkMetadataUnprinted | imessage_service/src/imessage_service/server.py:177-179 | a stored chunk's metadata shows the defaults for sender, chat and date, and has no category |
| MessageSearch.MissingKeyNeverMatches | imessage_service/src/imessage_service/server.py:159-160 | an equality filter on a key the metadata lacks matches nothing |
| MessageSearch.CategoryFilterMatchesNoChunk | imessage_service/src/imessage_service/server.py:159-160 | the `category` filter matches no chunk the ingestion script stored |
| MessageSearch.ChatFilterMatchesItsChunks | imessage_service/src/imessage_service/server.py:193 | the `chat_id` filter matches a stored chunk exactly when the chunk's chat id equals it |
| StoreApi.GetOrCreate | chroma-imessage/app.py:22-28 | the named collection is kept if present, else created empty with its description; no other collection changes |
| StoreApi.Delete | chroma-imessage/app.py:102-112 | deletion succeeds exactly for an existing name and removes only it |
| StoreApi.BatchInsert | chroma-imessage/app.py:47-69 | every failure is an HTTP 500 |
| StoreApi.DefaultIdsFresh | chroma-imessage/app.py:53-55 | default ids are `str(count + i)`, one per document, pairwise distinct and distinct from `str(0)` … `str(count - 1)` |
| StoreApi.DefaultMetadatasShape | chroma-imessage/app.py:58-60 | default metadata is one map per document holding the shared timestamp and its index |
| StoreApi.BatchInsertAppends | chroma-imessage/app.py:50-67 | a successful insert appends one record per document with the supplied (unchanged) or default ids and metadatas, leaves other collections alone, and answers with the count and the ids |
| StoreApi.BatchInsertRefused | chroma-imessage/app.py:50-69 | a refused insert still leaves the collection created and changes nothing else |
| StoreApi.Query | chroma-imessage/app.py:71-84 | every failure is an HTTP 500 |
| StoreApi.CollectionInfo | chroma-imessage/app.py:86-96 | every failure is an HTTP 500 |
| StoreApi.ReadsCreateMissing | chroma-imessage/app.py:74-94 | query and info create a missing collection empty and described and change nothing else; info counts the collection's records |
| StoreApi.ResetCollection | chroma-imessage/app.py:98-106 | every failure is an HTTP 500 |
| StoreApi.ResetEmpties | chroma-imessage/app.py:101-106 | resetting an existing collection leaves it empty and described and keeps the others; a missing one is a 500 that changes nothing |
| StoreApi.DeleteCollection | chroma-imessage/app.py:108-115 | every failure is an HTTP 500 |
| StoreApi.DeleteRemoves | chroma-imessage/app.py:111-115 | deleting removes exactly the named collection; a missing name is a 500 that changes nothing |
| StoreApi.StoreServer.constructor | chroma-imessage/app.py:30-31 | start-up makes sure the `default` collection exists |
| StoreApi.StoreServer.HandleBatchInsert | chroma-imessage/app.py:47-69 | the handler's new store and answer are those of the insert specification |
| StoreApi.StoreServer.HandleQuery | chroma-imessage/app.py:71-84 | the handler's new store and answer are those of the query specification |
| StoreApi.StoreServer.HandleCollectionInfo | chroma-imessage/app.py:86-96 | the handler's new store and answer are those of the info specification |
| StoreApi.StoreServer.HandleResetCollection | chroma-imessage/app.py:98-106 | the handler's new store and answer are those of the reset specification |
| StoreApi.StoreServer.HandleDeleteCollection | chroma-imessage/app.py:108-115 | the handler's new store and answer are those of the delete specification |
| Calendar.CivilOfRoundTrip | generate_embedding_vectors.py:114-115 | the calendar fields of an instant encode it exactly |
| Calendar.IsoFormatLayout | generate_embedding_vectors.py:114-115 | for years 1-9999 `isoformat()` has the fixed layout `YYYY-MM-DDTHH:MM:SS`, followed by `.ffffff` when the microsecond is not zero |

## Left out

- SQLite, CSV, directory walking and HTTP transport are left out. Query results, HTTP outcomes and file failures are parameters: `messagesOf`, `respond`, `reset`, `post`, `ioFails`. The last one is told whether the file already exists.
- The start-up file checks and `exit()` of `main.py` (lines 9-27) and the final `process_chats` call and prints (lines 50-56) are left out. They are I/O and printing.
- Writing a chat with `write_csv`, reading it back with `read_csv` and stacking it with `vstack` are modelled as appending rows in a map. CSV type round-tripping and schema mismatches are not modelled.
- ChatFiles.SaveAll: whether stacking onto an existing file fails is left to `ioFails(name, true)`, and `SaveAllContents` is stated for any such oracle. In the program it always fails. `read_csv` reads the date columns back as text, and `vstack` refuses to stack them onto the extracted chat's datetime columns, so the chat is skipped. An existing chat file is therefore never extended, and within one run only the first chat with a given name is written. `ChatFiles.NoFileExtended` states this case.
- ChatFiles.ChatDirectory.PrepareChats: with 100 or more files the chats are read back as the rows that were saved. In the program `read_csv` gives their dates as text, so the embedding step raises a `TypeError` at `message_time + offset` on the first chat. The model passes the read-back rows on as if their dates were intact.
- ExtractContacts.ExtractContacts: the column-less frame (None) is not passed on to `ExtractChats`, which takes contact entries. In the program, selecting `Phone Number` from it in `extract_chats` and `unique('Name')` in `main.py` both raise `ColumnNotFoundError`.
- The iteration order of Python sets (author lists, `list(set(...))[0]`) is a parameter (`listing`, `pick`), not CPython's hash order.
- ExtractChats.ParseAppleTimestamp: rounds `ts` nanoseconds to the microsecond with integer arithmetic. The float error of `ts/1e9` and `timedelta`'s round-half-even are not modelled.
- `df.sort("date_sent")`: the model keeps messages sent at the same instant in their input order. Polars promises no order for them, so it may order them differently. That changes only the order of their texts within a chunk.
- A chat frame is assumed to have the `author_name` column (`hasAuthorName`) or not as a whole, as `extract_chats` frames always do.
- `offset_minutes` is kept as the integer minute count. In the stored metadata it becomes a JSON float.
- The per-chat "Processed chunks" print and the final `collection_info` request of `process_chats` (lines 146-158) only print, so they are left out.
- Calendar.IsoFormatLayout: stated only for years 1-9999. Python's `datetime` raises outside that range, and that error is not modelled.
- `lower()` is modelled for ASCII letters only; Unicode case mapping is not. `split()` and `strip()` use Python's full `str.isspace()` set, Unicode whitespace included.
- ExtractContacts.KeepDialChars: keeps the ASCII digits '0'-'9' and '+'. Python's `\d` on a `str` also keeps every other Unicode decimal digit, such as Arabic-Indic or full-width digits, which the model deletes.
- The stored `authors` text is `", ".join` of the author set in the set's iteration order, which is a parameter (`listing`). Nothing is claimed about that text beyond this, not even that it names each author once.
- `str()` of floats, lists and dicts, and the `:.4f` relevance formatting, are parameters (`Render`). So is the decoding of an HTTP body inside `post`, including `raise_for_status` texts.
- MessageSearch.Items: iterating a non-empty dict is modelled as a failure. Python iterates its keys in insertion order, which the model's dicts do not keep. A key is a valid `document`, so where the model answers with an error, Python can return records built from the keys.
- MessageSearch.Validate: only pydantic's first error line is modelled. Lax coercions (numeric strings, booleans as numbers) are treated as invalid.
- MessageSearch.Matches: the store's `where` filter is modelled as plain key-value equality. Operators such as `$eq` and `$and` are not modelled.
- The store's own behaviour is a parameter (`Chroma`), not modelled:
  - collection-name validation;
  - `add` validation;
  - the text of a missing-collection error;
  - embedding and similarity search;
  - what `where_document` and `include` do (the request carries both to the `search` parameter).
- `add` with an id that already exists is appended like any other record. The store's handling of duplicate ids is not modelled.
- StoreApi.BatchInsert, StoreApi.Query, StoreApi.CollectionInfo, StoreApi.ResetCollection, StoreApi.DeleteCollection: their own contracts state only the 500 mapping. What they do to the store is stated by BatchInsertAppends, BatchInsertRefused, ReadsCreateMissing, ResetEmpties and DeleteRemoves.
- `reset_database` (`app.py` lines 117-132), which removes the database directory, is left out. So are the embedding model set-up (lines 15-20) and the `uvicorn` entry point.
- The MCP tool listing, the `stdio` transport, `async` and logging in `server.py` are left out. The tool listing is static data, and the rest is I/O.
