/**
 * Message-row shaping and author resolution (extract_chats.py): every chat's
 * messages become rows carrying the chat's identity, Apple timestamps become
 * instants, and each row's author is resolved against the flattened contacts
 * by a left join on the phone number.
 *
 * The SQLite queries are replaced by their results: the chat table's rows and,
 * for each chat id, its messages in ascending `message.date` order.
 * Instants are integer microseconds since 1970-01-01 00:00 (the resolution of
 * Python's `datetime`).
 */
module ExtractChats {
  import opened Wrappers
  import opened PyText
  import ExtractContacts

  /** One row of `SELECT ROWID, guid, display_name FROM chat`. */
  datatype ChatRow = ChatRow(rowId: int, guid: string, displayName: Option<string>)

  /** One row of the per-chat message query (`message.ROWID` … `handle.id`). */
  datatype MessageRow = MessageRow(
    rowId: int,
    text: Option<string>,
    date: Option<int>,
    dateDelivered: Option<int>,
    dateRead: Option<int>,
    isFromMe: int,
    handleId: Option<string>)

  /** One dict appended to `data`: a message with its chat's identity, before the author join. */
  datatype MessageData = MessageData(
    chatId: int,
    chatGuid: string,
    groupChatName: Option<string>,
    authorHandle: Option<string>,
    text: Option<string>,
    dateSent: Option<int>,
    dateDelivered: Option<int>,
    dateRead: Option<int>)

  /** One row of a chat's DataFrame after the join: the message data and the resolved `author_name`. */
  datatype Row = Row(
    chatId: int,
    chatGuid: string,
    groupChatName: Option<string>,
    authorHandle: Option<string>,
    text: Option<string>,
    dateSent: Option<int>,
    dateDelivered: Option<int>,
    dateRead: Option<int>,
    authorName: Option<string>)

  const MicrosPerSecond: int := 1_000_000

  /** 2001-01-01 00:00, the Apple epoch, as an instant. */
  const AppleEpoch: int := 978_307_200 * MicrosPerSecond

  /** The literal author used for the user's own messages. */
  const Me: string := "Me"

  /**
   * parse_apple_timestamp: a falsy timestamp (NULL or 0) gives None; otherwise the
   * Apple epoch plus `ts` nanoseconds, rounded to the nearest microsecond.
   */
  function ParseAppleTimestamp(ts: Option<int>): (t: Option<int>)
    ensures t.None? <==> (ts.None? || ts.value == 0)
    ensures t.Some? ==> t.value - AppleEpoch == (ts.value + 500) / 1000
  {
    if ts.None? || ts.value == 0 then None else Some(AppleEpoch + (ts.value + 500) / 1000)
  }

  /** A later Apple timestamp never parses to an earlier instant. */
  lemma ParseAppleTimestampMonotone(a: int, b: int)
    requires a != 0 && b != 0 && a <= b
    ensures ParseAppleTimestamp(Some(a)).value <= ParseAppleTimestamp(Some(b)).value
  {
    DivMonotone(a + 500, b + 500, 1000);
  }

  lemma {:induction false} DivMonotone(x: int, y: int, d: int)
    requires x <= y && d > 0
    ensures x / d <= y / d
  {
    if x / d > y / d {
      calc {
        y;
      < { assert y == d * (y / d) + y % d; }
        d * (y / d) + d;
      == d * (y / d + 1);
      <= { MulMonotone(d, y / d + 1, x / d); }
        d * (x / d);
      <= x;
      }
    }
  }

  lemma MulMonotone(d: int, a: int, b: int)
    requires d > 0 && a <= b
    ensures d * a <= d * b
  {
  }

  /** `chat[2] if chat[2] else None`. */
  function GroupChatName(displayName: Option<string>): (g: Option<string>)
    ensures g.None? <==> (displayName.None? || displayName.value == "")
    ensures g.Some? ==> g == displayName
  {
    if displayName.Some? && displayName.value != "" then displayName else None
  }

  /** The dict built for one message of `chat`. */
  function MessageDataOf(chat: ChatRow, m: MessageRow): (d: MessageData)
    ensures d.authorHandle == if m.isFromMe != 0 then Some(Me) else m.handleId
  {
    MessageData(
      chat.rowId, chat.guid, GroupChatName(chat.displayName),
      if m.isFromMe != 0 then Some(Me) else m.handleId,
      m.text,
      ParseAppleTimestamp(m.date), ParseAppleTimestamp(m.dateDelivered), ParseAppleTimestamp(m.dateRead))
  }

  // ---------------------------------------------------------------- the author join

  /** The contacts whose `Phone Number` equals `handle` (NULL keys never match), in contact order. */
  function PhoneMatches(contacts: seq<ExtractContacts.ContactEntry>, handle: Option<string>): (ms: seq<ExtractContacts.ContactEntry>)
    ensures forall e :: e in ms ==> e in contacts && handle.Some? && e.phoneNumber == handle
    ensures forall e :: e in contacts && handle.Some? && e.phoneNumber == handle ==> e in ms
  {
    if contacts == [] then []
    else
      var rest := PhoneMatches(contacts[1..], handle);
      assert forall e :: e in contacts && e != contacts[0] ==> e in contacts[1..];
      if handle.Some? && contacts[0].phoneNumber == handle then [contacts[0]] + rest else rest
  }

  function RowOf(d: MessageData, name: Option<string>): Row {
    Row(d.chatId, d.chatGuid, d.groupChatName, d.authorHandle, d.text,
        d.dateSent, d.dateDelivered, d.dateRead,
        if d.authorHandle == Some(Me) then Some(Me) else name)
  }

  /** The rows the left join and `author_name` rule produce for one message. */
  function JoinedRows(d: MessageData, contacts: seq<ExtractContacts.ContactEntry>): seq<Row> {
    var ms := PhoneMatches(contacts, d.authorHandle);
    if ms == [] then [RowOf(d, None)]
    else seq(|ms|, i requires 0 <= i < |ms| => RowOf(d, Some(ms[i].fields.name)))
  }

  /** The left join of a chat's messages with the contacts, followed by the `author_name` column. */
  function ResolveAuthors(data: seq<MessageData>, contacts: seq<ExtractContacts.ContactEntry>): seq<Row> {
    if data == [] then []
    else JoinedRows(data[0], contacts) + ResolveAuthors(data[1..], contacts)
  }

  /** The rows of one message as the message data they carry: the join only adds `author_name`. */
  function DataOf(r: Row): MessageData {
    MessageData(r.chatId, r.chatGuid, r.groupChatName, r.authorHandle, r.text, r.dateSent, r.dateDelivered, r.dateRead)
  }

  /**
   * The left join keeps every message, in order: a message without a matching contact
   * gives one row, a message whose handle matches k contacts gives k rows.
   */
  lemma JoinedRowsOfMessage(d: MessageData, contacts: seq<ExtractContacts.ContactEntry>)
    ensures var rows := JoinedRows(d, contacts);
      && |rows| == (if |PhoneMatches(contacts, d.authorHandle)| == 0 then 1 else |PhoneMatches(contacts, d.authorHandle)|)
      && forall r :: r in rows ==> DataOf(r) == d
  {
  }

  /**
   * `author_name` is "Me" for the user's own handle; otherwise the name of a contact whose
   * phone number equals the handle; otherwise null.
   */
  lemma {:induction false} AuthorNameRule(data: seq<MessageData>, contacts: seq<ExtractContacts.ContactEntry>, r: Row)
    requires r in ResolveAuthors(data, contacts)
    ensures r.authorHandle == Some(Me) ==> r.authorName == Some(Me)
    ensures r.authorHandle != Some(Me) && r.authorName.Some? ==>
      exists e :: e in contacts && e.phoneNumber == r.authorHandle && e.fields.name == r.authorName.value
    ensures r.authorHandle != Some(Me) && r.authorName.None? ==>
      forall e :: e in contacts ==> r.authorHandle.None? || e.phoneNumber != r.authorHandle
  {
    if data != [] {
      var rows := JoinedRows(data[0], contacts);
      if r in rows {
        var ms := PhoneMatches(contacts, data[0].authorHandle);
        if ms != [] {
          var i :| 0 <= i < |ms| && rows[i] == r;
          assert ms[i] in ms;
        }
      } else {
        AuthorNameRule(data[1..], contacts, r);
      }
    }
  }

  /** One row per message when no two contacts share a phone number: the join is then a pure column addition. */
  lemma {:induction false} ResolveAuthorsKeepsMessages(data: seq<MessageData>, contacts: seq<ExtractContacts.ContactEntry>)
    requires forall i, j :: 0 <= i < j < |contacts| && contacts[i].phoneNumber.Some? ==> contacts[i].phoneNumber != contacts[j].phoneNumber
    ensures |ResolveAuthors(data, contacts)| == |data|
    ensures forall k :: 0 <= k < |data| ==> DataOf(ResolveAuthors(data, contacts)[k]) == data[k]
  {
    if data != [] {
      ResolveAuthorsKeepsMessages(data[1..], contacts);
      AtMostOneMatch(contacts, data[0].authorHandle);
    }
  }

  lemma {:induction false} AtMostOneMatch(contacts: seq<ExtractContacts.ContactEntry>, handle: Option<string>)
    requires forall i, j :: 0 <= i < j < |contacts| && contacts[i].phoneNumber.Some? ==> contacts[i].phoneNumber != contacts[j].phoneNumber
    ensures |PhoneMatches(contacts, handle)| <= 1
  {
    if contacts != [] {
      if handle.Some? && contacts[0].phoneNumber == handle {
        forall e | e in contacts[1..] ensures e.phoneNumber != handle {
          var j :| 0 <= j < |contacts[1..]| && contacts[1..][j] == e;
          assert contacts[j + 1] == e;
        }
        NoPhoneMatches(contacts[1..], handle);
      } else {
        AtMostOneMatch(contacts[1..], handle);
      }
    }
  }

  lemma {:induction false} NoPhoneMatches(contacts: seq<ExtractContacts.ContactEntry>, handle: Option<string>)
    requires forall e :: e in contacts ==> e.phoneNumber != handle
    ensures PhoneMatches(contacts, handle) == []
  {
    if contacts != [] {
      assert contacts[0] in contacts;
      NoPhoneMatches(contacts[1..], handle);
    }
  }

  /**
   * An e-mail handle never resolves to a name when the contacts are flattened
   * address-book entries: their phone numbers are cleaned (digits and '+' only), and
   * e-mail entries have no phone number.
   */
  lemma EmailHandlesNeverResolve(d: MessageData, contacts: seq<ExtractContacts.ContactEntry>)
    requires forall e :: e in contacts ==> e.phoneNumber.None? || ExtractContacts.DialString(e.phoneNumber.value)
    requires d.authorHandle.Some? && '@' in d.authorHandle.value
    ensures JoinedRows(d, contacts) == [RowOf(d, None)]
    ensures forall r :: r in JoinedRows(d, contacts) ==> r.authorName.None?
  {
    var h := d.authorHandle.value;
    var k :| 0 <= k < |h| && h[k] == '@';
    forall e | e in contacts ensures e.phoneNumber != d.authorHandle {
      if e.phoneNumber == d.authorHandle {
        assert false;
      }
    }
    NoPhoneMatches(contacts, d.authorHandle);
    assert Me == "Me";
    assert |Me| == 2 && Me[0] != '@' && Me[1] != '@';
  }

  // ---------------------------------------------------------------- the chat loop

  /** The DataFrame of one chat: its messages as rows, joined with the contacts. */
  function ChatFrame(chat: ChatRow, messages: seq<MessageRow>, contacts: seq<ExtractContacts.ContactEntry>): seq<Row> {
    ResolveAuthors(seq(|messages|, i requires 0 <= i < |messages| => MessageDataOf(chat, messages[i])), contacts)
  }

  /** The list extract_chats returns: the frames of the chats that have messages, in chat-table order. */
  function ChatFrames(chats: seq<ChatRow>, messagesOf: int -> seq<MessageRow>, contacts: seq<ExtractContacts.ContactEntry>): seq<seq<Row>> {
    if chats == [] then []
    else
      var chat := chats[|chats| - 1];
      var earlier := ChatFrames(chats[..|chats| - 1], messagesOf, contacts);
      if messagesOf(chat.rowId) == [] then earlier else earlier + [ChatFrame(chat, messagesOf(chat.rowId), contacts)]
  }

  /** extract_chats, with the two SQLite queries replaced by `chats` and `messagesOf`. */
  method ExtractChatsFrom(chats: seq<ChatRow>, messagesOf: int -> seq<MessageRow>, contacts: seq<ExtractContacts.ContactEntry>)
    returns (chatDfs: seq<seq<Row>>)
    ensures chatDfs == ChatFrames(chats, messagesOf, contacts)
  {
    chatDfs := [];
    for n := 0 to |chats|
      invariant chatDfs == ChatFrames(chats[..n], messagesOf, contacts)
    {
      assert chats[..n + 1][..n] == chats[..n];
      var chat := chats[n];
      var groupChatName := GroupChatName(chat.displayName);
      var messages := messagesOf(chat.rowId);
      var data: seq<MessageData> := [];
      for k := 0 to |messages|
        invariant data == seq(k, i requires 0 <= i < k => MessageDataOf(chat, messages[i]))
      {
        var msg := messages[k];
        var author := if msg.isFromMe != 0 then Some(Me) else msg.handleId;
        data := data + [MessageData(chat.rowId, chat.guid, groupChatName, author, msg.text,
          ParseAppleTimestamp(msg.date), ParseAppleTimestamp(msg.dateDelivered), ParseAppleTimestamp(msg.dateRead))];
      }
      if |data| == 0 {
        continue;
      }
      chatDfs := chatDfs + [ResolveAuthors(data, contacts)];
    }
    assert chats[..|chats|] == chats;
  }

  // ---------------------------------------------------------------- properties of the frames

  /** Every row of a chat's frame carries that chat's id, guid and group name; a frame is empty only for a chat without messages. */
  lemma {:induction false} ChatFrameRows(chat: ChatRow, messages: seq<MessageRow>, contacts: seq<ExtractContacts.ContactEntry>)
    ensures |ChatFrame(chat, messages, contacts)| >= |messages|
    ensures forall r :: r in ChatFrame(chat, messages, contacts) ==>
      r.chatId == chat.rowId && r.chatGuid == chat.guid && r.groupChatName == GroupChatName(chat.displayName)
  {
    var data := seq(|messages|, i requires 0 <= i < |messages| => MessageDataOf(chat, messages[i]));
    ResolveAuthorsRows(data, contacts);
  }

  /**
   * The left join loses no message and invents none: every message has a row carrying it,
   * and every row carries one of the messages.
   */
  lemma {:induction false} ResolveAuthorsRows(data: seq<MessageData>, contacts: seq<ExtractContacts.ContactEntry>)
    ensures |ResolveAuthors(data, contacts)| >= |data|
    ensures forall r :: r in ResolveAuthors(data, contacts) ==> DataOf(r) in data
    ensures forall i :: 0 <= i < |data| ==> exists r :: r in ResolveAuthors(data, contacts) && DataOf(r) == data[i]
  {
    if data != [] {
      var first := JoinedRows(data[0], contacts);
      var rest := ResolveAuthors(data[1..], contacts);
      ResolveAuthorsRows(data[1..], contacts);
      JoinedRowsOfMessage(data[0], contacts);
      forall i | 0 <= i < |data| ensures exists r :: r in first + rest && DataOf(r) == data[i] {
        if i == 0 {
          assert first[0] in first + rest;
        } else {
          assert data[i] == data[1..][i - 1];
          var r :| r in rest && DataOf(r) == data[1..][i - 1];
          assert r in first + rest;
        }
      }
    }
  }

  /** The join keeps the message order: joining two runs of messages joins their rows in that order. */
  lemma {:induction false} ResolveAuthorsAppend(a: seq<MessageData>, b: seq<MessageData>, contacts: seq<ExtractContacts.ContactEntry>)
    ensures ResolveAuthors(a + b, contacts) == ResolveAuthors(a, contacts) + ResolveAuthors(b, contacts)
  {
    if a == [] {
      assert a + b == b;
    } else {
      assert (a + b)[0] == a[0] && (a + b)[1..] == a[1..] + b;
      ResolveAuthorsAppend(a[1..], b, contacts);
      AppendAssoc(JoinedRows(a[0], contacts), ResolveAuthors(a[1..], contacts), ResolveAuthors(b, contacts));
    }
  }

  /** The frames of extract_chats are non-empty and each belongs to one chat, in chat-table order. */
  lemma {:induction false} ChatFramesNonEmpty(chats: seq<ChatRow>, messagesOf: int -> seq<MessageRow>, contacts: seq<ExtractContacts.ContactEntry>)
    ensures |ChatFrames(chats, messagesOf, contacts)| <= |chats|
    ensures forall f :: f in ChatFrames(chats, messagesOf, contacts) ==> f != []
  {
    if chats != [] {
      var chat := chats[|chats| - 1];
      ChatFramesNonEmpty(chats[..|chats| - 1], messagesOf, contacts);
      ChatFrameRows(chat, messagesOf(chat.rowId), contacts);
    }
  }

  /** The user's own messages always carry the author name "Me", whatever the contacts hold. */
  lemma OwnMessagesAreMe(chat: ChatRow, messages: seq<MessageRow>, contacts: seq<ExtractContacts.ContactEntry>, r: Row)
    requires r in ChatFrame(chat, messages, contacts)
    requires r.authorHandle == Some(Me)
    ensures r.authorName == Some(Me)
  {
    var data := seq(|messages|, i requires 0 <= i < |messages| => MessageDataOf(chat, messages[i]));
    AuthorNameRule(data, contacts, r);
  }
}
