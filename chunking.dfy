/**
 * The conversation chunker (create_chunks_with_overlap in
 * generate_embedding_vectors.py): one chat's rows are sorted by `date_sent` and
 * scanned once per phase; each scan cuts the sorted messages into contiguous runs
 * and every run becomes one chunk (text plus metadata).
 *
 * A new run starts on the first message, after a silence longer than 30 minutes,
 * or once the message lies more than `window_minutes` after the run's first
 * message (both compared on the phase-shifted clock). Because the shift is added
 * to both sides of the window test it cancels, so all three phases cut the
 * messages identically (RunsIgnoreShift).
 */
module Chunking {
  import opened Wrappers
  import opened PyText
  import ExtractChats

  type Row = ExtractChats.Row

  const MicrosPerSecond: int := ExtractChats.MicrosPerSecond

  /** The silence (30 minutes) beyond which a new run always starts. */
  const GapMicros: int := 30 * 60 * MicrosPerSecond

  /** The number of phases: shifts 0, `offset_minutes` and 2 × `offset_minutes`. */
  const NumPhases: nat := 3

  const DefaultWindowMinutes: int := 30
  const DefaultOffsetMinutes: int := 10

  /** What Python raises when a row's `date_sent` is None and the phase shift is added to it. */
  const MissingDateError: string := "unsupported operand type(s) for +: 'NoneType' and 'datetime.timedelta'"

  /** A row whose `date_sent` is the instant `sent`. */
  datatype Message = Message(row: Row, sent: int)

  /** The metadata dict of one chunk; `authors` is the set that is rendered comma-joined. */
  datatype ChunkMetadata = ChunkMetadata(
    chatId: int,
    groupChatName: Option<string>,
    startTime: int,
    endTime: int,
    authors: set<string>,
    offsetMinutes: int)

  /** One `(chunk_text, metadata)` tuple. */
  datatype Chunk = Chunk(text: string, metadata: ChunkMetadata)

  // ---------------------------------------------------------------- sorting

  predicate SortedBySent(ms: seq<Message>) {
    forall i, j :: 0 <= i < j < |ms| ==> ms[i].sent <= ms[j].sent
  }

  predicate HasMissingDate(rows: seq<Row>) {
    exists i :: 0 <= i < |rows| && rows[i].dateSent.None?
  }

  /** The rows with their instants, when every row has one. */
  function Stamp(rows: seq<Row>): (ms: seq<Message>)
    requires !HasMissingDate(rows)
    ensures |ms| == |rows|
    ensures forall i :: 0 <= i < |rows| ==> ms[i] == Message(rows[i], rows[i].dateSent.value)
  {
    seq(|rows|, i requires 0 <= i < |rows| => Message(rows[i], rows[i].dateSent.value))
  }

  /** Inserts `m` into sorted `s` after every message that is not later than it. */
  function Insert(s: seq<Message>, m: Message): (r: seq<Message>)
    requires SortedBySent(s)
    ensures SortedBySent(r)
    ensures multiset(r) == multiset(s) + multiset{m}
  {
    if s == [] || s[|s| - 1].sent <= m.sent then
      AppendSorted(s, m);
      s + [m]
    else
      var init, last := s[..|s| - 1], s[|s| - 1];
      assert s == init + [last];
      var r0 := Insert(init, m);
      InsertedStaysBelow(s, m, r0);
      AppendSorted(r0, last);
      r0 + [last]
  }

  /** Appending a message no earlier than the last one keeps a sequence sorted. */
  lemma AppendSorted(s: seq<Message>, m: Message)
    requires SortedBySent(s)
    requires s == [] || s[|s| - 1].sent <= m.sent
    ensures SortedBySent(s + [m])
  {
    var r := s + [m];
    forall i, j | 0 <= i < j < |r| ensures r[i].sent <= r[j].sent {
      if j == |s| && i < |s| - 1 {
        assert r[i].sent <= s[|s| - 1].sent;
      }
    }
  }

  /** Inserting `m`, which is earlier than the last message of `s`, into the rest stays below that message. */
  lemma InsertedStaysBelow(s: seq<Message>, m: Message, r0: seq<Message>)
    requires SortedBySent(s) && s != [] && m.sent < s[|s| - 1].sent
    requires multiset(r0) == multiset(s[..|s| - 1]) + multiset{m}
    requires SortedBySent(r0)
    ensures r0 == [] || r0[|r0| - 1].sent <= s[|s| - 1].sent
  {
    if r0 != [] {
      var x := r0[|r0| - 1];
      assert x in multiset(r0);
      if x != m {
        assert x in multiset(s[..|s| - 1]);
        var i :| 0 <= i < |s| - 1 && s[..|s| - 1][i] == x;
        assert s[i] == x;
      }
    }
  }

  /**
   * `df.sort("date_sent")`: a sorted permutation. Messages sent at the same instant are kept
   * in their input order; polars promises no order for them.
   */
  function SortBySent(ms: seq<Message>): (r: seq<Message>)
    ensures SortedBySent(r)
    ensures multiset(r) == multiset(ms)
  {
    if ms == [] then []
    else
      assert ms == ms[..|ms| - 1] + [ms[|ms| - 1]];
      Insert(SortBySent(ms[..|ms| - 1]), ms[|ms| - 1])
  }

  // ---------------------------------------------------------------- the scan

  /**
   * The break test for message `m` against an open run from `first` to `last`:
   * a silence longer than 30 minutes, or more than `windowMinutes` minutes between the
   * shifted time of `m` and the shifted time of the run's first message.
   */
  predicate Breaks(first: Message, last: Message, m: Message, windowMinutes: int, shift: int) {
    || m.sent - last.sent > GapMicros
    || (m.sent + shift) - (first.sent + shift) > windowMinutes * 60 * MicrosPerSecond
  }

  /** Whether `m` starts a new run: there is no open run, or the open run breaks before `m`. */
  predicate StartsRun(open: seq<Message>, m: Message, windowMinutes: int, shift: int) {
    open == [] || Breaks(open[0], open[|open| - 1], m, windowMinutes, shift)
  }

  /** The scan state: the runs already flushed and the open run. */
  datatype ScanState = ScanState(closed: seq<seq<Message>>, open: seq<Message>)

  /** The state after one message of the scan. */
  function Step(s: ScanState, m: Message, windowMinutes: int, shift: int): ScanState {
    if StartsRun(s.open, m, windowMinutes, shift) then
      ScanState(if s.open == [] then s.closed else s.closed + [s.open], [m])
    else ScanState(s.closed, s.open + [m])
  }

  /** The scan state after the messages `ms` of one phase. */
  function ScanPrefix(ms: seq<Message>, windowMinutes: int, shift: int): (s: ScanState)
    ensures forall i :: 0 <= i < |s.closed| ==> s.closed[i] != []
    ensures s.open == [] <==> ms == []
  {
    if ms == [] then ScanState([], [])
    else Step(ScanPrefix(ms[..|ms| - 1], windowMinutes, shift), ms[|ms| - 1], windowMinutes, shift)
  }

  /** The runs of one phase: the flushed runs followed by the final open run. */
  function Runs(ms: seq<Message>, windowMinutes: int, shift: int): (runs: seq<seq<Message>>)
    ensures forall i :: 0 <= i < |runs| ==> runs[i] != []
  {
    var s := ScanPrefix(ms, windowMinutes, shift);
    if s.open == [] then s.closed else s.closed + [s.open]
  }

  // ---------------------------------------------------------------- chunks

  /** The author column: `author_name` when the frame has it, else `author_handle`. */
  function AuthorOf(r: Row, hasAuthorName: bool): Option<string> {
    if hasAuthorName then r.authorName else r.authorHandle
  }

  /** The non-null texts of a run, in order. */
  function Texts(run: seq<Message>): seq<string> {
    if run == [] then []
    else Texts(run[..|run| - 1]) + (if run[|run| - 1].row.text.Some? then [run[|run| - 1].row.text.value] else [])
  }

  /** The distinct non-null authors of a run. */
  function Authors(run: seq<Message>, hasAuthorName: bool): set<string> {
    set i | 0 <= i < |run| && AuthorOf(run[i].row, hasAuthorName).Some? :: AuthorOf(run[i].row, hasAuthorName).value
  }

  /** The chunk of one run (its fields are stated by MakeChunkFields). */
  function MakeChunk(run: seq<Message>, hasAuthorName: bool, offsetMinutes: int): Chunk
    requires run != []
  {
    Chunk(
      Join("\n", Texts(run)),
      ChunkMetadata(run[0].row.chatId, run[0].row.groupChatName, run[0].sent, run[|run| - 1].sent,
                    Authors(run, hasAuthorName), offsetMinutes))
  }

  /**
   * The chunk of a run holds the newline-joined non-null texts, the chat identity of the
   * first message, the first and last `date_sent`, exactly the distinct non-null authors
   * of the run and the phase's offset in minutes.
   */
  lemma MakeChunkFields(run: seq<Message>, hasAuthorName: bool, offsetMinutes: int)
    requires run != []
    ensures var c := MakeChunk(run, hasAuthorName, offsetMinutes);
      && c.text == Join("\n", Texts(run))
      && c.metadata.chatId == run[0].row.chatId && c.metadata.groupChatName == run[0].row.groupChatName
      && c.metadata.startTime == run[0].sent && c.metadata.endTime == run[|run| - 1].sent
      && (forall a :: a in c.metadata.authors <==> exists m :: m in run && AuthorOf(m.row, hasAuthorName) == Some(a))
      && c.metadata.offsetMinutes == offsetMinutes
  {
    var authors := Authors(run, hasAuthorName);
    forall a ensures a in authors <==> exists m :: m in run && AuthorOf(m.row, hasAuthorName) == Some(a) {
      if exists m :: m in run && AuthorOf(m.row, hasAuthorName) == Some(a) {
        var m :| m in run && AuthorOf(m.row, hasAuthorName) == Some(a);
        var i :| 0 <= i < |run| && run[i] == m;
        assert a in authors;
      }
    }
  }

  /** The chunks of the runs of one phase, in order. */
  function PhaseChunks(runs: seq<seq<Message>>, hasAuthorName: bool, offsetMinutes: int): (cs: seq<Chunk>)
    requires forall i :: 0 <= i < |runs| ==> runs[i] != []
    ensures |cs| == |runs|
  {
    if runs == [] then []
    else PhaseChunks(runs[..|runs| - 1], hasAuthorName, offsetMinutes) + [MakeChunk(runs[|runs| - 1], hasAuthorName, offsetMinutes)]
  }

  /** The chunk at position `i` of a phase is the chunk of its `i`-th run. */
  lemma {:induction false} PhaseChunksAt(runs: seq<seq<Message>>, hasAuthorName: bool, offsetMinutes: int, i: nat)
    requires forall j :: 0 <= j < |runs| ==> runs[j] != []
    requires i < |runs|
    ensures PhaseChunks(runs, hasAuthorName, offsetMinutes)[i] == MakeChunk(runs[i], hasAuthorName, offsetMinutes)
  {
    if i < |runs| - 1 {
      PhaseChunksAt(runs[..|runs| - 1], hasAuthorName, offsetMinutes, i);
    }
  }

  /** The shift of a phase whose offset is `minutes`, in microseconds. */
  function Shift(minutes: int): int {
    minutes * 60 * MicrosPerSecond
  }

  /** The chunks of the phase shifted by `minutes`, for the sorted messages `ms`. */
  function PhaseOutput(ms: seq<Message>, hasAuthorName: bool, windowMinutes: int, minutes: int): seq<Chunk> {
    PhaseChunks(Runs(ms, windowMinutes, Shift(minutes)), hasAuthorName, minutes)
  }

  /** The chunks of the first `k` phases, phase by phase. */
  function PhasesUpTo(ms: seq<Message>, hasAuthorName: bool, windowMinutes: int, offsetMinutes: int, k: nat): seq<Chunk> {
    if k == 0 then []
    else PhasesUpTo(ms, hasAuthorName, windowMinutes, offsetMinutes, k - 1) + PhaseOutput(ms, hasAuthorName, windowMinutes, (k - 1) * offsetMinutes)
  }

  /** All the chunks of sorted messages: every phase, in phase order. */
  function OverlappingChunks(ms: seq<Message>, hasAuthorName: bool, windowMinutes: int, offsetMinutes: int): seq<Chunk> {
    PhasesUpTo(ms, hasAuthorName, windowMinutes, offsetMinutes, NumPhases)
  }

  /**
   * create_chunks_with_overlap: sort the rows by `date_sent`, then scan them once per
   * phase, flushing a chunk each time a new run starts and once after the last row.
   * A row without `date_sent` raises TypeError (nulls sort first, so before any chunk).
   */
  method CreateChunksWithOverlap(rows: seq<Row>, hasAuthorName: bool, windowMinutes: int, offsetMinutes: int)
    returns (result: Result<seq<Chunk>, string>)
    ensures result.Failure? <==> HasMissingDate(rows)
    ensures result.Failure? ==> result.error == MissingDateError
    ensures result.Success? ==> result.value == OverlappingChunks(SortBySent(Stamp(rows)), hasAuthorName, windowMinutes, offsetMinutes)
  {
    if HasMissingDate(rows) {
      return Failure(MissingDateError);
    }
    var ms := SortBySent(Stamp(rows));
    var chunks: seq<Chunk> := [];
    for k := 0 to NumPhases
      invariant chunks == PhasesUpTo(ms, hasAuthorName, windowMinutes, offsetMinutes, k)
    {
      chunks := ScanPhase(chunks, ms, hasAuthorName, windowMinutes, k * offsetMinutes);
    }
    return Success(chunks);
  }

  /**
   * One iteration of the phase loop of create_chunks_with_overlap: scans the sorted
   * messages with the phase's offset of `minutes` and appends the phase's chunks to `chunks0`.
   */
  method ScanPhase(chunks0: seq<Chunk>, ms: seq<Message>, hasAuthorName: bool, windowMinutes: int, minutes: int)
    returns (chunks: seq<Chunk>)
    ensures chunks == chunks0 + PhaseOutput(ms, hasAuthorName, windowMinutes, minutes)
  {
    chunks := chunks0;
    var shift := minutes * 60 * MicrosPerSecond;
    var current: seq<Message> := [];
    var chunkStartTime: Option<int> := None;
    var lastMessageTime: Option<int> := None;
    ghost var closed: seq<seq<Message>> := [];
    for i := 0 to |ms|
      invariant ScanPrefix(ms[..i], windowMinutes, shift) == ScanState(closed, current)
      invariant forall j :: 0 <= j < |closed| ==> closed[j] != []
      invariant chunks == chunks0 + PhaseChunks(closed, hasAuthorName, minutes)
      invariant chunkStartTime.None? <==> current == []
      invariant lastMessageTime.None? <==> current == []
      invariant current != [] ==> chunkStartTime.value == current[0].sent + shift
      invariant current != [] ==> lastMessageTime.value == current[|current| - 1].sent
    {
      var row := ms[i];
      ScanAdvance(ms, i, windowMinutes, shift);
      var messageTime := row.sent;
      var adjustedTime := messageTime + shift;
      BreakTest(current, row, windowMinutes, shift, chunkStartTime, lastMessageTime);
      var startNew :=
        || chunkStartTime.None?
        || (lastMessageTime.Some? && messageTime - lastMessageTime.value > GapMicros)
        || (chunkStartTime.Some? && adjustedTime - chunkStartTime.value > windowMinutes * 60 * MicrosPerSecond);
      if startNew {
        if current != [] {
          Flush(chunks0, chunks, closed, current, hasAuthorName, minutes);
          chunks := chunks + [MakeChunk(current, hasAuthorName, minutes)];
          closed := closed + [current];
        }
        current := [row];
        chunkStartTime := Some(adjustedTime);
      } else {
        current := current + [row];
      }
      lastMessageTime := Some(messageTime);
    }
    assert ms[..|ms|] == ms;
    if current != [] {
      Flush(chunks0, chunks, closed, current, hasAuthorName, minutes);
      chunks := chunks + [MakeChunk(current, hasAuthorName, minutes)];
    }
  }

  /** The scan state after one more message. */
  lemma ScanAdvance(ms: seq<Message>, i: nat, windowMinutes: int, shift: int)
    requires i < |ms|
    ensures ScanPrefix(ms[..i + 1], windowMinutes, shift) == Step(ScanPrefix(ms[..i], windowMinutes, shift), ms[i], windowMinutes, shift)
  {
    assert ms[..i + 1][..i] == ms[..i];
  }

  /** The three-way test of the scan loop, read on the tracked times, is StartsRun. */
  lemma BreakTest(current: seq<Message>, m: Message, windowMinutes: int, shift: int, chunkStartTime: Option<int>, lastMessageTime: Option<int>)
    requires chunkStartTime.None? <==> current == []
    requires lastMessageTime.None? <==> current == []
    requires current != [] ==> chunkStartTime.value == current[0].sent + shift
    requires current != [] ==> lastMessageTime.value == current[|current| - 1].sent
    ensures (|| chunkStartTime.None?
             || (lastMessageTime.Some? && m.sent - lastMessageTime.value > GapMicros)
             || (chunkStartTime.Some? && (m.sent + shift) - chunkStartTime.value > windowMinutes * 60 * MicrosPerSecond))
            <==> StartsRun(current, m, windowMinutes, shift)
  {
  }

  /** Flushing one more run appends its chunk. */
  lemma Flush(chunks0: seq<Chunk>, chunks: seq<Chunk>, closed: seq<seq<Message>>, run: seq<Message>, hasAuthorName: bool, minutes: int)
    requires forall i :: 0 <= i < |closed| ==> closed[i] != []
    requires run != []
    requires chunks == chunks0 + PhaseChunks(closed, hasAuthorName, minutes)
    ensures chunks + [MakeChunk(run, hasAuthorName, minutes)] == chunks0 + PhaseChunks(closed + [run], hasAuthorName, minutes)
  {
    assert (closed + [run])[..|closed|] == closed;
  }

  // ---------------------------------------------------------------- properties of the scan

  /** The break test without the phase shift: too long a silence, or too far from the run's first message. */
  predicate Separated(first: Message, last: Message, m: Message, windowMinutes: int) {
    m.sent - last.sent > GapMicros || m.sent - first.sent > windowMinutes * 60 * MicrosPerSecond
  }

  /** The phase shift is added to both sides of the window test, so it never changes the outcome. */
  lemma BreaksIgnoreShift(first: Message, last: Message, m: Message, windowMinutes: int, shift: int)
    ensures Breaks(first, last, m, windowMinutes, shift) <==> Separated(first, last, m, windowMinutes)
  {
  }

  /** The scan of every phase is the same: the offset never moves a cut. */
  lemma {:induction false} ScanIgnoresShift(ms: seq<Message>, windowMinutes: int, shift1: int, shift2: int)
    ensures ScanPrefix(ms, windowMinutes, shift1) == ScanPrefix(ms, windowMinutes, shift2)
  {
    if ms != [] {
      ScanIgnoresShift(ms[..|ms| - 1], windowMinutes, shift1, shift2);
      var s := ScanPrefix(ms[..|ms| - 1], windowMinutes, shift1);
      if s.open != [] {
        BreaksIgnoreShift(s.open[0], s.open[|s.open| - 1], ms[|ms| - 1], windowMinutes, shift1);
        BreaksIgnoreShift(s.open[0], s.open[|s.open| - 1], ms[|ms| - 1], windowMinutes, shift2);
      }
    }
  }

  lemma RunsIgnoreShift(ms: seq<Message>, windowMinutes: int, shift1: int, shift2: int)
    ensures Runs(ms, windowMinutes, shift1) == Runs(ms, windowMinutes, shift2)
  {
    ScanIgnoresShift(ms, windowMinutes, shift1, shift2);
  }

  /** The messages of consecutive runs, run after run. */
  function Concat(runs: seq<seq<Message>>): (ms: seq<Message>)
    ensures runs == [] ==> ms == []
  {
    if runs == [] then [] else Concat(runs[..|runs| - 1]) + runs[|runs| - 1]
  }

  lemma ConcatAppend(runs: seq<seq<Message>>, run: seq<Message>)
    ensures Concat(runs + [run]) == Concat(runs) + run
  {
    assert (runs + [run])[..|runs|] == runs;
  }

  /** The flushed runs followed by the open run are exactly the messages scanned so far. */
  lemma {:induction false} ScanCovers(ms: seq<Message>, windowMinutes: int, shift: int)
    ensures Concat(ScanPrefix(ms, windowMinutes, shift).closed) + ScanPrefix(ms, windowMinutes, shift).open == ms
  {
    if ms != [] {
      var init, m := ms[..|ms| - 1], ms[|ms| - 1];
      assert ms == init + [m];
      ScanCovers(init, windowMinutes, shift);
      var s := ScanPrefix(init, windowMinutes, shift);
      if StartsRun(s.open, m, windowMinutes, shift) && s.open != [] {
        ConcatAppend(s.closed, s.open);
      }
    }
  }

  /** The runs of a phase cut the messages into non-empty consecutive pieces, in order, dropping none. */
  lemma RunsPartition(ms: seq<Message>, windowMinutes: int, shift: int)
    ensures Concat(Runs(ms, windowMinutes, shift)) == ms
    ensures forall i :: 0 <= i < |Runs(ms, windowMinutes, shift)| ==> Runs(ms, windowMinutes, shift)[i] != []
  {
    ScanCovers(ms, windowMinutes, shift);
    var s := ScanPrefix(ms, windowMinutes, shift);
    if s.open != [] {
      ConcatAppend(s.closed, s.open);
    }
  }

  /** No message of a run is separated from its predecessor and the run's first message. */
  predicate Cohesive(run: seq<Message>, windowMinutes: int) {
    forall j :: 0 < j < |run| ==> !Separated(run[0], run[j - 1], run[j], windowMinutes)
  }

  /**
   * A cut of messages into runs that the scan could have made: every run is non-empty and
   * cohesive, and every run after the first starts with a message separated from the run before.
   */
  predicate WellCut(runs: seq<seq<Message>>, windowMinutes: int) {
    && (forall i :: 0 <= i < |runs| ==> runs[i] != [] && Cohesive(runs[i], windowMinutes))
    && (forall i :: 0 < i < |runs| ==>
          Separated(runs[i - 1][0], runs[i - 1][|runs[i - 1]| - 1], runs[i][0], windowMinutes))
  }

  /** A non-empty scan's runs are its flushed runs and its open run. */
  lemma RunsOfScan(ms: seq<Message>, windowMinutes: int, shift: int)
    requires ms != []
    ensures var s := ScanPrefix(ms, windowMinutes, shift);
      Runs(ms, windowMinutes, shift) == s.closed + [s.open]
  {
  }

  /** A new run that is cohesive and separated from the last run extends a well cut. */
  lemma WellCutAddRun(runs: seq<seq<Message>>, run: seq<Message>, windowMinutes: int)
    requires WellCut(runs, windowMinutes)
    requires run != [] && Cohesive(run, windowMinutes)
    requires runs != [] ==> Separated(runs[|runs| - 1][0], runs[|runs| - 1][|runs[|runs| - 1]| - 1], run[0], windowMinutes)
    ensures WellCut(runs + [run], windowMinutes)
  {
    var r := runs + [run];
    forall i | 0 < i < |r| ensures Separated(r[i - 1][0], r[i - 1][|r[i - 1]| - 1], r[i][0], windowMinutes) {
      if i < |runs| {
        assert r[i - 1] == runs[i - 1] && r[i] == runs[i];
      }
    }
  }

  /** Replacing the last run of a well cut by a cohesive run with the same first message keeps it well cut. */
  lemma WellCutReplaceLast(runs: seq<seq<Message>>, run: seq<Message>, windowMinutes: int)
    requires WellCut(runs, windowMinutes) && runs != []
    requires run != [] && Cohesive(run, windowMinutes) && run[0] == runs[|runs| - 1][0]
    ensures WellCut(runs[..|runs| - 1] + [run], windowMinutes)
  {
    var rest := runs[..|runs| - 1];
    assert WellCut(rest, windowMinutes) by {
      forall i | 0 < i < |rest| ensures Separated(rest[i - 1][0], rest[i - 1][|rest[i - 1]| - 1], rest[i][0], windowMinutes) {
        assert rest[i - 1] == runs[i - 1] && rest[i] == runs[i];
      }
    }
    if rest != [] {
      assert rest[|rest| - 1] == runs[|runs| - 2];
    }
    WellCutAddRun(rest, run, windowMinutes);
  }

  /** A message that is not separated from a cohesive run extends it cohesively. */
  lemma CohesiveExtend(run: seq<Message>, m: Message, windowMinutes: int)
    requires run != [] && Cohesive(run, windowMinutes)
    requires !Separated(run[0], run[|run| - 1], m, windowMinutes)
    ensures Cohesive(run + [m], windowMinutes)
  {
    var r := run + [m];
    forall j | 0 < j < |r| ensures !Separated(r[0], r[j - 1], r[j], windowMinutes) {
      if j < |run| {
        assert r[j - 1] == run[j - 1] && r[j] == run[j];
      }
    }
  }

  /** The runs the scan makes are well cut. */
  lemma {:induction false} RunsWellCut(ms: seq<Message>, windowMinutes: int, shift: int)
    ensures WellCut(Runs(ms, windowMinutes, shift), windowMinutes)
  {
    if ms != [] {
      var init, m := ms[..|ms| - 1], ms[|ms| - 1];
      RunsWellCut(init, windowMinutes, shift);
      var s := ScanPrefix(init, windowMinutes, shift);
      if s.open == [] {
        assert Runs(ms, windowMinutes, shift) == [[m]];
      } else {
        RunsOfScan(init, windowMinutes, shift);
        var runs := s.closed + [s.open];
        assert runs[|runs| - 1] == s.open && runs[..|runs| - 1] == s.closed;
        BreaksIgnoreShift(s.open[0], s.open[|s.open| - 1], m, windowMinutes, shift);
        if StartsRun(s.open, m, windowMinutes, shift) {
          WellCutAddRun(runs, [m], windowMinutes);
        } else {
          CohesiveExtend(s.open, m, windowMinutes);
          WellCutReplaceLast(runs, s.open + [m], windowMinutes);
        }
      }
    }
  }

  /** Dropping the last run of a well cut leaves a well cut. */
  lemma WellCutDropRun(runs: seq<seq<Message>>, windowMinutes: int)
    requires WellCut(runs, windowMinutes) && runs != []
    ensures WellCut(runs[..|runs| - 1], windowMinutes)
  {
    var rest := runs[..|runs| - 1];
    forall i | 0 < i < |rest| ensures Separated(rest[i - 1][0], rest[i - 1][|rest[i - 1]| - 1], rest[i][0], windowMinutes) {
      assert rest[i - 1] == runs[i - 1] && rest[i] == runs[i];
    }
  }

  /** Dropping the last message of a longer last run leaves a well cut. */
  lemma WellCutDropMessage(runs: seq<seq<Message>>, windowMinutes: int)
    requires WellCut(runs, windowMinutes) && runs != [] && |runs[|runs| - 1]| > 1
    ensures var last := runs[|runs| - 1];
      WellCut(runs[..|runs| - 1] + [last[..|last| - 1]], windowMinutes)
  {
    var last := runs[|runs| - 1];
    var shorter := last[..|last| - 1];
    forall j | 0 < j < |shorter| ensures !Separated(shorter[0], shorter[j - 1], shorter[j], windowMinutes) {
      assert shorter[j] == last[j] && shorter[j - 1] == last[j - 1];
    }
    WellCutReplaceLast(runs, shorter, windowMinutes);
  }

  /** The scan state is determined by the runs of what was scanned. */
  lemma ScanFromRuns(ms: seq<Message>, runs: seq<seq<Message>>, windowMinutes: int, shift: int)
    requires ms != [] && Runs(ms, windowMinutes, shift) == runs
    ensures runs != []
    ensures ScanPrefix(ms, windowMinutes, shift) == ScanState(runs[..|runs| - 1], runs[|runs| - 1])
  {
    RunsOfScan(ms, windowMinutes, shift);
    var s := ScanPrefix(ms, windowMinutes, shift);
    assert (s.closed + [s.open])[..|s.closed|] == s.closed;
  }

  /** One more scanned message that is separated from the last run starts a run of its own. */
  lemma ScanNewRun(prior: seq<seq<Message>>, x: Message, windowMinutes: int, shift: int)
    requires Runs(Concat(prior), windowMinutes, shift) == prior
    requires prior != [] ==> var open := prior[|prior| - 1]; open != [] && Separated(open[0], open[|open| - 1], x, windowMinutes)
    ensures Runs(Concat(prior) + [x], windowMinutes, shift) == prior + [[x]]
  {
    var ms := Concat(prior) + [x];
    assert ms[..|ms| - 1] == Concat(prior);
    if prior != [] {
      ScanFromRuns(Concat(prior), prior, windowMinutes, shift);
      var open := prior[|prior| - 1];
      BreaksIgnoreShift(open[0], open[|open| - 1], x, windowMinutes, shift);
      assert prior[..|prior| - 1] + [open] == prior;
    }
  }

  /** One more scanned message that is not separated from the last run joins it. */
  lemma ScanJoinRun(prior: seq<seq<Message>>, x: Message, windowMinutes: int, shift: int)
    requires Runs(Concat(prior), windowMinutes, shift) == prior
    requires prior != [] && prior[|prior| - 1] != []
    requires var open := prior[|prior| - 1]; !Separated(open[0], open[|open| - 1], x, windowMinutes)
    ensures Runs(Concat(prior) + [x], windowMinutes, shift) == prior[..|prior| - 1] + [prior[|prior| - 1] + [x]]
  {
    var ms := Concat(prior) + [x];
    assert ms[..|ms| - 1] == Concat(prior);
    ScanFromRuns(Concat(prior), prior, windowMinutes, shift);
    var open := prior[|prior| - 1];
    BreaksIgnoreShift(open[0], open[|open| - 1], x, windowMinutes, shift);
  }

  /** A well-cut run sequence is the only one the scan makes of its messages. */
  lemma {:induction false} WellCutUnique(runs: seq<seq<Message>>, windowMinutes: int, shift: int)
    requires WellCut(runs, windowMinutes)
    ensures Runs(Concat(runs), windowMinutes, shift) == runs
    decreases |Concat(runs)|, 1
  {
    if runs != [] {
      if |runs[|runs| - 1]| == 1 {
        WellCutUniqueNewRun(runs, windowMinutes, shift);
      } else {
        WellCutUniqueJoinRun(runs, windowMinutes, shift);
      }
    }
  }

  /** WellCutUnique when the last run is a single message. */
  lemma {:induction false} WellCutUniqueNewRun(runs: seq<seq<Message>>, windowMinutes: int, shift: int)
    requires WellCut(runs, windowMinutes) && runs != [] && |runs[|runs| - 1]| == 1
    ensures Runs(Concat(runs), windowMinutes, shift) == runs
    decreases |Concat(runs)|, 0
  {
    var rest, last := runs[..|runs| - 1], runs[|runs| - 1];
    assert runs == rest + [last];
    ConcatAppend(rest, last);
    WellCutDropRun(runs, windowMinutes);
    WellCutUnique(rest, windowMinutes, shift);
    if rest != [] {
      assert Separated(runs[|runs| - 2][0], runs[|runs| - 2][|runs[|runs| - 2]| - 1], runs[|runs| - 1][0], windowMinutes);
    }
    ScanNewRun(rest, last[0], windowMinutes, shift);
    assert last == [last[0]];
  }

  /** WellCutUnique when the last run has several messages. */
  lemma {:induction false} WellCutUniqueJoinRun(runs: seq<seq<Message>>, windowMinutes: int, shift: int)
    requires WellCut(runs, windowMinutes) && runs != [] && |runs[|runs| - 1]| > 1
    ensures Runs(Concat(runs), windowMinutes, shift) == runs
    decreases |Concat(runs)|, 0
  {
    var rest, last := runs[..|runs| - 1], runs[|runs| - 1];
    var shorter, x := last[..|last| - 1], last[|last| - 1];
    var prior := rest + [shorter];
    assert runs == rest + [last];
    assert last == shorter + [x];
    assert prior[..|prior| - 1] == rest && prior[|prior| - 1] == shorter;
    ConcatAppend(rest, last);
    ConcatAppend(rest, shorter);
    assert Concat(runs) == Concat(prior) + [x];
    WellCutDropMessage(runs, windowMinutes);
    WellCutUnique(prior, windowMinutes, shift);
    assert !Separated(last[0], last[|last| - 2], last[|last| - 1], windowMinutes);
    ScanJoinRun(prior, x, windowMinutes, shift);
  }

  /** The runs of a phase are exactly the well cut of the messages: the scan's cut is well cut, and no other is. */
  lemma RunsCharacterised(ms: seq<Message>, runs: seq<seq<Message>>, windowMinutes: int, shift: int)
    ensures Runs(ms, windowMinutes, shift) == runs <==> (WellCut(runs, windowMinutes) && Concat(runs) == ms)
  {
    RunsPartition(ms, windowMinutes, shift);
    RunsWellCut(ms, windowMinutes, shift);
    if WellCut(runs, windowMinutes) && Concat(runs) == ms {
      WellCutUnique(runs, windowMinutes, shift);
    }
  }

  // ---------------------------------------------------------------- properties of the chunks

  /** The three phases make the same chunks from the same runs; only `offset_minutes` differs. */
  lemma {:induction false} OverlappingChunksPhases(ms: seq<Message>, hasAuthorName: bool, windowMinutes: int, offsetMinutes: int)
    ensures var runs := Runs(ms, windowMinutes, 0);
      OverlappingChunks(ms, hasAuthorName, windowMinutes, offsetMinutes)
        == PhaseChunks(runs, hasAuthorName, 0) + PhaseChunks(runs, hasAuthorName, offsetMinutes)
           + PhaseChunks(runs, hasAuthorName, 2 * offsetMinutes)
  {
    var runs := Runs(ms, windowMinutes, 0);
    RunsIgnoreShift(ms, windowMinutes, Shift(0 * offsetMinutes), 0);
    RunsIgnoreShift(ms, windowMinutes, Shift(1 * offsetMinutes), 0);
    RunsIgnoreShift(ms, windowMinutes, Shift(2 * offsetMinutes), 0);
    assert PhaseOutput(ms, hasAuthorName, windowMinutes, 0 * offsetMinutes) == PhaseChunks(runs, hasAuthorName, 0);
    assert PhaseOutput(ms, hasAuthorName, windowMinutes, 1 * offsetMinutes) == PhaseChunks(runs, hasAuthorName, offsetMinutes);
    assert PhaseOutput(ms, hasAuthorName, windowMinutes, 2 * offsetMinutes) == PhaseChunks(runs, hasAuthorName, 2 * offsetMinutes);
    assert PhasesUpTo(ms, hasAuthorName, windowMinutes, offsetMinutes, 1) == PhaseChunks(runs, hasAuthorName, 0);
    assert PhasesUpTo(ms, hasAuthorName, windowMinutes, offsetMinutes, 2)
        == PhaseChunks(runs, hasAuthorName, 0) + PhaseChunks(runs, hasAuthorName, offsetMinutes);
  }

  /** The chunk of a run differs between two phases only in its `offset_minutes`. */
  lemma PhaseChunksOffsetOnly(runs: seq<seq<Message>>, hasAuthorName: bool, a: int, b: int, i: nat)
    requires forall j :: 0 <= j < |runs| ==> runs[j] != []
    requires i < |runs|
    ensures var ca := PhaseChunks(runs, hasAuthorName, a)[i];
      PhaseChunks(runs, hasAuthorName, b)[i] == ca.(metadata := ca.metadata.(offsetMinutes := b))
  {
    PhaseChunksAt(runs, hasAuthorName, a, i);
    PhaseChunksAt(runs, hasAuthorName, b, i);
  }

  lemma SortedSplit(a: seq<Message>, b: seq<Message>)
    requires SortedBySent(a + b)
    ensures SortedBySent(a) && SortedBySent(b)
    ensures forall i, j :: 0 <= i < |a| && 0 <= j < |b| ==> a[i].sent <= b[j].sent
  {
    forall i, j | 0 <= i < j < |a| ensures a[i].sent <= a[j].sent {
      assert a[i] == (a + b)[i] && a[j] == (a + b)[j];
    }
    forall i, j | 0 <= i < j < |b| ensures b[i].sent <= b[j].sent {
      assert b[i] == (a + b)[|a| + i] && b[j] == (a + b)[|a| + j];
    }
    forall i, j | 0 <= i < |a| && 0 <= j < |b| ensures a[i].sent <= b[j].sent {
      assert a[i] == (a + b)[i] && b[j] == (a + b)[|a| + j];
    }
  }

  /** Every run of a sorted concatenation is sorted and made of its messages. */
  lemma {:induction false} ConcatParts(runs: seq<seq<Message>>, i: nat)
    requires i < |runs|
    ensures SortedBySent(Concat(runs)) ==> SortedBySent(runs[i])
    ensures forall m :: m in runs[i] ==> m in Concat(runs)
  {
    var rest, last := runs[..|runs| - 1], runs[|runs| - 1];
    assert runs == rest + [last];
    ConcatAppend(rest, last);
    if SortedBySent(Concat(runs)) {
      SortedSplit(Concat(rest), last);
    }
    if i < |rest| {
      ConcatParts(rest, i);
      assert runs[i] == rest[i];
    }
  }

  /**
   * For sorted messages every chunk starts and ends at instants of the chat's messages, starts no
   * later than it ends, and spans at most the window unless it holds a single instant.
   */
  lemma ChunkSpan(ms: seq<Message>, hasAuthorName: bool, windowMinutes: int, minutes: int, i: nat)
    requires SortedBySent(ms)
    requires i < |PhaseOutput(ms, hasAuthorName, windowMinutes, minutes)|
    ensures var md := PhaseOutput(ms, hasAuthorName, windowMinutes, minutes)[i].metadata;
      && (exists m :: m in ms && m.sent == md.startTime)
      && (exists m :: m in ms && m.sent == md.endTime)
      && md.startTime <= md.endTime
      && (md.endTime == md.startTime || md.endTime - md.startTime <= windowMinutes * 60 * MicrosPerSecond)
  {
    var runs := Runs(ms, windowMinutes, Shift(minutes));
    RunsPartition(ms, windowMinutes, Shift(minutes));
    RunsWellCut(ms, windowMinutes, Shift(minutes));
    PhaseChunksAt(runs, hasAuthorName, minutes, i);
    var run := runs[i];
    ConcatParts(runs, i);
    assert run[0] in run && run[|run| - 1] in run;
    if |run| > 1 {
      assert !Separated(run[0], run[|run| - 2], run[|run| - 1], windowMinutes);
    }
  }

  /** Scanning one more message is one more Step. */
  lemma ScanSnoc(ms: seq<Message>, m: Message, windowMinutes: int, shift: int)
    ensures ScanPrefix(ms + [m], windowMinutes, shift) == Step(ScanPrefix(ms, windowMinutes, shift), m, windowMinutes, shift)
  {
    assert (ms + [m])[..|ms|] == ms;
  }

  /** A chat without messages gives no chunks. */
  lemma NoMessagesNoChunks(hasAuthorName: bool, windowMinutes: int, offsetMinutes: int)
    ensures OverlappingChunks([], hasAuthorName, windowMinutes, offsetMinutes) == []
  {
    OverlappingChunksPhases([], hasAuthorName, windowMinutes, offsetMinutes);
  }

  /** A single message gives one chunk per phase, each starting and ending at that message. */
  lemma SingleMessageThreeChunks(m: Message, hasAuthorName: bool, windowMinutes: int, offsetMinutes: int)
    ensures OverlappingChunks([m], hasAuthorName, windowMinutes, offsetMinutes)
         == [MakeChunk([m], hasAuthorName, 0), MakeChunk([m], hasAuthorName, offsetMinutes), MakeChunk([m], hasAuthorName, 2 * offsetMinutes)]
  {
    OverlappingChunksPhases([m], hasAuthorName, windowMinutes, offsetMinutes);
    assert Runs([m], windowMinutes, 0) == [[m]] by {
      ScanSnoc([], m, windowMinutes, 0);
      assert [] + [m] == [m];
    }
    assert [[m]][..0] == [];
  }

  /** Two messages more than 30 minutes apart always fall into different runs. */
  lemma GapSplits(m1: Message, m2: Message, windowMinutes: int, shift: int)
    requires m2.sent - m1.sent > GapMicros
    ensures Runs([m1, m2], windowMinutes, shift) == [[m1], [m2]]
  {
    ScanPair(m1, m2, windowMinutes, shift);
  }

  /** Two messages at most 30 minutes apart and within the window share a run. */
  lemma CloseMessagesJoin(m1: Message, m2: Message, windowMinutes: int, shift: int)
    requires m2.sent - m1.sent <= GapMicros
    requires m2.sent - m1.sent <= windowMinutes * 60 * MicrosPerSecond
    ensures Runs([m1, m2], windowMinutes, shift) == [[m1, m2]]
  {
    ScanPair(m1, m2, windowMinutes, shift);
    BreaksIgnoreShift(m1, m1, m2, windowMinutes, shift);
    assert [m1] + [m2] == [m1, m2];
  }

  /** The scan of two messages. */
  lemma ScanPair(m1: Message, m2: Message, windowMinutes: int, shift: int)
    ensures ScanPrefix([m1, m2], windowMinutes, shift) == Step(ScanState([], [m1]), m2, windowMinutes, shift)
  {
    assert ScanPrefix([m1], windowMinutes, shift) == ScanState([], [m1]) by {
      ScanSnoc([], m1, windowMinutes, shift);
      assert [] + [m1] == [m1];
    }
    assert ScanPrefix([m1, m2], windowMinutes, shift) == Step(ScanPrefix([m1], windowMinutes, shift), m2, windowMinutes, shift) by {
      ScanSnoc([m1], m2, windowMinutes, shift);
      assert [m1] + [m2] == [m1, m2];
    }
  }

  /**
   * With the default 30-minute window a message exactly 30 minutes after another stays with it
   * (both tests are strict), while one 31 minutes after starts a new run.
   */
  lemma DefaultThresholds(m1: Message, m2: Message, m3: Message, shift: int)
    requires m2.sent == m1.sent + 30 * 60 * MicrosPerSecond
    requires m3.sent == m1.sent + 31 * 60 * MicrosPerSecond
    ensures Runs([m1, m2], DefaultWindowMinutes, shift) == [[m1, m2]]
    ensures Runs([m1, m3], DefaultWindowMinutes, shift) == [[m1], [m3]]
  {
    CloseMessagesJoin(m1, m2, DefaultWindowMinutes, shift);
    GapSplits(m1, m3, DefaultWindowMinutes, shift);
  }

  /**
   * The window cuts a conversation with no long silence: three messages 20 minutes apart make
   * two runs under the default window, because the third is 40 minutes after the first.
   */
  lemma WindowSplitsSteadyConversation(m1: Message, m2: Message, m3: Message, shift: int)
    requires m2.sent == m1.sent + 20 * 60 * MicrosPerSecond
    requires m3.sent == m2.sent + 20 * 60 * MicrosPerSecond
    ensures Runs([m1, m2, m3], DefaultWindowMinutes, shift) == [[m1, m2], [m3]]
  {
    assert ScanPrefix([m1, m2], DefaultWindowMinutes, shift) == ScanState([], [m1, m2]) by {
      ScanPair(m1, m2, DefaultWindowMinutes, shift);
    }
    assert ScanPrefix([m1, m2, m3], DefaultWindowMinutes, shift)
        == Step(ScanPrefix([m1, m2], DefaultWindowMinutes, shift), m3, DefaultWindowMinutes, shift) by {
      ScanSnoc([m1, m2], m3, DefaultWindowMinutes, shift);
      assert [m1, m2] + [m3] == [m1, m2, m3];
    }
  }

  /** A run whose messages all lack text becomes a chunk with empty text. */
  lemma {:induction false} NullTextsGiveEmptyText(run: seq<Message>, hasAuthorName: bool, offsetMinutes: int)
    requires run != []
    requires forall i :: 0 <= i < |run| ==> run[i].row.text.None?
    ensures Texts(run) == []
    ensures MakeChunk(run, hasAuthorName, offsetMinutes).text == ""
  {
    NoTexts(run);
  }

  lemma {:induction false} NoTexts(run: seq<Message>)
    requires forall i :: 0 <= i < |run| ==> run[i].row.text.None?
    ensures Texts(run) == []
  {
    if run != [] {
      NoTexts(run[..|run| - 1]);
    }
  }
}
