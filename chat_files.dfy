/**
 * The driver script (main.py): every extracted chat is saved to `chats/<name>.csv`, where the
 * name is the chat's group name or, failing that, one of its participants, normalised into a
 * file name. A chat whose file already exists is appended to it. Extraction runs only while
 * fewer than 100 chat files exist; otherwise the saved files are read back instead.
 *
 * The directory is a map from normalised name to rows. `pick` stands for `list(set(...))[0]`
 * (some element of a set, in Python's set order) and `ioFails(name, exists)` for a read,
 * stack or write of that file that raises, given whether the file already exists.
 */
module ChatFiles {
  import opened Wrappers
  import opened PyText
  import ExtractChats

  type Row = ExtractChats.Row

  /** The number of chat files from which extraction no longer runs. */
  const ExtractionThreshold: int := 100

  // ---------------------------------------------------------------- the file name

  /** `' '.join(name.split()).replace(' ', '_').replace('+', '00').lower()`. */
  function Normalize(name: string): string {
    Lower(Replace(Replace(Join(" ", Words(name)), ' ', "_"), '+', "00"))
  }

  /** A normalised name has no whitespace, no '+' and no upper-case letter. */
  predicate Normalized(s: string) {
    forall i :: 0 <= i < |s| ==> !IsSpace(s[i]) && s[i] != '+' && !IsAsciiUpper(s[i])
  }

  predicate SpaceOrWord(c: char) { c == ' ' || !IsSpace(c) }
  predicate NotSpace(c: char) { !IsSpace(c) }
  predicate NotSpaceNorPlus(c: char) { !IsSpace(c) && c != '+' }

  /** Whatever the input, the name is a single word without '+' or upper-case letters. */
  lemma NormalizeNormalized(name: string)
    ensures Normalized(Normalize(name))
  {
    var ws := Words(name);
    forall k | 0 <= k < |ws| ensures AllChars(ws[k], SpaceOrWord) {
      assert NoSpace(ws[k]);
    }
    JoinAllChars(" ", ws, SpaceOrWord);
    var joined := Join(" ", ws);
    ReplaceAllChars(joined, ' ', "_", NotSpace);
    var underscored := Replace(joined, ' ', "_");
    ReplaceAllChars(underscored, '+', "00", NotSpaceNorPlus);
    var plain := Replace(underscored, '+', "00");
    var r := Lower(plain);
    forall i | 0 <= i < |r| ensures !IsSpace(r[i]) && r[i] != '+' && !IsAsciiUpper(r[i]) {
      assert NotSpaceNorPlus(plain[i]);
    }
  }

  /** `lower()` leaves a string without upper-case letters unchanged. */
  lemma LowerOfLower(s: string)
    requires forall i :: 0 <= i < |s| ==> !IsAsciiUpper(s[i])
    ensures Lower(s) == s
  {
  }

  /** Normalising a normalised name changes nothing, so a saved file keeps its name. */
  lemma NormalizeIdempotent(name: string)
    ensures Normalize(Normalize(name)) == Normalize(name)
  {
    var n := Normalize(name);
    NormalizeNormalized(name);
    assert NoSpace(n);
    WordsOfWord(n);
    assert Join(" ", Words(n)) == n;
    assert IsSpace(' ');
    assert ' ' !in n;
    assert '+' !in n;
    LowerOfLower(n);
  }

  // ---------------------------------------------------------------- the name chain

  /**
   * `drop_nulls('group_chat_name')`: the non-null group names, in row order. They are exactly the
   * rows' group names, and the first is the group name of the first row that has one.
   */
  function GroupNames(rows: seq<Row>): (gs: seq<string>)
    ensures |gs| <= |rows|
    ensures gs == [] <==> forall i :: 0 <= i < |rows| ==> rows[i].groupChatName.None?
    ensures forall g :: g in gs <==> exists i :: 0 <= i < |rows| && rows[i].groupChatName == Some(g)
    ensures gs != [] ==> exists i :: FirstGroupAt(rows, i, gs[0])
  {
    if rows == [] then []
    else
      var rest := GroupNames(rows[1..]);
      assert forall i :: 1 <= i < |rows| ==> rows[i] == rows[1..][i - 1];
      if rows[0].groupChatName.Some? then
        var gs := [rows[0].groupChatName.value] + rest;
        assert FirstGroupAt(rows, 0, gs[0]);
        gs
      else
        assert rest != [] ==> exists i :: FirstGroupAt(rows, i, rest[0]) by {
          if rest != [] {
            var i :| FirstGroupAt(rows[1..], i, rest[0]);
            assert FirstGroupAt(rows, i + 1, rest[0]);
          }
        }
        rest
  }

  /** Row `i` has the group name `g`, and no row before it has one. */
  predicate FirstGroupAt(rows: seq<Row>, i: int, g: string) {
    && 0 <= i < |rows| && rows[i].groupChatName == Some(g)
    && forall j :: 0 <= j < i ==> rows[j].groupChatName.None?
  }

  /** Dropping the nulls works row by row: it keeps the order of the rows. */
  lemma {:induction false} GroupNamesAppend(a: seq<Row>, b: seq<Row>)
    ensures GroupNames(a + b) == GroupNames(a) + GroupNames(b)
  {
    if a == [] {
      assert a + b == b;
    } else {
      assert (a + b)[0] == a[0] && (a + b)[1..] == a[1..] + b;
      GroupNamesAppend(a[1..], b);
    }
  }

  /** A value the name chain may fall back on: present, and without "me" once lower-cased. */
  predicate Candidate(v: Option<string>) {
    v.Some? && !Contains(Lower(v.value), "me")
  }

  /** `set(df.filter(~col.str.to_lowercase().str.contains('me'))[col])`: null rows are filtered out. */
  function Candidates(values: seq<Option<string>>): (c: set<string>)
    ensures forall v :: v in c <==> exists i :: 0 <= i < |values| && values[i] == Some(v) && Candidate(values[i])
  {
    set i | 0 <= i < |values| && Candidate(values[i]) :: values[i].value
  }

  function AuthorNames(rows: seq<Row>): seq<Option<string>> {
    seq(|rows|, i requires 0 <= i < |rows| => rows[i].authorName)
  }

  function AuthorHandles(rows: seq<Row>): seq<Option<string>> {
    seq(|rows|, i requires 0 <= i < |rows| => rows[i].authorHandle)
  }

  /**
   * The chat's name before normalisation: its first group name, else some candidate author
   * name, else some candidate author handle; None where `[0]` of an empty list raises IndexError.
   */
  function ChatName(rows: seq<Row>, pick: set<string> -> string): Option<string> {
    var groups := GroupNames(rows);
    if groups != [] then Some(groups[0])
    else
      var names := Candidates(AuthorNames(rows));
      if names != {} then Some(pick(names))
      else
        var handles := Candidates(AuthorHandles(rows));
        if handles != {} then Some(pick(handles)) else None
  }

  /** Lines 35-37 of main.py; None stands for the IndexError of the last `[0]`. */
  method NameChain(rows: seq<Row>, pick: set<string> -> string) returns (nameMaybe: Option<string>)
    ensures nameMaybe == ChatName(rows, pick)
  {
    var groups := GroupNames(rows);
    if |groups| > 0 {
      return Some(groups[0]);
    }
    var names := Candidates(AuthorNames(rows));
    if names != {} {
      return Some(pick(names));
    }
    var handles := Candidates(AuthorHandles(rows));
    if handles == {} {
      return None;
    }
    return Some(pick(handles));
  }

  /** `pick` behaves as `list(s)[0]` does: it returns an element of a non-empty set. */
  ghost predicate PicksMember(pick: set<string> -> string) {
    forall s: set<string> :: s != {} ==> pick(s) in s
  }

  /**
   * The chain's priorities: a chat with a group name is named after its first group name;
   * otherwise after an author name, and only when there is none after an author handle; a
   * name taken from the participants never contains "me" in any letter case, so neither an
   * own message's handle "Me" nor a contact like "James" is ever chosen.
   */
  lemma ChatNameChain(rows: seq<Row>, pick: set<string> -> string)
    requires PicksMember(pick)
    ensures var g := GroupNames(rows);
      g != [] ==> ChatName(rows, pick) == Some(g[0])
    ensures var g := GroupNames(rows); var names := Candidates(AuthorNames(rows));
      g == [] && names != {} ==> ChatName(rows, pick).Some? && ChatName(rows, pick).value in names
    ensures var g := GroupNames(rows); var names := Candidates(AuthorNames(rows)); var handles := Candidates(AuthorHandles(rows));
      g == [] && names == {} ==>
        (ChatName(rows, pick).Some? <==> handles != {}) && (handles != {} ==> ChatName(rows, pick).value in handles)
    ensures GroupNames(rows) == [] && ChatName(rows, pick).Some? ==> !Contains(Lower(ChatName(rows, pick).value), "me")
  {
    var names := Candidates(AuthorNames(rows));
    var handles := Candidates(AuthorHandles(rows));
    if GroupNames(rows) == [] {
      if names != {} {
        var v := pick(names);
        assert v in names;
        var i :| 0 <= i < |AuthorNames(rows)| && AuthorNames(rows)[i] == Some(v) && Candidate(AuthorNames(rows)[i]);
      } else if handles != {} {
        var v := pick(handles);
        assert v in handles;
        var i :| 0 <= i < |AuthorHandles(rows)| && AuthorHandles(rows)[i] == Some(v) && Candidate(AuthorHandles(rows)[i]);
      }
    }
  }

  // ---------------------------------------------------------------- saving the chats

  /**
   * Whether reading, stacking or writing the file of a name raises, given whether that file
   * already exists (`os.path.exists`).
   */
  type IoFails = (string, bool) -> bool

  /** The file a chat is saved to, or None when the chat is skipped. */
  function SavedName(files: map<string, seq<Row>>, rows: seq<Row>, pick: set<string> -> string, ioFails: IoFails): Option<string> {
    var chatName := ChatName(rows, pick);
    if chatName.None? then None
    else
      var name := Normalize(chatName.value);
      if ioFails(name, name in files) then None else Some(name)
  }

  /** One turn of the loop: the chat is appended to its file, which it creates when missing. */
  function SaveChat(files: map<string, seq<Row>>, rows: seq<Row>, pick: set<string> -> string, ioFails: IoFails): map<string, seq<Row>> {
    var saved := SavedName(files, rows, pick, ioFails);
    if saved.None? then files
    else files[saved.value := (if saved.value in files then files[saved.value] else []) + rows]
  }

  /** The loop over the extracted chats. */
  function SaveAll(files: map<string, seq<Row>>, chats: seq<seq<Row>>, pick: set<string> -> string, ioFails: IoFails): map<string, seq<Row>> {
    if chats == [] then files
    else SaveChat(SaveAll(files, chats[..|chats| - 1], pick, ioFails), chats[|chats| - 1], pick, ioFails)
  }

  /** Where each chat is saved, in chat order, each against the directory the chats before it left. */
  function SavedNames(files: map<string, seq<Row>>, chats: seq<seq<Row>>, pick: set<string> -> string, ioFails: IoFails): (names: seq<Option<string>>)
    ensures |names| == |chats|
  {
    if chats == [] then []
    else
      var init := chats[..|chats| - 1];
      SavedNames(files, init, pick, ioFails) + [SavedName(SaveAll(files, init, pick, ioFails), chats[|chats| - 1], pick, ioFails)]
  }

  /** The rows of the chats saved to `name`, in chat order. */
  function SavedTo(files: map<string, seq<Row>>, chats: seq<seq<Row>>, name: string, pick: set<string> -> string, ioFails: IoFails): seq<Row> {
    if chats == [] then []
    else
      var init := chats[..|chats| - 1];
      var last := chats[|chats| - 1];
      SavedTo(files, init, name, pick, ioFails)
        + (if SavedName(SaveAll(files, init, pick, ioFails), last, pick, ioFails) == Some(name) then last else [])
  }

  /** The names present in a sequence of optional names. */
  function Named(names: seq<Option<string>>): set<string> {
    set k | 0 <= k < |names| && names[k].Some? :: names[k].value
  }

  /** The names present in a sequence are those of all but its last entry, plus the last one's. */
  lemma NamedSnoc(names: seq<Option<string>>)
    requires names != []
    ensures var last := names[|names| - 1];
      Named(names) == Named(names[..|names| - 1]) + (if last.Some? then {last.value} else {})
  {
    var init := names[..|names| - 1];
    assert forall k :: 0 <= k < |init| ==> names[k] == init[k];
  }

  /** The names some chat is saved to. */
  function Targets(files: map<string, seq<Row>>, chats: seq<seq<Row>>, pick: set<string> -> string, ioFails: IoFails): set<string> {
    Named(SavedNames(files, chats, pick, ioFails))
  }

  /** The targets of the chats are those of the earlier chats plus that of the last one. */
  lemma TargetsSnoc(files: map<string, seq<Row>>, chats: seq<seq<Row>>, pick: set<string> -> string, ioFails: IoFails)
    requires chats != []
    ensures var init := chats[..|chats| - 1];
      var last := SavedName(SaveAll(files, init, pick, ioFails), chats[|chats| - 1], pick, ioFails);
      Targets(files, chats, pick, ioFails) == Targets(files, init, pick, ioFails) + (if last.Some? then {last.value} else {})
  {
    var names := SavedNames(files, chats, pick, ioFails);
    assert SavedNames(files, chats[..|chats| - 1], pick, ioFails) == names[..|names| - 1];
    NamedSnoc(names);
  }

  lemma {:induction false} NothingSavedOutsideTargets(files: map<string, seq<Row>>, chats: seq<seq<Row>>, pick: set<string> -> string,
                                                      ioFails: IoFails, name: string)
    requires name !in Targets(files, chats, pick, ioFails)
    ensures SavedTo(files, chats, name, pick, ioFails) == []
  {
    if chats != [] {
      TargetsSnoc(files, chats, pick, ioFails);
      NothingSavedOutsideTargets(files, chats[..|chats| - 1], pick, ioFails, name);
    }
  }

  /** Afterwards a file exists exactly when it existed or some chat was saved to it. */
  lemma {:induction false} SaveAllNames(files: map<string, seq<Row>>, chats: seq<seq<Row>>, pick: set<string> -> string,
                                        ioFails: IoFails, name: string)
    ensures name in SaveAll(files, chats, pick, ioFails) <==> name in files || name in Targets(files, chats, pick, ioFails)
  {
    if chats != [] {
      SaveAllNames(files, chats[..|chats| - 1], pick, ioFails, name);
      TargetsSnoc(files, chats, pick, ioFails);
    }
  }

  /** One chat's effect on one file: its rows are appended when it is saved there. */
  lemma SaveChatEffect(files: map<string, seq<Row>>, rows: seq<Row>, pick: set<string> -> string, ioFails: IoFails, name: string)
    requires name in SaveChat(files, rows, pick, ioFails)
    ensures SaveChat(files, rows, pick, ioFails)[name]
      == (if name in files then files[name] else []) + (if SavedName(files, rows, pick, ioFails) == Some(name) then rows else [])
  {
  }

  /**
   * Saving never overwrites: a file holds its earlier rows followed by the rows of every chat
   * saved to it, in chat order; a skipped chat changes nothing.
   */
  lemma {:induction false} SaveAllContents(files: map<string, seq<Row>>, chats: seq<seq<Row>>, pick: set<string> -> string,
                                           ioFails: IoFails, name: string)
    requires name in SaveAll(files, chats, pick, ioFails)
    ensures SaveAll(files, chats, pick, ioFails)[name]
      == (if name in files then files[name] else []) + SavedTo(files, chats, name, pick, ioFails)
  {
    if chats != [] {
      var init := chats[..|chats| - 1];
      var last := chats[|chats| - 1];
      var before := SaveAll(files, init, pick, ioFails);
      var prior := (if name in files then files[name] else []);
      var extra := (if SavedName(before, last, pick, ioFails) == Some(name) then last else []);
      assert SaveAll(files, chats, pick, ioFails) == SaveChat(before, last, pick, ioFails);
      assert SavedTo(files, chats, name, pick, ioFails) == SavedTo(files, init, name, pick, ioFails) + extra;
      SaveChatEffect(before, last, pick, ioFails, name);
      if name in before {
        SaveAllContents(files, init, pick, ioFails, name);
        assert before[name] == prior + SavedTo(files, init, name, pick, ioFails);
      } else {
        SaveAllNames(files, init, pick, ioFails, name);
        NothingSavedOutsideTargets(files, init, pick, ioFails, name);
        assert prior == [] && SavedTo(files, init, name, pick, ioFails) == [];
      }
      AppendAssoc(prior, SavedTo(files, init, name, pick, ioFails), extra);
    }
  }

  /**
   * Stacking onto an existing file always raises: `read_csv` gives back the date columns as
   * text, and `vstack` refuses to stack them onto the extracted chat's datetime columns.
   */
  ghost predicate AppendAlwaysFails(ioFails: IoFails) {
    forall name :: ioFails(name, true)
  }

  /** Chat `k` is the only one saved under `name`. */
  predicate SoleSaveAt(names: seq<Option<string>>, k: int, name: string) {
    && 0 <= k < |names| && names[k] == Some(name)
    && forall j :: 0 <= j < |names| && j != k ==> names[j] != Some(name)
  }

  /**
   * When stacking always raises, no existing file is ever extended, and a new file holds
   * exactly the first chat saved under its name; every later chat with that name is skipped.
   */
  lemma {:induction false} NoFileExtended(files: map<string, seq<Row>>, chats: seq<seq<Row>>, pick: set<string> -> string,
                                          ioFails: IoFails, name: string)
    requires AppendAlwaysFails(ioFails)
    requires name in SaveAll(files, chats, pick, ioFails)
    ensures name in files ==> SaveAll(files, chats, pick, ioFails)[name] == files[name]
    ensures name !in files ==>
      exists k :: SoleSaveAt(SavedNames(files, chats, pick, ioFails), k, name) && SaveAll(files, chats, pick, ioFails)[name] == chats[k]
  {
    if chats != [] {
      var init := chats[..|chats| - 1];
      var last := chats[|chats| - 1];
      var before := SaveAll(files, init, pick, ioFails);
      var saved := SavedName(before, last, pick, ioFails);
      var names := SavedNames(files, chats, pick, ioFails);
      assert names == SavedNames(files, init, pick, ioFails) + [saved];
      assert saved.Some? ==> saved.value !in before;
      if name in before {
        NoFileExtended(files, init, pick, ioFails, name);
        assert SaveAll(files, chats, pick, ioFails)[name] == before[name];
        if name !in files {
          var k :| SoleSaveAt(SavedNames(files, init, pick, ioFails), k, name) && before[name] == init[k];
          assert chats[k] == init[k];
          assert names[k] == Some(name);
          forall j | 0 <= j < |chats| && j != k ensures names[j] != Some(name) {
            if j < |init| {
              assert names[j] == SavedNames(files, init, pick, ioFails)[j];
            }
          }
          assert SoleSaveAt(names, k, name);
        }
      } else {
        var k := |chats| - 1;
        assert saved == Some(name);
        assert SaveAll(files, chats, pick, ioFails)[name] == chats[k];
        SaveAllNames(files, init, pick, ioFails, name);
        forall j | 0 <= j < |init| ensures names[j] != Some(name) {
          assert names[j] == SavedNames(files, init, pick, ioFails)[j];
        }
        assert SoleSaveAt(names, k, name);
      }
    }
  }

  /** The chat directory: the CSV files under `chats/`, by normalised name. */
  class ChatDirectory {
    var files: map<string, seq<Row>>

    constructor(files0: map<string, seq<Row>>)
      ensures files == files0
    {
      files := files0;
    }

    /**
     * The loop of main.py over the extracted chats: name the chat, append it to its file,
     * and skip the chat when the name chain or the file access raises.
     */
    method SaveChats(chats: seq<seq<Row>>, pick: set<string> -> string, ioFails: IoFails)
      modifies this
      ensures files == SaveAll(old(files), chats, pick, ioFails)
    {
      for n := 0 to |chats|
        invariant files == SaveAll(old(files), chats[..n], pick, ioFails)
      {
        var rows := chats[n];
        assert SaveAll(old(files), chats[..n + 1], pick, ioFails) == SaveChat(files, rows, pick, ioFails) by {
          assert chats[..n + 1][..n] == chats[..n] && chats[..n + 1][n] == rows;
        }
        var nameMaybe := NameChain(rows, pick);
        if nameMaybe.None? {
          continue;
        }
        var name := Normalize(nameMaybe.value);
        if ioFails(name, name in files) {
          continue;
        }
        var existing := if name in files then files[name] else [];
        files := files[name := existing + rows];
      }
      assert chats[..|chats|] == chats;
    }

    /**
     * Lines 30-46 of main.py: with fewer than 100 chat files the chats are extracted and
     * saved, and the extracted chats go on to the embedding step; otherwise every saved file
     * is read back, in the listing's order, and nothing is written. `listing` is what
     * the glob of `chats/` finds, its CSV file names.
     */
    method PrepareChats(extracted: seq<seq<Row>>, listing: seq<string>, pick: set<string> -> string, ioFails: IoFails)
      returns (chatDfs: seq<seq<Row>>)
      requires forall name :: name in listing ==> name in files
      modifies this
      ensures |listing| < ExtractionThreshold ==> chatDfs == extracted && files == SaveAll(old(files), extracted, pick, ioFails)
      ensures |listing| >= ExtractionThreshold ==>
        files == old(files) && |chatDfs| == |listing| && forall k :: 0 <= k < |listing| ==> chatDfs[k] == files[listing[k]]
    {
      if |listing| < ExtractionThreshold {
        SaveChats(extracted, pick, ioFails);
        chatDfs := extracted;
      } else {
        chatDfs := [];
        for k := 0 to |listing|
          invariant |chatDfs| == k && forall i :: 0 <= i < k ==> chatDfs[i] == files[listing[i]]
        {
          chatDfs := chatDfs + [files[listing[k]]];
        }
      }
    }
  }
}
