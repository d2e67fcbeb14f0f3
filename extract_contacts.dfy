/**
 * Contact flattening (extract_contacts.py): address-book records, their phone
 * numbers and their e-mail addresses become one flat entry per phone number or
 * e-mail address, each carrying the owner's name fields.
 *
 * The three SQLite queries are replaced by their result rows, in the order the
 * database returns them.
 */
module ExtractContacts {
  import opened Wrappers
  import opened PyText

  /** One row of `SELECT Z_PK, ZFIRSTNAME, ZMIDDLENAME, ZLASTNAME, ZORGANIZATION, ZNOTE FROM ZABCDRECORD`. */
  datatype RecordRow = RecordRow(
    pk: int,
    firstName: Option<string>,
    middleName: Option<string>,
    lastName: Option<string>,
    organization: Option<string>,
    note: Option<string>)

  /** One row of the phone-number or e-mail table: its `ZOWNER` and its value (either may be NULL). */
  datatype OwnedValue = OwnedValue(owner: Option<int>, value: Option<string>)

  /** The name columns every flattened entry carries. */
  datatype NameFields = NameFields(
    name: string, firstName: string, middleName: string, lastName: string,
    organization: string, note: string)

  /** One contact of the `contacts` dict: its name fields and the raw values attached to it. */
  datatype Contact = Contact(fields: NameFields, phones: seq<string>, emails: seq<string>)

  /** One flattened entry: exactly one of `phoneNumber` and `email` is set by the flattening. */
  datatype ContactEntry = ContactEntry(fields: NameFields, phoneNumber: Option<string>, email: Option<string>)

  /** The `contacts` dict: its values keyed by record id, and its keys in insertion order. */
  datatype ContactBook = ContactBook(order: seq<int>, byId: map<int, Contact>)

  /** The insertion order lists every key of the dict, each exactly once. */
  predicate Indexed(b: ContactBook) {
    && (forall i :: 0 <= i < |b.order| ==> b.order[i] in b.byId)
    && (forall i, j :: 0 <= i < j < |b.order| ==> b.order[i] != b.order[j])
    && (forall k :: k in b.byId ==> k in b.order)
  }

  /** `x or ''` for a nullable text column. */
  function OrEmpty(x: Option<string>): string {
    x.GetOr("")
  }

  /**
   * The displayed name: the organisation when first, middle and last name hold no word;
   * otherwise their words, in that order, with no whitespace at either end.
   */
  function DisplayName(first: string, middle: string, last: string, organization: string): (name: string)
    ensures Words(first) + Words(middle) + Words(last) == [] ==> name == organization
    ensures Words(first) + Words(middle) + Words(last) != [] ==>
      && Words(name) == Words(first) + Words(middle) + Words(last)
      && name != [] && !IsSpace(name[0]) && !IsSpace(name[|name| - 1])
  {
    var joined := Join(" ", [first, middle, last]);
    WordsJoin3(first, middle, last);
    StripWords(joined);
    var full := Strip(joined);
    if full != "" then full else organization
  }

  function FieldsOf(r: RecordRow): NameFields {
    var first, middle, last := OrEmpty(r.firstName), OrEmpty(r.middleName), OrEmpty(r.lastName);
    var organization := OrEmpty(r.organization);
    NameFields(DisplayName(first, middle, last, organization), first, middle, last, organization, OrEmpty(r.note))
  }

  /** `contacts[record_id] = {...}`: a repeated id replaces the value but keeps its original place. */
  function AddRecord(b: ContactBook, r: RecordRow): (b': ContactBook)
    requires Indexed(b)
    ensures Indexed(b')
    ensures b'.byId.Keys == b.byId.Keys + {r.pk}
    ensures b'.byId[r.pk] == Contact(FieldsOf(r), [], [])
    ensures forall k :: k in b.byId && k != r.pk ==> b'.byId[k] == b.byId[k]
    ensures r.pk in b.byId ==> b'.order == b.order
    ensures r.pk !in b.byId ==> b'.order == b.order + [r.pk]
  {
    var c := Contact(FieldsOf(r), [], []);
    if r.pk in b.byId then ContactBook(b.order, b.byId[r.pk := c])
    else
      AddFreshKey(b, r.pk, c);
      ContactBook(b.order + [r.pk], b.byId[r.pk := c])
  }

  /** A new key goes to the end of the insertion order, which still lists every key once. */
  lemma AddFreshKey(b: ContactBook, k: int, c: Contact)
    requires Indexed(b) && k !in b.byId
    ensures Indexed(ContactBook(b.order + [k], b.byId[k := c]))
  {
    var order, byId := b.order + [k], b.byId[k := c];
    forall i, j | 0 <= i < j < |order| ensures order[i] != order[j] {
      assert order[i] == b.order[i] && order[i] in b.byId;
    }
    forall key | key in byId ensures key in order {
      if key != k {
        assert key in b.order;
        var i :| 0 <= i < |b.order| && b.order[i] == key;
        assert order[i] == key;
      }
    }
  }

  /** The `contacts` dict after the record loop has seen all of `rows`. */
  function BookOf(rows: seq<RecordRow>): (b: ContactBook)
    ensures Indexed(b)
  {
    if rows == [] then ContactBook([], map[])
    else AddRecord(BookOf(rows[..|rows| - 1]), rows[|rows| - 1])
  }

  /** `if owner_id in contacts and value: contacts[owner_id][...].append(value)`. */
  function Attach(b: ContactBook, row: OwnedValue, isPhone: bool): ContactBook {
    if row.owner.Some? && row.owner.value in b.byId && row.value.Some? && row.value.value != "" then
      var c := b.byId[row.owner.value];
      var c' := if isPhone then c.(phones := c.phones + [row.value.value])
                else c.(emails := c.emails + [row.value.value]);
      b.(byId := b.byId[row.owner.value := c'])
    else b
  }

  /** The `contacts` dict after the phone (or e-mail) loop has seen all of `rows`. */
  function AttachAll(b: ContactBook, rows: seq<OwnedValue>, isPhone: bool): (b': ContactBook)
    ensures b'.order == b.order && b'.byId.Keys == b.byId.Keys
  {
    if rows == [] then b
    else Attach(AttachAll(b, rows[..|rows| - 1], isPhone), rows[|rows| - 1], isPhone)
  }

  // ---------------------------------------------------------------- phone cleaning

  predicate IsDialChar(c: char) { IsDigit(c) || c == '+' }

  /** Every character is a digit or '+'. */
  predicate DialString(s: string) {
    forall i :: 0 <= i < |s| ==> IsDialChar(s[i])
  }

  /** `re.sub(r'[^\d+]', '', phone)`: keeps the digits and '+' signs, in order. */
  function KeepDialChars(p: string): (r: string)
    ensures DialString(r)
  {
    if p == [] then []
    else (if IsDialChar(p[0]) then [p[0]] else []) + KeepDialChars(p[1..])
  }

  /**
   * The substitution works character by character: a single character is kept exactly when
   * it is a digit or '+', and the result for a concatenation is the concatenation of the results.
   */
  lemma {:induction false} KeepDialCharsPerChar(a: string, b: string)
    ensures |a| == 1 ==> KeepDialChars(a) == (if IsDialChar(a[0]) then a else [])
    ensures KeepDialChars(a + b) == KeepDialChars(a) + KeepDialChars(b)
  {
    if a == [] {
      assert a + b == b;
    } else {
      assert (a + b)[0] == a[0] && (a + b)[1..] == a[1..] + b;
      KeepDialCharsPerChar(a[1..], b);
      if |a| == 1 {
        assert a[1..] == [];
      }
    }
  }

  lemma {:induction false} KeepDialCharsOfDialString(p: string)
    requires DialString(p)
    ensures KeepDialChars(p) == p
  {
    if p != [] {
      KeepDialCharsOfDialString(p[1..]);
      assert p == [p[0]] + p[1..];
    }
  }

  /** `s.lstrip('1')`: the suffix of `s` after its leading '1's. */
  function LStripOnes(s: string): (r: string)
    ensures |r| <= |s| && r == s[|s| - |r|..]
    ensures forall i :: 0 <= i < |s| - |r| ==> s[i] == '1'
    ensures r == [] || r[0] != '1'
  {
    if s != [] && s[0] == '1' then LStripOnes(s[1..]) else s
  }

  /**
   * The phone cleaning rule: keep digits and '+'; a result that does not start with
   * '+' becomes "+1" followed by the kept digits without their leading '1's.
   */
  function CleanPhone(p: string): (r: string)
    ensures |r| >= 1 && r[0] == '+'
    ensures DialString(r)
  {
    var kept := KeepDialChars(p);
    if kept != [] && kept[0] == '+' then kept
    else
      var digits := LStripOnes(kept);
      PlusOneDialString(kept, digits);
      "+1" + digits
  }

  /** "+1" followed by a suffix of a dial string is a dial string. */
  lemma PlusOneDialString(kept: string, digits: string)
    requires DialString(kept) && |digits| <= |kept| && digits == kept[|kept| - |digits|..]
    ensures DialString("+1" + digits)
  {
    var r := "+1" + digits;
    forall i | 0 <= i < |r| ensures IsDialChar(r[i]) {
      if i >= 2 {
        assert r[i] == digits[i - 2] == kept[|kept| - |digits| + i - 2];
      }
    }
  }

  /**
   * A number whose dial characters start with '+' keeps exactly those characters;
   * any other becomes "+1" followed by its dial characters after their leading '1's.
   */
  lemma CleanPhoneCases(p: string)
    ensures var kept := KeepDialChars(p);
      && (kept != [] && kept[0] == '+' ==> CleanPhone(p) == kept)
      && (!(kept != [] && kept[0] == '+') ==>
            exists ones :: 0 <= ones <= |kept| && CleanPhone(p) == "+1" + kept[ones..]
              && (forall i :: 0 <= i < ones ==> kept[i] == '1')
              && (ones == |kept| || kept[ones] != '1'))
  {
    var kept := KeepDialChars(p);
    if !(kept != [] && kept[0] == '+') {
      var ones := |kept| - |LStripOnes(kept)|;
      assert CleanPhone(p) == "+1" + kept[ones..];
    }
  }

  /** Cleaning an already cleaned number leaves it unchanged. */
  lemma CleanPhoneIdempotent(p: string)
    ensures CleanPhone(CleanPhone(p)) == CleanPhone(p)
  {
    KeepDialCharsOfDialString(CleanPhone(p));
  }

  // ---------------------------------------------------------------- flattening

  /** The entries of one contact: one per phone number (cleaned), then one per e-mail address. */
  function EntriesOf(c: Contact): (es: seq<ContactEntry>)
    ensures |es| == |c.phones| + |c.emails|
    ensures forall i :: 0 <= i < |c.phones| ==>
      es[i] == ContactEntry(c.fields, Some(CleanPhone(c.phones[i])), None)
    ensures forall j :: 0 <= j < |c.emails| ==>
      es[|c.phones| + j] == ContactEntry(c.fields, None, Some(c.emails[j]))
  {
    seq(|c.phones|, i requires 0 <= i < |c.phones| => ContactEntry(c.fields, Some(CleanPhone(c.phones[i])), None))
    + seq(|c.emails|, j requires 0 <= j < |c.emails| => ContactEntry(c.fields, None, Some(c.emails[j])))
  }

  /** The flattened list: the entries of each contact, in the dict's insertion order. */
  function Flatten(b: ContactBook, upto: nat): seq<ContactEntry>
    requires Indexed(b) && upto <= |b.order|
  {
    if upto == 0 then []
    else Flatten(b, upto - 1) + EntriesOf(b.byId[b.order[upto - 1]])
  }

  /** What extract_contacts_from_abcddb returns for the three tables' rows. */
  function Simplified(records: seq<RecordRow>, phoneRows: seq<OwnedValue>, emailRows: seq<OwnedValue>): seq<ContactEntry> {
    var b := AttachAll(AttachAll(BookOf(records), phoneRows, true), emailRows, false);
    Flatten(b, |b.order|)
  }

  /** The record loop, the phone loop, the e-mail loop and the flattening loop of extract_contacts_from_abcddb. */
  method ExtractContactsFromAbcddb(records: seq<RecordRow>, phoneRows: seq<OwnedValue>, emailRows: seq<OwnedValue>)
    returns (simplified: seq<ContactEntry>)
    ensures simplified == Simplified(records, phoneRows, emailRows)
  {
    var order, contacts := LoadRecords(records);
    contacts := AttachValues(order, contacts, phoneRows, true);
    contacts := AttachValues(order, contacts, emailRows, false);
    simplified := SimplifyContacts(order, contacts);
  }

  /** The record loop: one contact per record id, in first-seen order. */
  method LoadRecords(records: seq<RecordRow>) returns (order: seq<int>, contacts: map<int, Contact>)
    ensures ContactBook(order, contacts) == BookOf(records)
  {
    order, contacts := [], map[];
    for n := 0 to |records|
      invariant ContactBook(order, contacts) == BookOf(records[..n])
    {
      assert records[..n + 1][..n] == records[..n];
      assert BookOf(records[..n + 1]) == AddRecord(BookOf(records[..n]), records[n]);
      var row := records[n];
      if row.pk !in contacts {
        order := order + [row.pk];
      }
      contacts := contacts[row.pk := Contact(FieldsOf(row), [], [])];
    }
    assert records[..|records|] == records;
  }

  /** The phone-number loop (`isPhone`) or the e-mail loop: appends each non-empty value to its existing owner. */
  method AttachValues(order: seq<int>, contacts0: map<int, Contact>, rows: seq<OwnedValue>, isPhone: bool)
    returns (contacts: map<int, Contact>)
    ensures ContactBook(order, contacts) == AttachAll(ContactBook(order, contacts0), rows, isPhone)
  {
    contacts := contacts0;
    for n := 0 to |rows|
      invariant ContactBook(order, contacts) == AttachAll(ContactBook(order, contacts0), rows[..n], isPhone)
    {
      assert rows[..n + 1][..n] == rows[..n];
      assert AttachAll(ContactBook(order, contacts0), rows[..n + 1], isPhone)
          == Attach(AttachAll(ContactBook(order, contacts0), rows[..n], isPhone), rows[n], isPhone);
      var row := rows[n];
      if row.owner.Some? && row.owner.value in contacts && row.value.Some? && row.value.value != "" {
        var c := contacts[row.owner.value];
        if isPhone {
          contacts := contacts[row.owner.value := c.(phones := c.phones + [row.value.value])];
        } else {
          contacts := contacts[row.owner.value := c.(emails := c.emails + [row.value.value])];
        }
      }
    }
    assert rows[..|rows|] == rows;
  }

  /** The final loop: every contact's entries, contact by contact in first-seen order. */
  method SimplifyContacts(order: seq<int>, contacts: map<int, Contact>) returns (simplified: seq<ContactEntry>)
    requires Indexed(ContactBook(order, contacts))
    ensures simplified == Flatten(ContactBook(order, contacts), |order|)
  {
    simplified := [];
    for n := 0 to |order|
      invariant simplified == Flatten(ContactBook(order, contacts), n)
    {
      simplified := simplified + EntriesOf(contacts[order[n]]);
    }
  }

  // ---------------------------------------------------------------- properties

  /** A phone number or address is attached to a contact only when its owner exists and it is non-empty. */
  lemma {:induction false} AttachedValuesComeFromRows(b: ContactBook, rows: seq<OwnedValue>, isPhone: bool, id: int, v: string)
    requires id in b.byId
    requires v in (if isPhone then AttachAll(b, rows, isPhone).byId[id].phones else AttachAll(b, rows, isPhone).byId[id].emails)
    ensures v in (if isPhone then b.byId[id].phones else b.byId[id].emails)
      || (v != "" && OwnedValue(Some(id), Some(v)) in rows)
  {
    if rows != [] {
      var prefix := rows[..|rows| - 1];
      var before := AttachAll(b, prefix, isPhone);
      var row := rows[|rows| - 1];
      var vs := if isPhone then before.byId[id].phones else before.byId[id].emails;
      if v in vs {
        AttachedValuesComeFromRows(b, prefix, isPhone, id, v);
        if !(v in (if isPhone then b.byId[id].phones else b.byId[id].emails)) {
          assert OwnedValue(Some(id), Some(v)) in prefix;
        }
      } else {
        assert row == OwnedValue(Some(id), Some(v));
      }
    }
  }

  /** Every flattened entry has a phone number or an e-mail address and never both. */
  lemma {:induction false} FlattenEntriesHaveOneContactPoint(b: ContactBook, upto: nat)
    requires Indexed(b) && upto <= |b.order|
    ensures forall e :: e in Flatten(b, upto) ==> (e.phoneNumber.Some? <==> e.email.None?)
  {
    if upto > 0 {
      FlattenEntriesHaveOneContactPoint(b, upto - 1);
      var c := b.byId[b.order[upto - 1]];
      var es := EntriesOf(c);
      forall e | e in es ensures e.phoneNumber.Some? <==> e.email.None? {
        var k :| 0 <= k < |es| && es[k] == e;
        if k >= |c.phones| {
          assert es[|c.phones| + (k - |c.phones|)] == e;
        }
      }
    }
  }

  /** The number of flattened entries is the number of attached phone numbers and e-mail addresses. */
  lemma {:induction false} FlattenLength(b: ContactBook, upto: nat)
    requires Indexed(b) && upto <= |b.order|
    ensures |Flatten(b, upto)| == CountContactPoints(b, upto)
  {
    if upto > 0 {
      FlattenLength(b, upto - 1);
    }
  }

  function CountContactPoints(b: ContactBook, upto: nat): nat
    requires Indexed(b) && upto <= |b.order|
  {
    if upto == 0 then 0
    else CountContactPoints(b, upto - 1) + |b.byId[b.order[upto - 1]].phones| + |b.byId[b.order[upto - 1]].emails|
  }

  /** `df.filter(Phone Number is not null | Email is not null)`. */
  function KeepReachable(entries: seq<ContactEntry>): (r: seq<ContactEntry>)
    ensures forall e :: e in r ==> e in entries && (e.phoneNumber.Some? || e.email.Some?)
  {
    if entries == [] then []
    else if entries[0].phoneNumber.Some? || entries[0].email.Some? then [entries[0]] + KeepReachable(entries[1..])
    else KeepReachable(entries[1..])
  }

  lemma {:induction false} KeepReachableKeepsAll(entries: seq<ContactEntry>)
    requires forall e :: e in entries ==> e.phoneNumber.Some? || e.email.Some?
    ensures KeepReachable(entries) == entries
  {
    if entries != [] {
      KeepReachableKeepsAll(entries[1..]);
      assert entries == [entries[0]] + entries[1..];
    }
  }

  /**
   * extract_contacts: the entries of every address-book database, in order, then the
   * phone-or-email filter. With no database, or no entry in any of them, the result is
   * `pl.DataFrame()`, a frame without columns, modelled as None.
   */
  method ExtractContacts(databases: seq<(seq<RecordRow>, seq<OwnedValue>, seq<OwnedValue>)>)
    returns (df: Option<seq<ContactEntry>>)
    ensures df.None? <==> databases == [] || AllEntries(databases) == []
    ensures df.Some? ==> df.value == AllEntries(databases) && df.value != []
    ensures df.Some? ==> forall e :: e in df.value ==> (e.phoneNumber.Some? <==> e.email.None?)
  {
    if |databases| == 0 {
      return None;
    }
    var contacts: seq<ContactEntry> := [];
    for n := 0 to |databases|
      invariant contacts == AllEntries(databases[..n])
    {
      assert databases[..n + 1][..n] == databases[..n];
      var db := databases[n];
      var more := ExtractContactsFromAbcddb(db.0, db.1, db.2);
      contacts := contacts + more;
    }
    assert databases[..|databases|] == databases;
    if |contacts| == 0 {
      return None;
    }
    AllEntriesHaveOneContactPoint(databases);
    KeepReachableKeepsAll(contacts);
    df := Some(KeepReachable(contacts));
  }

  function AllEntries(databases: seq<(seq<RecordRow>, seq<OwnedValue>, seq<OwnedValue>)>): seq<ContactEntry> {
    if databases == [] then []
    else
      var db := databases[|databases| - 1];
      AllEntries(databases[..|databases| - 1]) + Simplified(db.0, db.1, db.2)
  }

  lemma {:induction false} AllEntriesHaveOneContactPoint(databases: seq<(seq<RecordRow>, seq<OwnedValue>, seq<OwnedValue>)>)
    ensures forall e :: e in AllEntries(databases) ==> (e.phoneNumber.Some? <==> e.email.None?)
  {
    if databases != [] {
      AllEntriesHaveOneContactPoint(databases[..|databases| - 1]);
      var db := databases[|databases| - 1];
      var b := AttachAll(AttachAll(BookOf(db.0), db.1, true), db.2, false);
      FlattenEntriesHaveOneContactPoint(b, |b.order|);
    }
  }
}
