/**
 The contact tables: rows with tombstones, and one index table each for e-mail
 addresses and phone numbers.
 */
module Contacts {
  import opened Options
  import opened Text

  datatype Name = Name(first: string, last: string, nick: string, display: string)

  /** An e-mail address or phone number with its label. */
  datatype Entry = Entry(value: string, kind: string)

  datatype Flags = Flags(trusted: bool, emergency: bool, favorite: bool, temporary: bool)

  datatype Contact = Contact(
    id: string, name: Name, emails: seq<Entry>, phones: seq<Entry>, flags: Flags,
    source: Option<string>, organization: Option<string>, modifiedAt: int)

  datatype Row = Row(
    name: Name, flags: Flags, source: Option<string>, organization: Option<string>,
    modifiedAt: int, deletedAt: Option<int>)

  datatype IndexRow = IndexRow(contactId: string, value: string, kind: string, normalized: string)

  type Index = seq<IndexRow>

  datatype Store = Store(rows: map<string, Row>, emails: Index, phones: Index)

  const Empty := Store(map[], [], [])

  // ---------------------------------------------------------------------------
  // Normalisation
  // ---------------------------------------------------------------------------

  function LowerChar(c: char): char {
    if 'A' <= c <= 'Z' then c - 'A' + 'a' else c
  }

  function Lower(s: string): (r: string)
    ensures |r| == |s| && forall i | 0 <= i < |s| :: r[i] == LowerChar(s[i])
  {
    if s == [] then [] else [LowerChar(s[0])] + Lower(s[1..])
  }

  function NormalizeEmail(s: string): string {
    Lower(Trim(s))
  }

  predicate IsDigit(c: char) { '0' <= c <= '9' }

  /** Digits, and a plus sign if it comes first. */
  function PhoneChars(s: string, first: bool): string {
    if s == [] then []
    else (if IsDigit(s[0]) || (first && s[0] == '+') then [s[0]] else []) + PhoneChars(s[1..], false)
  }

  function NormalizePhone(s: string): string {
    PhoneChars(Trim(s), true)
  }

  function TrimEntry(e: Entry): Entry {
    Entry(Trim(e.value), Trim(e.kind))
  }

  function CleanEmails(es: seq<Entry>): seq<Entry> {
    if es == [] then []
    else if TrimEntry(es[0]).value != [] then [TrimEntry(es[0])] + CleanEmails(es[1..])
    else CleanEmails(es[1..])
  }

  function CleanPhones(es: seq<Entry>): seq<Entry> {
    if es == [] then []
    else if NormalizePhone(TrimEntry(es[0]).value) != [] then [TrimEntry(es[0])] + CleanPhones(es[1..])
    else CleanPhones(es[1..])
  }

  function CleanOptional(o: Option<string>): Option<string> {
    if o.Some? && Trim(o.value) != [] then Some(Trim(o.value)) else None
  }

  function NormalizeContact(c: Contact): Contact {
    c.(id := Trim(c.id),
       name := Name(Trim(c.name.first), Trim(c.name.last), Trim(c.name.nick), Trim(c.name.display)),
       emails := CleanEmails(c.emails), phones := CleanPhones(c.phones),
       source := CleanOptional(c.source), organization := CleanOptional(c.organization))
  }

  lemma DigitsAreKept(s: string)
    requires forall i | 0 <= i < |s| :: IsDigit(s[i])
    ensures PhoneChars(s, false) == s && PhoneChars(s, true) == s
  {
    if s != [] {
      DigitsAreKept(s[1..]);
    }
  }

  lemma {:induction false} PhoneCharsShape(s: string)
    ensures forall i | 0 <= i < |PhoneChars(s, false)| :: IsDigit(PhoneChars(s, false)[i])
  {
    if s != [] {
      PhoneCharsShape(s[1..]);
    }
  }

  lemma NormalizePhoneIdempotent(s: string)
    ensures NormalizePhone(NormalizePhone(s)) == NormalizePhone(s)
  {
    var t := Trim(s);
    var r := NormalizePhone(s);
    if t != [] {
      PhoneCharsShape(t[1..]);
      var tail := PhoneChars(t[1..], false);
      DigitsAreKept(tail);
      assert IsTrimmed(r);
      TrimmedIsFixed(r);
      if r != tail {
        assert r == [t[0]] + tail && r[1..] == tail;
      }
    }
  }

  lemma NormalizeEmailIdempotent(s: string)
    ensures NormalizeEmail(NormalizeEmail(s)) == NormalizeEmail(s)
  {
    var _, _ := TrimSplits(s);
    LowerStable(Trim(s));
    TrimmedIsFixed(Lower(Trim(s)));
  }

  lemma LowerCharStable(c: char)
    ensures LowerChar(LowerChar(c)) == LowerChar(c) && (IsSpace(LowerChar(c)) <==> IsSpace(c))
  {
  }

  lemma LowerStable(t: string)
    requires IsTrimmed(t)
    ensures Lower(Lower(t)) == Lower(t) && IsTrimmed(Lower(t))
  {
    forall i | 0 <= i < |t| ensures Lower(Lower(t))[i] == Lower(t)[i] {
      LowerCharStable(t[i]);
    }
    if t != [] {
      LowerCharStable(t[0]);
      LowerCharStable(t[|t| - 1]);
    }
  }

  lemma {:induction false} CleanTwice(es: seq<Entry>)
    ensures CleanEmails(CleanEmails(es)) == CleanEmails(es)
    ensures CleanPhones(CleanPhones(es)) == CleanPhones(es)
  {
    if es != [] {
      var e := TrimEntry(es[0]);
      CleanTwice(es[1..]);
      TrimIdempotent(es[0].value);
      TrimIdempotent(es[0].kind);
      assert TrimEntry(e) == e;
      assert ([e] + CleanEmails(es[1..]))[1..] == CleanEmails(es[1..]);
      assert ([e] + CleanPhones(es[1..]))[1..] == CleanPhones(es[1..]);
    }
  }

  lemma CleanOptionalTwice(o: Option<string>)
    ensures CleanOptional(CleanOptional(o)) == CleanOptional(o)
  {
    if o.Some? {
      TrimIdempotent(o.value);
    }
  }

  /** Normalising a normalised contact changes nothing. */
  lemma NormalizeContactIdempotent(c: Contact)
    ensures NormalizeContact(NormalizeContact(c)) == NormalizeContact(c)
  {
    TrimIdempotent(c.id);
    TrimIdempotent(c.name.first);
    TrimIdempotent(c.name.last);
    TrimIdempotent(c.name.nick);
    TrimIdempotent(c.name.display);
    CleanTwice(c.emails);
    CleanTwice(c.phones);
    CleanOptionalTwice(c.source);
    CleanOptionalTwice(c.organization);
  }

  // ---------------------------------------------------------------------------
  // Validation
  // ---------------------------------------------------------------------------

  predicate Valid(c: Contact) {
    && (c.name.display != [] || c.name.first != [] || c.name.last != []
        || (exists i | 0 <= i < |c.emails| :: c.emails[i].value != [])
        || (exists i | 0 <= i < |c.phones| :: NormalizePhone(c.phones[i].value) != []))
    && (forall i | 0 <= i < |c.emails| :: '@' in c.emails[i].value)
  }

  /** A batch is accepted if every contact is valid and no given id occurs twice. */
  predicate ValidBatch(cs: seq<Contact>) {
    && (forall i | 0 <= i < |cs| :: Valid(NormalizeContact(cs[i])))
    && (forall i, j | 0 <= i < j < |cs| ::
          NormalizeContact(cs[i]).id == [] || NormalizeContact(cs[i]).id != NormalizeContact(cs[j]).id)
  }

  // ---------------------------------------------------------------------------
  // Tables
  // ---------------------------------------------------------------------------

  predicate IsLive(s: Store, id: string) {
    id in s.rows && s.rows[id].deletedAt.None?
  }

  function LiveIds(s: Store): set<string> {
    set id | id in s.rows && IsLive(s, id)
  }

  function EntriesOf(index: Index, id: string): seq<Entry> {
    if index == [] then []
    else if index[0].contactId == id then [Entry(index[0].value, index[0].kind)] + EntriesOf(index[1..], id)
    else EntriesOf(index[1..], id)
  }

  function Without(index: Index, id: string): Index {
    if index == [] then []
    else if index[0].contactId != id then [index[0]] + Without(index[1..], id)
    else Without(index[1..], id)
  }

  function IndexRows(id: string, es: seq<Entry>, normalize: string -> string): Index {
    if es == [] then []
    else [IndexRow(id, es[0].value, es[0].kind, normalize(es[0].value))] + IndexRows(id, es[1..], normalize)
  }

  /** A live contact as the queries assemble it. */
  function Read(s: Store, id: string): Option<Contact> {
    if !IsLive(s, id) then None else
    var r := s.rows[id];
    Some(Contact(id, r.name, EntriesOf(s.emails, id), EntriesOf(s.phones, id), r.flags, r.source, r.organization,
                 r.modifiedAt))
  }

  function Save(s: Store, c: Contact, ts: int): Store {
    Store(
      s.rows[c.id := Row(c.name, c.flags, c.source, c.organization, ts, None)],
      Without(s.emails, c.id) + IndexRows(c.id, c.emails, NormalizeEmail),
      Without(s.phones, c.id) + IndexRows(c.id, c.phones, NormalizePhone))
  }

  /** Marks a live row deleted; its index rows stay. */
  function Delete(s: Store, id: string, ts: int): Store {
    if !IsLive(s, id) then s else
    s.(rows := s.rows[id := s.rows[id].(deletedAt := Some(ts), modifiedAt := ts)])
  }

  lemma {:induction false} EntriesOfConcat(a: Index, b: Index, id: string)
    ensures EntriesOf(a + b, id) == EntriesOf(a, id) + EntriesOf(b, id)
  {
    if a == [] {
      assert a + b == b;
    } else {
      assert (a + b)[1..] == a[1..] + b;
      EntriesOfConcat(a[1..], b, id);
    }
  }

  lemma {:induction false} EntriesWithout(index: Index, gone: string, id: string)
    ensures EntriesOf(Without(index, gone), id) == if id == gone then [] else EntriesOf(index, id)
  {
    if index != [] {
      EntriesWithout(index[1..], gone, id);
      var rest := Without(index[1..], gone);
      assert ([index[0]] + rest)[1..] == rest;
    }
  }

  lemma {:induction false} EntriesOfIndexRows(owner: string, es: seq<Entry>, normalize: string -> string, id: string)
    ensures EntriesOf(IndexRows(owner, es, normalize), id) == if id == owner then es else []
  {
    if es != [] {
      EntriesOfIndexRows(owner, es[1..], normalize, id);
      var row := IndexRow(owner, es[0].value, es[0].kind, normalize(es[0].value));
      assert ([row] + IndexRows(owner, es[1..], normalize))[1..] == IndexRows(owner, es[1..], normalize);
      assert es == [es[0]] + es[1..];
    }
  }

  lemma EntriesAfterReplace(index: Index, owner: string, es: seq<Entry>, normalize: string -> string, id: string)
    ensures EntriesOf(Without(index, owner) + IndexRows(owner, es, normalize), id) ==
            if id == owner then es else EntriesOf(index, id)
  {
    EntriesOfConcat(Without(index, owner), IndexRows(owner, es, normalize), id);
    EntriesWithout(index, owner, id);
    EntriesOfIndexRows(owner, es, normalize, id);
  }

  /**
   Saving a contact makes exactly that contact, stamped, readable under its id,
   whether the id was new, live or deleted; every other contact reads as before.
   */
  lemma SaveThenRead(s: Store, c: Contact, ts: int, id: string)
    ensures Read(Save(s, c, ts), id) == if id == c.id then Some(c.(modifiedAt := ts)) else Read(s, id)
    ensures LiveIds(Save(s, c, ts)) == LiveIds(s) + {c.id}
  {
    EntriesAfterReplace(s.emails, c.id, c.emails, NormalizeEmail, id);
    EntriesAfterReplace(s.phones, c.id, c.phones, NormalizePhone, id);
  }

  lemma DeleteThenRead(s: Store, gone: string, ts: int, id: string)
    ensures Read(Delete(s, gone, ts), id) == if id == gone then None else Read(s, id)
    ensures LiveIds(Delete(s, gone, ts)) == LiveIds(s) - {gone}
  {
  }

  // ---------------------------------------------------------------------------
  // The normalised index
  // ---------------------------------------------------------------------------

  predicate IndexOk(index: Index, rows: map<string, Row>, normalize: string -> string) {
    forall i | 0 <= i < |index| ::
      index[i].contactId in rows && index[i].normalized == normalize(index[i].value)
  }

  predicate Inv(s: Store) {
    IndexOk(s.emails, s.rows, NormalizeEmail) && IndexOk(s.phones, s.rows, NormalizePhone)
  }

  lemma {:induction false} IndexOkWithout(index: Index, rows: map<string, Row>, normalize: string -> string, id: string)
    requires IndexOk(index, rows, normalize)
    ensures IndexOk(Without(index, id), rows, normalize)
  {
    if index != [] {
      assert IndexOk(index[1..], rows, normalize) by {
        assert forall i | 0 <= i < |index[1..]| :: index[1..][i] == index[i + 1];
      }
      IndexOkWithout(index[1..], rows, normalize, id);
      assert index[0].contactId in rows;
    }
  }

  lemma {:induction false} IndexOkRows(id: string, es: seq<Entry>, normalize: string -> string, rows: map<string, Row>)
    requires id in rows
    ensures IndexOk(IndexRows(id, es, normalize), rows, normalize)
  {
    if es != [] {
      IndexOkRows(id, es[1..], normalize, rows);
    }
  }

  lemma SaveKeepsInv(s: Store, c: Contact, ts: int)
    requires Inv(s)
    ensures Inv(Save(s, c, ts))
  {
    var rows := Save(s, c, ts).rows;
    assert IndexOk(s.emails, rows, NormalizeEmail) && IndexOk(s.phones, rows, NormalizePhone);
    IndexOkWithout(s.emails, rows, NormalizeEmail, c.id);
    IndexOkWithout(s.phones, rows, NormalizePhone, c.id);
    IndexOkRows(c.id, c.emails, NormalizeEmail, rows);
    IndexOkRows(c.id, c.phones, NormalizePhone, rows);
  }

  lemma DeleteKeepsInv(s: Store, id: string, ts: int)
    requires Inv(s)
    ensures Inv(Delete(s, id, ts))
  {
  }

  // ---------------------------------------------------------------------------
  // Matching by phone number or e-mail address
  // ---------------------------------------------------------------------------

  /** Live contacts with an index row for `normalized`; the query returns any one of them. */
  function Lookup(s: Store, index: Index, normalized: string): set<string> {
    set i | 0 <= i < |index| && index[i].normalized == normalized && IsLive(s, index[i].contactId) :: index[i].contactId
  }

  /** The answer to the first query that has one. */
  function FirstLookup(s: Store, index: Index, es: seq<Entry>, normalize: string -> string): set<string> {
    if es == [] then {}
    else
      var here := Lookup(s, index, normalize(es[0].value));
      if here != {} then here else FirstLookup(s, index, es[1..], normalize)
  }

  /** Phone numbers first, then e-mail addresses. */
  function Candidates(s: Store, c: Contact): set<string> {
    var byPhone := FirstLookup(s, s.phones, c.phones, NormalizePhone);
    if byPhone != {} then byPhone else FirstLookup(s, s.emails, c.emails, NormalizeEmail)
  }

  /** Two entry lists share an entry up to normalisation. */
  predicate Shares(a: seq<Entry>, b: seq<Entry>, normalize: string -> string) {
    exists i, j | 0 <= i < |a| && 0 <= j < |b| :: normalize(a[i].value) == normalize(b[j].value)
  }

  lemma {:induction false} EntriesOfMember(index: Index, id: string, e: Entry)
    ensures e in EntriesOf(index, id) <==>
            exists i :: 0 <= i < |index| && index[i].contactId == id && Entry(index[i].value, index[i].kind) == e
  {
    if index != [] {
      EntriesOfMember(index[1..], id, e);
      if e in EntriesOf(index[1..], id) {
        var i :| 0 <= i < |index[1..]| && index[1..][i].contactId == id
                 && Entry(index[1..][i].value, index[1..][i].kind) == e;
        assert index[i + 1] == index[1..][i];
      }
      if i :| 0 <= i < |index| && index[i].contactId == id && Entry(index[i].value, index[i].kind) == e {
        if i > 0 { assert index[1..][i - 1] == index[i]; }
      }
    }
  }

  /** The index answers exactly like a scan of the live contacts. */
  lemma LookupIsScan(s: Store, index: Index, normalize: string -> string, normalized: string, id: string)
    requires IndexOk(index, s.rows, normalize)
    ensures id in Lookup(s, index, normalized) <==>
            IsLive(s, id) && exists e :: e in EntriesOf(index, id) && normalize(e.value) == normalized
  {
    if id in Lookup(s, index, normalized) {
      var i :| 0 <= i < |index| && index[i].normalized == normalized && IsLive(s, index[i].contactId)
               && index[i].contactId == id;
      EntriesOfMember(index, id, Entry(index[i].value, index[i].kind));
    }
    if IsLive(s, id) && exists e :: e in EntriesOf(index, id) && normalize(e.value) == normalized {
      var e :| e in EntriesOf(index, id) && normalize(e.value) == normalized;
      EntriesOfMember(index, id, e);
      var i :| 0 <= i < |index| && index[i].contactId == id && Entry(index[i].value, index[i].kind) == e;
      assert index[i].contactId in Lookup(s, index, normalized);
    }
  }

  lemma {:induction false} FirstLookupIsScan(s: Store, index: Index, es: seq<Entry>, normalize: string -> string)
    requires IndexOk(index, s.rows, normalize)
    ensures forall id | id in FirstLookup(s, index, es, normalize) ::
              IsLive(s, id) && Shares(es, EntriesOf(index, id), normalize)
    ensures forall id | IsLive(s, id) && Shares(es, EntriesOf(index, id), normalize) ::
              FirstLookup(s, index, es, normalize) != {}
  {
    if es != [] {
      FirstLookupIsScan(s, index, es[1..], normalize);
      var wanted := normalize(es[0].value);
      forall id | id in FirstLookup(s, index, es, normalize)
        ensures IsLive(s, id) && Shares(es, EntriesOf(index, id), normalize)
      {
        LookupIsScan(s, index, normalize, wanted, id);
        SharesTail(es, EntriesOf(index, id), normalize);
      }
      forall id | IsLive(s, id) && Shares(es, EntriesOf(index, id), normalize)
        ensures FirstLookup(s, index, es, normalize) != {}
      {
        LookupIsScan(s, index, normalize, wanted, id);
        SharesTail(es, EntriesOf(index, id), normalize);
      }
    }
  }

  lemma SharesTail(es: seq<Entry>, b: seq<Entry>, normalize: string -> string)
    requires es != []
    ensures Shares(es, b, normalize) <==>
            (exists e :: e in b && normalize(e.value) == normalize(es[0].value)) || Shares(es[1..], b, normalize)
  {
    if Shares(es, b, normalize) {
      var i, j :| 0 <= i < |es| && 0 <= j < |b| && normalize(es[i].value) == normalize(b[j].value);
      if i == 0 {
        assert b[j] in b;
      } else {
        assert es[1..][i - 1] == es[i];
      }
    }
    if e :| e in b && normalize(e.value) == normalize(es[0].value) {
      var j :| 0 <= j < |b| && b[j] == e;
    }
    if Shares(es[1..], b, normalize) {
      var i, j :| 0 <= i < |es[1..]| && 0 <= j < |b| && normalize(es[1..][i].value) == normalize(b[j].value);
      assert es[i + 1] == es[1..][i];
    }
  }

  predicate SharesPhone(c: Contact, d: Contact) {
    Shares(c.phones, d.phones, NormalizePhone)
  }

  predicate SharesEmail(c: Contact, d: Contact) {
    Shares(c.emails, d.emails, NormalizeEmail)
  }

  /**
   A match is found exactly when some live contact shares a normalised phone
   number or e-mail address; whatever is found shares one, and shares a phone
   number if any live contact does.
   */
  lemma MatchIsScan(s: Store, c: Contact)
    requires Inv(s)
    ensures Candidates(s, c) != {} <==>
            exists id :: IsLive(s, id) && (SharesPhone(c, Read(s, id).value) || SharesEmail(c, Read(s, id).value))
    ensures forall id | id in Candidates(s, c) ::
              IsLive(s, id) && (SharesPhone(c, Read(s, id).value) || SharesEmail(c, Read(s, id).value))
    ensures (exists id :: IsLive(s, id) && SharesPhone(c, Read(s, id).value)) ==>
              forall id | id in Candidates(s, c) :: SharesPhone(c, Read(s, id).value)
  {
    FirstLookupIsScan(s, s.phones, c.phones, NormalizePhone);
    FirstLookupIsScan(s, s.emails, c.emails, NormalizeEmail);
    if Candidates(s, c) != {} {
      var id :| id in Candidates(s, c);
    }
  }
}
