/**
 What normalising keeps: which phone numbers and which e-mail addresses count as
 the same, which entries of a contact survive, and which contacts are accepted.
 */
module ContactForms {
  import opened Options
  import opened Text
  import opened Contacts

  // ---------------------------------------------------------------------------
  // Phone numbers
  // ---------------------------------------------------------------------------

  /** The decimal digits of `s`, in order; DigitsConcat and DigitsOne say so for every split. */
  function Digits(s: string): string {
    if s == [] then []
    else if '0' <= s[0] <= '9' then [s[0]] + Digits(s[1..])
    else Digits(s[1..])
  }

  /** The first character that is not a blank is a plus sign. */
  predicate LeadingPlus(s: string) {
    exists i | 0 <= i < |s| :: s[i] == '+' && IsBlank(s[..i])
  }

  lemma {:induction false} DigitsConcat(a: string, b: string)
    ensures Digits(a + b) == Digits(a) + Digits(b)
  {
    if a == [] {
      assert a + b == b;
    } else {
      assert (a + b)[1..] == a[1..] + b;
      DigitsConcat(a[1..], b);
    }
  }

  lemma DigitsOne(c: char)
    ensures Digits([c]) == if '0' <= c <= '9' then [c] else []
  {
  }

  lemma {:induction false} BlankHasNoDigits(s: string)
    requires IsBlank(s)
    ensures Digits(s) == []
  {
    if s != [] {
      assert IsSpace(s[0]);
      assert forall i | 0 <= i < |s[1..]| :: s[1..][i] == s[i + 1];
      BlankHasNoDigits(s[1..]);
    }
  }

  lemma DigitsOfTrimmed(s: string)
    ensures Digits(Trim(s)) == Digits(s)
  {
    var a, b := TrimSplits(s);
    assert s == s[..a] + (s[a..b] + s[b..]);
    DigitsConcat(s[..a], s[a..b] + s[b..]);
    DigitsConcat(s[a..b], s[b..]);
    BlankHasNoDigits(s[..a]);
    BlankHasNoDigits(s[b..]);
  }

  lemma InsideTrim(s: string, a: nat, b: nat, i: nat)
    requires a <= b <= |s| && IsBlank(s[..a]) && IsBlank(s[b..])
    requires i < |s| && !IsSpace(s[i])
    ensures a <= i < b
  {
    assert forall j | 0 <= j < a :: s[..a][j] == s[j];
    assert forall j | b <= j < |s| :: s[b..][j - b] == s[j];
  }

  lemma LeadingPlusIsFirst(s: string)
    ensures LeadingPlus(s) <==> Trim(s) != [] && Trim(s)[0] == '+'
  {
    var a, b := TrimSplits(s);
    if a < b && s[a] == '+' {
      assert IsBlank(s[..a]);
    }
    if i :| 0 <= i < |s| && s[i] == '+' && IsBlank(s[..i]) {
      InsideTrim(s, a, b, i);
      assert Trim(s)[0] == s[a];
      assert forall j | 0 <= j < i :: s[..i][j] == s[j];
    }
  }

  lemma {:induction false} LaterCharsAreDigits(s: string)
    ensures PhoneChars(s, false) == Digits(s)
  {
    if s != [] {
      LaterCharsAreDigits(s[1..]);
    }
  }

  /** Normalising a phone number keeps all its digits in order, and a plus sign if one leads it. */
  lemma NormalizePhoneKeeps(s: string)
    ensures NormalizePhone(s) == (if LeadingPlus(s) then "+" else "") + Digits(s)
  {
    LeadingPlusIsFirst(s);
    DigitsOfTrimmed(s);
    var t := Trim(s);
    if t != [] {
      LaterCharsAreDigits(t[1..]);
    }
  }

  lemma {:induction false} NoPlusAmongDigits(s: string)
    ensures '+' !in Digits(s)
  {
    if s != [] {
      NoPlusAmongDigits(s[1..]);
    }
  }

  /** Two phone numbers count as the same exactly when they have the same digits in the same order and
      either both or neither is led by a plus sign. */
  lemma PhonesMatchIff(s: string, t: string)
    ensures NormalizePhone(s) == NormalizePhone(t) <==>
            Digits(s) == Digits(t) && (LeadingPlus(s) <==> LeadingPlus(t))
  {
    NormalizePhoneKeeps(s);
    NormalizePhoneKeeps(t);
    NoPlusAmongDigits(s);
    NoPlusAmongDigits(t);
    PlusCancels(LeadingPlus(s), LeadingPlus(t), Digits(s), Digits(t));
  }

  lemma PlusCancels(p: bool, q: bool, a: string, b: string)
    requires '+' !in a && '+' !in b
    ensures (if p then "+" else "") + a == (if q then "+" else "") + b <==> p == q && a == b
  {
    if p && q {
      assert ("+" + a)[1..] == a && ("+" + b)[1..] == b;
    } else if p {
      assert "" + b == b && '+' in "+" + a;
    } else if q {
      assert "" + a == a && '+' in "+" + b;
    } else {
      assert "" + a == a && "" + b == b;
    }
  }

  // ---------------------------------------------------------------------------
  // E-mail addresses
  // ---------------------------------------------------------------------------

  /** Equal, or the two cases of one letter from A to Z. */
  predicate SameLetter(c: char, d: char) {
    || c == d
    || ('A' <= c <= 'Z' && d as int - c as int == 32)
    || ('A' <= d <= 'Z' && c as int - d as int == 32)
  }

  predicate SameButForCase(s: string, t: string) {
    |s| == |t| && forall i | 0 <= i < |s| :: SameLetter(s[i], t[i])
  }

  lemma LowerCharKeeps(c: char, d: char)
    ensures SameLetter(LowerChar(c), c) && !('A' <= LowerChar(c) <= 'Z')
    ensures LowerChar(c) == LowerChar(d) <==> SameLetter(c, d)
  {
  }

  /** Normalising an address removes its outer blanks and its capitals and keeps everything else. */
  lemma NormalizeEmailKeeps(s: string)
    ensures SameButForCase(NormalizeEmail(s), Trim(s))
    ensures forall i | 0 <= i < |NormalizeEmail(s)| :: !('A' <= NormalizeEmail(s)[i] <= 'Z')
  {
    forall i | 0 <= i < |Trim(s)|
      ensures SameLetter(NormalizeEmail(s)[i], Trim(s)[i]) && !('A' <= NormalizeEmail(s)[i] <= 'Z')
    {
      LowerCharKeeps(Trim(s)[i], Trim(s)[i]);
    }
  }

  /** Two addresses count as the same exactly when they differ in outer blanks and case only. */
  lemma EmailsMatchIff(s: string, t: string)
    ensures NormalizeEmail(s) == NormalizeEmail(t) <==> SameButForCase(Trim(s), Trim(t))
  {
    var a, b := Trim(s), Trim(t);
    if |a| == |b| {
      forall i | 0 <= i < |a| ensures Lower(a)[i] == Lower(b)[i] <==> SameLetter(a[i], b[i]) {
        LowerCharKeeps(a[i], b[i]);
      }
    }
    if Lower(a) == Lower(b) {
      assert |Lower(a)| == |Lower(b)|;
    }
  }

  // ---------------------------------------------------------------------------
  // Matching, read off the texts
  // ---------------------------------------------------------------------------

  predicate SamePhone(e: Entry, f: Entry) {
    Digits(e.value) == Digits(f.value) && (LeadingPlus(e.value) <==> LeadingPlus(f.value))
  }

  predicate SameEmail(e: Entry, f: Entry) {
    SameButForCase(Trim(e.value), Trim(f.value))
  }

  ghost predicate PhoneInCommon(c: Contact, d: Contact) {
    exists e, f :: e in c.phones && f in d.phones && SamePhone(e, f)
  }

  ghost predicate AddressInCommon(c: Contact, d: Contact) {
    exists e, f :: e in c.emails && f in d.emails && SameEmail(e, f)
  }

  /** Two contacts share a phone number or an address exactly when two of their texts agree in the sense above. */
  lemma SharesIff(c: Contact, d: Contact)
    ensures SharesPhone(c, d) <==> PhoneInCommon(c, d)
    ensures SharesEmail(c, d) <==> AddressInCommon(c, d)
  {
    forall e: Entry, f: Entry ensures NormalizePhone(e.value) == NormalizePhone(f.value) <==> SamePhone(e, f) {
      PhonesMatchIff(e.value, f.value);
    }
    forall e: Entry, f: Entry ensures NormalizeEmail(e.value) == NormalizeEmail(f.value) <==> SameEmail(e, f) {
      EmailsMatchIff(e.value, f.value);
    }
    SharesMembers(c.phones, d.phones, NormalizePhone, SamePhone);
    SharesMembers(c.emails, d.emails, NormalizeEmail, SameEmail);
  }

  lemma SharesMembers(
    a: seq<Entry>, b: seq<Entry>, normalize: string -> string, same: (Entry, Entry) -> bool)
    requires forall e: Entry, f: Entry :: normalize(e.value) == normalize(f.value) <==> same(e, f)
    ensures Shares(a, b, normalize) <==> exists e, f :: e in a && f in b && same(e, f)
  {
    if Shares(a, b, normalize) {
      var i, j :| 0 <= i < |a| && 0 <= j < |b| && normalize(a[i].value) == normalize(b[j].value);
      assert a[i] in a && b[j] in b && same(a[i], b[j]);
    }
    if e, f :| e in a && f in b && same(e, f) {
      var i :| 0 <= i < |a| && a[i] == e;
      var j :| 0 <= j < |b| && b[j] == f;
    }
  }

  /**
   A match is found exactly when some live contact has a phone number or address
   in common; whatever is found has one, and a phone number if any live contact does.
   */
  lemma MatchIffInCommon(s: Store, c: Contact)
    requires Inv(s)
    ensures Candidates(s, c) != {} <==>
            exists id :: IsLive(s, id) && (PhoneInCommon(c, Read(s, id).value) || AddressInCommon(c, Read(s, id).value))
    ensures forall id | id in Candidates(s, c) ::
              IsLive(s, id) && (PhoneInCommon(c, Read(s, id).value) || AddressInCommon(c, Read(s, id).value))
    ensures (exists id :: IsLive(s, id) && PhoneInCommon(c, Read(s, id).value)) ==>
              forall id | id in Candidates(s, c) :: PhoneInCommon(c, Read(s, id).value)
  {
    MatchIsScan(s, c);
    forall d: Contact
      ensures SharesPhone(c, d) <==> PhoneInCommon(c, d)
      ensures SharesEmail(c, d) <==> AddressInCommon(c, d)
    {
      SharesIff(c, d);
    }
  }

  /** The first entry that any live contact has decides which contacts are found. */
  lemma {:induction false} FirstEntryDecides(
    s: Store, index: Index, es: seq<Entry>, normalize: string -> string, k: nat)
    requires k < |es| && Lookup(s, index, normalize(es[k].value)) != {}
    requires forall j | 0 <= j < k :: Lookup(s, index, normalize(es[j].value)) == {}
    ensures FirstLookup(s, index, es, normalize) == Lookup(s, index, normalize(es[k].value))
    decreases k
  {
    if k > 0 {
      assert Lookup(s, index, normalize(es[0].value)) == {};
      assert forall j | 0 <= j < k - 1 :: es[1..][j] == es[j + 1];
      FirstEntryDecides(s, index, es[1..], normalize, k - 1);
    }
  }

  // ---------------------------------------------------------------------------
  // What survives of a contact, and which contacts are accepted
  // ---------------------------------------------------------------------------

  lemma {:induction false} CleanEmailsConcat(a: seq<Entry>, b: seq<Entry>)
    ensures CleanEmails(a + b) == CleanEmails(a) + CleanEmails(b)
  {
    if a == [] {
      assert a + b == b;
    } else {
      var ab := a + b;
      assert ab[0] == a[0] && ab[1..] == a[1..] + b;
      CleanEmailsConcat(a[1..], b);
      assert CleanEmails(ab[1..]) == CleanEmails(a[1..]) + CleanEmails(b);
    }
  }

  lemma {:induction false} CleanPhonesConcat(a: seq<Entry>, b: seq<Entry>)
    ensures CleanPhones(a + b) == CleanPhones(a) + CleanPhones(b)
  {
    if a == [] {
      assert a + b == b;
    } else {
      var ab := a + b;
      assert ab[0] == a[0] && ab[1..] == a[1..] + b;
      CleanPhonesConcat(a[1..], b);
      assert CleanPhones(ab[1..]) == CleanPhones(a[1..]) + CleanPhones(b);
    }
  }

  /** A phone number with a digit or a leading plus. */
  predicate Dialable(s: string) {
    Digits(s) != [] || LeadingPlus(s)
  }

  lemma DialableTrimmed(s: string)
    ensures NormalizePhone(Trim(s)) != [] <==> Dialable(s)
  {
    TrimIdempotent(s);
    NormalizePhoneKeeps(s);
  }

  /** An address survives, trimmed, unless it is blank; a phone number if it has a digit or a leading plus. */
  lemma CleanOne(e: Entry)
    ensures CleanEmails([e]) == if IsBlank(e.value) then [] else [Entry(Trim(e.value), Trim(e.kind))]
    ensures CleanPhones([e]) == if Dialable(e.value) then [Entry(Trim(e.value), Trim(e.kind))] else []
  {
    TrimEmptyIffBlank(e.value);
    DialableTrimmed(e.value);
    assert [e][1..] == [];
  }

  /** Everything else of a contact: texts are trimmed, blank optional ones dropped, flags and stamp kept. */
  lemma NormalizeContactKeeps(c: Contact)
    ensures
      var n := NormalizeContact(c);
      && n.id == Trim(c.id) && n.name.first == Trim(c.name.first) && n.name.last == Trim(c.name.last)
      && n.name.nick == Trim(c.name.nick) && n.name.display == Trim(c.name.display)
      && n.flags == c.flags && n.modifiedAt == c.modifiedAt
      && (n.source == None <==> c.source.None? || IsBlank(c.source.value))
      && (n.source.Some? ==> n.source.value == Trim(c.source.value))
      && (n.organization == None <==> c.organization.None? || IsBlank(c.organization.value))
      && (n.organization.Some? ==> n.organization.value == Trim(c.organization.value))
  {
    if c.source.Some? { TrimEmptyIffBlank(c.source.value); }
    if c.organization.Some? { TrimEmptyIffBlank(c.organization.value); }
  }

  lemma {:induction false} CleanMembers(es: seq<Entry>)
    ensures CleanEmails(es) != [] <==> exists e :: e in es && !IsBlank(e.value)
    ensures CleanPhones(es) != [] <==> exists e :: e in es && Dialable(e.value)
    ensures (forall e :: e in CleanEmails(es) ==> e.value != [])
    ensures (forall e :: e in CleanPhones(es) ==> NormalizePhone(e.value) != [])
    ensures (forall e :: e in CleanEmails(es) ==> '@' in e.value) <==>
            (forall e :: e in es && !IsBlank(e.value) ==> '@' in e.value)
  {
    if es != [] {
      var e, rest := es[0], es[1..];
      assert es == [e] + rest;
      CleanEmailsConcat([e], rest);
      CleanPhonesConcat([e], rest);
      CleanOne(e);
      CleanMembers(rest);
      TrimEmptyIffBlank(e.value);
      DialableTrimmed(e.value);
      TrimKeepsAt(e.value);
    }
  }

  lemma TrimKeepsAt(s: string)
    ensures '@' in Trim(s) <==> '@' in s
  {
    var a, b := TrimSplits(s);
    if '@' in s {
      var i :| 0 <= i < |s| && s[i] == '@';
      InsideTrim(s, a, b, i);
      assert Trim(s)[i - a] == '@';
    }
  }

  /**
   A contact is accepted exactly when something in it is not blank (a display,
   first or last name, an address, or a phone number that can be dialled) and
   every address that is not blank has an at sign.
   */
  lemma AcceptedIff(c: Contact)
    ensures Valid(NormalizeContact(c)) <==>
            && (|| !IsBlank(c.name.display) || !IsBlank(c.name.first) || !IsBlank(c.name.last)
                || (exists e :: e in c.emails && !IsBlank(e.value))
                || (exists e :: e in c.phones && Dialable(e.value)))
            && (forall e :: e in c.emails && !IsBlank(e.value) ==> '@' in e.value)
  {
    TrimEmptyIffBlank(c.name.display);
    TrimEmptyIffBlank(c.name.first);
    TrimEmptyIffBlank(c.name.last);
    CleanMembers(c.emails);
    CleanMembers(c.phones);
    ValidIsByMembers(NormalizeContact(c));
  }

  lemma ValidIsByMembers(n: Contact)
    requires forall e :: e in n.emails ==> e.value != []
    requires forall e :: e in n.phones ==> NormalizePhone(e.value) != []
    ensures Valid(n) <==>
            && (n.name.display != [] || n.name.first != [] || n.name.last != [] || n.emails != [] || n.phones != [])
            && (forall e :: e in n.emails ==> '@' in e.value)
  {
    if n.emails != [] { assert n.emails[0] in n.emails; }
    if n.phones != [] { assert n.phones[0] in n.phones; }
  }

  /** A batch is accepted exactly when each of its contacts is and no two give the same id. */
  lemma BatchAcceptedIff(cs: seq<Contact>)
    ensures ValidBatch(cs) <==>
            && (forall c :: c in cs ==> Valid(NormalizeContact(c)))
            && (forall i, j | 0 <= i < |cs| && 0 <= j < |cs| && Trim(cs[i].id) == Trim(cs[j].id) ::
                  IsBlank(cs[i].id) || i == j)
  {
    forall i | 0 <= i < |cs| ensures NormalizeContact(cs[i]).id == Trim(cs[i].id) && cs[i] in cs {
    }
    forall i | 0 <= i < |cs| ensures Trim(cs[i].id) == [] <==> IsBlank(cs[i].id) {
      TrimEmptyIffBlank(cs[i].id);
    }
  }
}
