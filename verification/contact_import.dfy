/** The contact database: upsert, delete and the merging import. */
module ContactImport {
  import opened Options
  import opened Contacts

  /** The id a contact is stored under: its own, that of a match, or a fresh one. */
  ghost predicate ResolvesTo(s: Store, c: Contact, id: string) {
    if c.id != [] then id == c.id
    else if Candidates(s, c) != {} then id in Candidates(s, c)
    else id !in s.rows && id != []
  }

  function WithId(c: Contact, id: string): Contact {
    c.(id := id)
  }

  /** Saves the contacts one after the other under the given ids. */
  function SaveAll(s: Store, cs: seq<Contact>, ids: seq<string>, ts: int): Store
    requires |cs| == |ids|
  {
    if cs == [] then s else
    var n := |cs| - 1;
    Save(SaveAll(s, cs[..n], ids[..n], ts), WithId(cs[n], ids[n]), ts)
  }

  /** Every contact was resolved against the store its predecessors left. */
  ghost predicate Resolved(s: Store, cs: seq<Contact>, ids: seq<string>, ts: int)
    requires |cs| == |ids|
  {
    forall i | 0 <= i < |cs| :: ResolvesTo(SaveAll(s, cs[..i], ids[..i], ts), cs[i], ids[i])
  }

  /** How many of the saves found no live contact under their id. */
  function Creations(s: Store, cs: seq<Contact>, ids: seq<string>, ts: int): nat
    requires |cs| == |ids|
  {
    if cs == [] then 0 else
    var n := |cs| - 1;
    Creations(s, cs[..n], ids[..n], ts) + (if IsLive(SaveAll(s, cs[..n], ids[..n], ts), ids[n]) then 0 else 1)
  }

  lemma PrefixOfPrefix<T>(xs: seq<T>, x: T, i: nat)
    requires i <= |xs|
    ensures (xs + [x])[..i] == xs[..i] && (i < |xs| ==> (xs + [x])[i] == xs[i])
  {
  }

  /** One more contact. */
  lemma SaveAllAppend(s: Store, cs: seq<Contact>, ids: seq<string>, c: Contact, id: string, ts: int)
    requires |cs| == |ids|
    ensures SaveAll(s, cs + [c], ids + [id], ts) == Save(SaveAll(s, cs, ids, ts), WithId(c, id), ts)
    ensures Creations(s, cs + [c], ids + [id], ts) ==
            Creations(s, cs, ids, ts) + (if IsLive(SaveAll(s, cs, ids, ts), id) then 0 else 1)
    ensures Resolved(s, cs, ids, ts) && ResolvesTo(SaveAll(s, cs, ids, ts), c, id) ==>
            Resolved(s, cs + [c], ids + [id], ts)
  {
    assert (cs + [c])[..|cs|] == cs && (ids + [id])[..|ids|] == ids;
    if Resolved(s, cs, ids, ts) && ResolvesTo(SaveAll(s, cs, ids, ts), c, id) {
      forall i | 0 <= i < |cs + [c]|
        ensures ResolvesTo(SaveAll(s, (cs + [c])[..i], (ids + [id])[..i], ts), (cs + [c])[i], (ids + [id])[i])
      {
        if i < |cs| {
          PrefixOfPrefix(cs, c, i);
          PrefixOfPrefix(ids, id, i);
        }
      }
    }
  }

  lemma SaveAddsOne(s: Store, c: Contact, ts: int)
    ensures |LiveIds(Save(s, c, ts))| == |LiveIds(s)| + (if IsLive(s, c.id) then 0 else 1)
  {
    SaveThenRead(s, c, ts, c.id);
    CountWith(LiveIds(s), c.id);
    assert c.id in LiveIds(s) <==> IsLive(s, c.id);
  }

  lemma CountWith<T>(s: set<T>, x: T)
    ensures |s + {x}| == |s| + (if x in s then 0 else 1)
  {
    if x in s {
      assert s + {x} == s;
    }
  }

  /** Importing grows the number of live contacts by exactly the creations counted. */
  lemma {:induction false} ImportConserves(s: Store, cs: seq<Contact>, ids: seq<string>, ts: int)
    requires |cs| == |ids|
    ensures |LiveIds(SaveAll(s, cs, ids, ts))| == |LiveIds(s)| + Creations(s, cs, ids, ts)
    decreases |cs|
  {
    if cs != [] {
      var n := |cs| - 1;
      var before := SaveAll(s, cs[..n], ids[..n], ts);
      ImportConserves(s, cs[..n], ids[..n], ts);
      SaveAddsOne(before, WithId(cs[n], ids[n]), ts);
    }
  }

  /** Contacts the batch does not address read as before. */
  lemma {:induction false} ImportLeavesOthers(s: Store, cs: seq<Contact>, ids: seq<string>, ts: int, id: string)
    requires |cs| == |ids| && id !in ids
    ensures Read(SaveAll(s, cs, ids, ts), id) == Read(s, id)
    decreases |cs|
  {
    if cs != [] {
      var n := |cs| - 1;
      assert ids[n] != id;
      ImportLeavesOthers(s, cs[..n], ids[..n], ts, id);
      SaveThenRead(SaveAll(s, cs[..n], ids[..n], ts), WithId(cs[n], ids[n]), ts, id);
    }
  }

  /** An addressed contact reads as the last of the batch stored under its id. */
  lemma {:induction false} ImportLastWins(s: Store, cs: seq<Contact>, ids: seq<string>, ts: int, last: nat)
    requires |cs| == |ids| && last < |ids|
    requires forall j | last < j < |ids| :: ids[j] != ids[last]
    ensures Read(SaveAll(s, cs, ids, ts), ids[last]) == Some(WithId(cs[last], ids[last]).(modifiedAt := ts))
    decreases |cs|
  {
    var n := |cs| - 1;
    SaveThenRead(SaveAll(s, cs[..n], ids[..n], ts), WithId(cs[n], ids[n]), ts, ids[last]);
    if last < n {
      ImportLastWins(s, cs[..n], ids[..n], ts, last);
    }
  }

  lemma {:induction false} ImportKeepsInv(s: Store, cs: seq<Contact>, ids: seq<string>, ts: int)
    requires |cs| == |ids| && Inv(s)
    ensures Inv(SaveAll(s, cs, ids, ts))
    decreases |cs|
  {
    if cs != [] {
      var n := |cs| - 1;
      ImportKeepsInv(s, cs[..n], ids[..n], ts);
      SaveKeepsInv(SaveAll(s, cs[..n], ids[..n], ts), WithId(cs[n], ids[n]), ts);
    }
  }

  function Normalized(cs: seq<Contact>): seq<Contact> {
    seq(|cs|, i requires 0 <= i < |cs| => NormalizeContact(cs[i]))
  }

  datatype Summary = Summary(created: nat, updated: nat, same: nat)

  /** `uuids` are new: distinct, not stored yet and not given in the batch. */
  ghost predicate NewIds(s: Store, cs: seq<Contact>, uuids: seq<string>) {
    && (forall i | 0 <= i < |uuids| :: uuids[i] != [] && uuids[i] !in s.rows)
    && (forall i, j | 0 <= i < j < |uuids| :: uuids[i] != uuids[j])
    && (forall i, j | 0 <= i < |uuids| && 0 <= j < |cs| :: uuids[i] != cs[j].id)
  }

  class ContactDatabase {
    var rows: map<string, Row>
    var emails: Index
    var phones: Index

    function View(): Store
      reads this
    {
      Store(rows, emails, phones)
    }

    constructor ()
      ensures View() == Empty
    {
      rows, emails, phones := map[], [], [];
    }

    method SaveContact(c: Contact, ts: int)
      modifies this
      ensures View() == Save(old(View()), c, ts)
    {
      rows := rows[c.id := Row(c.name, c.flags, c.source, c.organization, ts, None)];
      emails := Without(emails, c.id);
      emails := emails + IndexRows(c.id, c.emails, NormalizeEmail);
      phones := Without(phones, c.id);
      phones := phones + IndexRows(c.id, c.phones, NormalizePhone);
    }

    /** `None` is returned exactly when nothing matches; otherwise any match the first hit offers. */
    method FindMatchId(c: Contact) returns (id: Option<string>)
      ensures id.None? ==> Candidates(View(), c) == {}
      ensures id.Some? ==> id.value in Candidates(View(), c)
    {
      var s := View();
      var i := 0;
      while i < |c.phones|
        invariant i <= |c.phones|
        invariant FirstLookup(s, s.phones, c.phones, NormalizePhone)
               == FirstLookup(s, s.phones, c.phones[i..], NormalizePhone)
      {
        var found := Lookup(s, phones, NormalizePhone(c.phones[i].value));
        if found != {} {
          var x :| x in found;
          return Some(x);
        }
        assert c.phones[i..][1..] == c.phones[i + 1..];
        i := i + 1;
      }
      i := 0;
      while i < |c.emails|
        invariant i <= |c.emails|
        invariant FirstLookup(s, s.emails, c.emails, NormalizeEmail)
               == FirstLookup(s, s.emails, c.emails[i..], NormalizeEmail)
      {
        var found := Lookup(s, emails, NormalizeEmail(c.emails[i].value));
        if found != {} {
          var x :| x in found;
          return Some(x);
        }
        assert c.emails[i..][1..] == c.emails[i + 1..];
        i := i + 1;
      }
      return None;
    }

    method UpsertContact(given: Contact, uuid: string, ts: int) returns (r: Result<Contact, ()>)
      requires uuid != []
      modifies this
      ensures r.Ok? <==> Valid(NormalizeContact(given))
      ensures r.Err? ==> View() == old(View())
      ensures r.Ok? ==>
                var c := NormalizeContact(given);
                && r.value == WithId(c, if c.id == [] then uuid else c.id).(modifiedAt := ts)
                && View() == Save(old(View()), r.value, ts)
                && Read(View(), r.value.id) == Some(r.value)
    {
      var c := NormalizeContact(given);
      if c.id == [] {
        c := c.(id := uuid);
      }
      if !Valid(c) {
        return Err(());
      }
      c := c.(modifiedAt := ts);
      SaveContact(c, ts);
      SaveThenRead(old(View()), c, ts, c.id);
      return Ok(c);
    }

    method DeleteContact(id: string, ts: int) returns (changed: bool)
      modifies this
      ensures View() == Delete(old(View()), id, ts)
      ensures changed <==> IsLive(old(View()), id)
    {
      changed := id in rows && rows[id].deletedAt.None?;
      if changed {
        rows := rows[id := rows[id].(deletedAt := Some(ts), modifiedAt := ts)];
      }
    }

    /** Resolves one normalised contact and saves it. */
    method ImportOne(c: Contact, uuid: string, ts: int) returns (existed: bool, id: string)
      requires uuid != [] && uuid !in rows
      modifies this
      ensures ResolvesTo(old(View()), c, id) && View() == Save(old(View()), WithId(c, id), ts)
      ensures existed <==> IsLive(old(View()), id)
      ensures id == c.id || id == uuid || id in old(rows)
    {
      id := c.id;
      if c.id == [] {
        var found := FindMatchId(c);
        if found.Some? {
          id := found.value;
          CandidatesStored(View(), c, id);
        } else {
          id := uuid;
        }
      }
      existed := id in rows && rows[id].deletedAt.None?;
      SaveContact(WithId(c, id), ts);
    }

    /**
     Rejects a bad batch without touching anything; otherwise resolves and saves
     every contact in order, and the summary accounts for all of them.
     */
    method ImportContactsMerge(given: seq<Contact>, uuids: seq<string>, ts: int)
      returns (r: Result<Summary, ()>, ghost ids: seq<string>)
      requires |uuids| == |given| && NewIds(View(), Normalized(given), uuids)
      modifies this
      ensures r.Ok? <==> ValidBatch(given)
      ensures r.Err? ==> View() == old(View())
      ensures r.Ok? ==>
                && Merged(old(View()), Normalized(given), ids, ts, View(), r.value.created)
                && r.value.created + r.value.updated == |given| && r.value.same == 0
    {
      ids := [];
      if !ValidBatch(given) {
        return Err(()), ids;
      }
      var created, updated;
      created, updated, ids := MergeAll(Normalized(given), uuids, ts);
      return Ok(Summary(created, updated, 0)), ids;
    }

    /** The loop over an accepted batch, counting what it creates and what it updates. */
    method MergeAll(cs: seq<Contact>, uuids: seq<string>, ts: int)
      returns (created: nat, updated: nat, ghost ids: seq<string>)
      requires |uuids| == |cs| && NewIds(View(), cs, uuids)
      modifies this
      ensures Merged(old(View()), cs, ids, ts, View(), created) && created + updated == |cs|
    {
      created, updated, ids := 0, 0, [];
      ghost var start := View();
      var i := 0;
      while i < |cs|
        invariant i <= |cs| && created + updated == i
        invariant Merged(start, cs[..i], ids, ts, View(), created)
        invariant forall k | i <= k < |uuids| :: uuids[k] !in rows
      {
        ghost var before := View();
        var existed, id := ImportOne(cs[i], uuids[i], ts);
        MergedStep(start, cs[..i], ids, ts, before, created, cs[i], id);
        assert cs[..i] + [cs[i]] == cs[..i + 1];
        if existed { updated := updated + 1; } else { created := created + 1; }
        ids := ids + [id];
        i := i + 1;
      }
      assert cs[..i] == cs;
    }
  }

  /** `now` is the store after importing `cs` into `start`, with `created` creations. */
  ghost predicate Merged(start: Store, cs: seq<Contact>, ids: seq<string>, ts: int, now: Store, created: nat) {
    && |ids| == |cs| && Resolved(start, cs, ids, ts)
    && now == SaveAll(start, cs, ids, ts)
    && created == Creations(start, cs, ids, ts) && created <= |cs|
  }

  lemma MergedStep(start: Store, cs: seq<Contact>, ids: seq<string>, ts: int, now: Store, created: nat, c: Contact,
                   id: string)
    requires Merged(start, cs, ids, ts, now, created) && ResolvesTo(now, c, id)
    ensures Merged(start, cs + [c], ids + [id], ts, Save(now, WithId(c, id), ts),
                   created + (if IsLive(now, id) then 0 else 1))
  {
    SaveAllAppend(start, cs, ids, c, id, ts);
  }

  /** The created count of an import is exactly the growth of the live contacts. */
  lemma MergedConserves(start: Store, cs: seq<Contact>, ids: seq<string>, ts: int, now: Store, created: nat)
    requires Merged(start, cs, ids, ts, now, created) && Inv(start)
    ensures |LiveIds(now)| == |LiveIds(start)| + created && Inv(now)
  {
    ImportConserves(start, cs, ids, ts);
    ImportKeepsInv(start, cs, ids, ts);
  }

  lemma {:induction false} FirstLookupStored(s: Store, index: Index, es: seq<Entry>, normalize: string -> string,
                                             id: string)
    requires id in FirstLookup(s, index, es, normalize)
    ensures id in s.rows
  {
    if id !in Lookup(s, index, normalize(es[0].value)) {
      FirstLookupStored(s, index, es[1..], normalize, id);
    }
  }

  lemma CandidatesStored(s: Store, c: Contact, id: string)
    requires id in Candidates(s, c)
    ensures id in s.rows
  {
    if id in FirstLookup(s, s.phones, c.phones, NormalizePhone) {
      FirstLookupStored(s, s.phones, c.phones, NormalizePhone, id);
    } else {
      FirstLookupStored(s, s.emails, c.emails, NormalizeEmail, id);
    }
  }
}
