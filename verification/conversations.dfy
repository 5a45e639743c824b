/**
 Saving Understand conversations: each request carries the history so far, and
 the store tries to recognise a recent conversation it continues and rewrites
 that one instead of adding a row.
 */
module Conversations {
  import opened Options

  const WINDOW: int := 600   // seconds

  // ---- History to pairs ----

  datatype Part = TextPart(text: string) | OtherPart

  datatype Message =
    | User(parts: seq<Part>)
    | Assistant(parts: seq<Part>)
    | System(content: string)

  datatype Pair = Pair(role: string, content: string)

  function Texts(parts: seq<Part>): seq<string> {
    if parts == [] then []
    else if parts[0].TextPart? then [parts[0].text] + Texts(parts[1..])
    else Texts(parts[1..])
  }

  function JoinWithSpaces(texts: seq<string>): string {
    if texts == [] then ""
    else if |texts| == 1 then texts[0]
    else texts[0] + " " + JoinWithSpaces(texts[1..])
  }

  function PairOf(m: Message): (p: Pair)
    ensures p.role == "system" <==> m.System?
  {
    match m
    case User(parts) => Pair("user", JoinWithSpaces(Texts(parts)))
    case Assistant(parts) => Pair("assistant", JoinWithSpaces(Texts(parts)))
    case System(content) => Pair("system", content)
  }

  function Pairs(history: seq<Message>): seq<Pair> {
    if history == [] then []
    else if PairOf(history[0]).content != "" then [PairOf(history[0])] + Pairs(history[1..])
    else Pairs(history[1..])
  }

  /** Every pair is a message that is not empty. */
  lemma {:induction false} PairIsMessage(a: seq<Message>, p: Pair)
    requires p in Pairs(a)
    ensures p.content != "" && exists m :: m in a && PairOf(m) == p
  {
    if PairOf(a[0]) == p && p.content != "" {
      assert a[0] in a;
    } else {
      PairIsMessage(a[1..], p);
      var m :| m in a[1..] && PairOf(m) == p;
      assert m in a;
    }
  }

  /** Converting a history in parts is converting it whole, and nothing empty is kept. */
  lemma {:induction false} PairsConcat(a: seq<Message>, b: seq<Message>)
    ensures Pairs(a + b) == Pairs(a) + Pairs(b)
    ensures forall p :: p in Pairs(a) ==> p.content != "" && exists m :: m in a && PairOf(m) == p
  {
    forall p | p in Pairs(a) ensures p.content != "" && exists m :: m in a && PairOf(m) == p {
      PairIsMessage(a, p);
    }
    if a == [] {
      assert a + b == b;
    } else {
      assert (a + b)[1..] == a[1..] + b;
      PairsConcat(a[1..], b);
    }
  }

  /** The last pair that is not a system message. */
  function LastSpoken(pairs: seq<Pair>): Option<Pair> {
    if pairs == [] then None
    else if pairs[|pairs| - 1].role != "system" then Some(pairs[|pairs| - 1])
    else LastSpoken(pairs[..|pairs| - 1])
  }

  function FirstIndex(pairs: seq<Pair>, p: Pair): (i: nat)
    requires p in pairs
    ensures i < |pairs| && pairs[i] == p && p !in pairs[..i]
  {
    if pairs[0] == p then 0 else 1 + FirstIndex(pairs[1..], p)
  }

  lemma {:induction false} FirstIndexIsFirst(pairs: seq<Pair>, p: Pair, k: nat)
    requires k < |pairs| && pairs[k] == p
    ensures FirstIndex(pairs, p) <= k
  {
    if pairs[0] != p {
      FirstIndexIsFirst(pairs[1..], p, k - 1);
    }
  }

  lemma {:induction false} LastSpokenIsThere(pairs: seq<Pair>)
    ensures LastSpoken(pairs).Some? <==> exists p :: p in pairs && p.role != "system"
    ensures LastSpoken(pairs).Some? ==> LastSpoken(pairs).value in pairs && LastSpoken(pairs).value.role != "system"
  {
    if pairs != [] {
      var front := pairs[..|pairs| - 1];
      LastSpokenIsThere(front);
      assert forall p :: p in pairs <==> p in front || p == pairs[|pairs| - 1];
    }
  }

  /** What the query looks for: the last spoken pair, at the position of its first occurrence. */
  datatype Mark = Mark(pair: Pair, seqNo: nat)

  function MarkOf(pairs: seq<Pair>): (m: Option<Mark>)
    ensures m.Some? ==> m.value.seqNo < |pairs| && pairs[m.value.seqNo] == m.value.pair
    ensures m.Some? <==> exists p :: p in pairs && p.role != "system"
  {
    LastSpokenIsThere(pairs);
    match LastSpoken(pairs)
    case None => None
    case Some(p) => Some(Mark(p, FirstIndex(pairs, p)))
  }

  // ---- The two tables ----

  datatype Conversation = Conversation(runId: string, createdAt: int, utterance: string, isVision: bool)

  datatype Row = Row(conversation: nat, role: string, content: string, seqNo: nat)

  datatype Db = Db(conversations: map<nat, Conversation>, messages: seq<Row>, nextId: nat)

  const EmptyDb := Db(map[], [], 1)

  function Of(messages: seq<Row>, id: nat): (r: seq<Row>) {
    if messages == [] then []
    else if messages[0].conversation == id then [messages[0]] + Of(messages[1..], id)
    else Of(messages[1..], id)
  }

  function Without(messages: seq<Row>, id: nat): seq<Row> {
    if messages == [] then []
    else if messages[0].conversation == id then Without(messages[1..], id)
    else [messages[0]] + Without(messages[1..], id)
  }

  function Rows(id: nat, pairs: seq<Pair>): seq<Row> {
    seq(|pairs|, k requires 0 <= k < |pairs| => Row(id, pairs[k].role, pairs[k].content, k))
  }

  function Contents(rows: seq<Row>): seq<Pair> {
    seq(|rows|, k requires 0 <= k < |rows| => Pair(rows[k].role, rows[k].content))
  }

  /** The pairs stored for a conversation, in table order. */
  function Stored(db: Db, id: nat): seq<Pair> {
    Contents(Of(db.messages, id))
  }

  predicate Recent(db: Db, now: int, id: nat) {
    id in db.conversations && db.conversations[id].createdAt >= now - WINDOW
  }

  /** Some row of conversation `id` carries the mark, and the conversation is recent enough. */
  predicate Matches(db: Db, now: int, mark: Mark, id: nat) {
    Recent(db, now, id) && Row(id, mark.pair.role, mark.pair.content, mark.seqNo) in db.messages
  }

  /** The query's answer: a newest match if there is one; ties are the database's choice. */
  ghost predicate Chosen(db: Db, now: int, mark: Option<Mark>, choice: Option<nat>) {
    match choice
    case None => mark.Some? ==> forall id :: !Matches(db, now, mark.value, id)
    case Some(id) =>
      mark.Some? && Matches(db, now, mark.value, id)
      && forall other: nat :: Matches(db, now, mark.value, other) ==>
           db.conversations[other].createdAt <= db.conversations[id].createdAt
  }

  datatype Request = Request(runId: string, utterance: string, isVision: bool, history: seq<Message>, response: string)

  function Spoken(req: Request): seq<Pair> {
    Pairs(req.history) + [Pair("user", req.utterance), Pair("assistant", req.response)]
  }

  function Save(db: Db, now: int, req: Request, choice: Option<nat>): Db {
    match choice
    case Some(id) => db.(messages := Without(db.messages, id) + Rows(id, Spoken(req)))
    case None =>
      var id := db.nextId;
      Db(db.conversations[id := Conversation(req.runId, now, req.utterance, req.isVision)],
         db.messages + Rows(id, Spoken(req)), id + 1)
  }

  function Target(db: Db, choice: Option<nat>): nat {
    if choice.Some? then choice.value else db.nextId
  }

  class ConversationStore {
    var conversations: map<nat, Conversation>
    var messages: seq<Row>
    var nextId: nat

    function View(): Db
      reads this
    {
      Db(conversations, messages, nextId)
    }

    constructor ()
      ensures View() == EmptyDb
    {
      conversations, messages, nextId := map[], [], 1;
    }

    /** The SELECT: scan the conversations for a newest one that matches. */
    method FindRecent(now: int, mark: Option<Mark>) returns (choice: Option<nat>)
      ensures Chosen(View(), now, mark, choice)
    {
      choice := None;
      if mark.None? {
        return;
      }
      var left := conversations.Keys;
      while left != {}
        invariant left <= conversations.Keys
        invariant choice.Some? ==> Matches(View(), now, mark.value, choice.value)
        invariant forall id :: Matches(View(), now, mark.value, id) && id !in left ==>
                    choice.Some? && conversations[id].createdAt <= conversations[choice.value].createdAt
        decreases left
      {
        var id :| id in left;
        left := left - {id};
        if Matches(View(), now, mark.value, id)
           && (choice.None? || conversations[choice.value].createdAt <= conversations[id].createdAt) {
          choice := Some(id);
        }
      }
    }

    method InsertMessages(id: nat, pairs: seq<Pair>)
      modifies this`messages
      ensures messages == old(messages) + Rows(id, pairs)
    {
      var k := 0;
      while k < |pairs|
        invariant k <= |pairs|
        invariant messages == old(messages) + Rows(id, pairs)[..k]
      {
        messages := messages + [Row(id, pairs[k].role, pairs[k].content, k)];
        k := k + 1;
      }
    }

    method SaveUnderstandConversation(now: int, req: Request) returns (id: nat, merged: bool)
      modifies this
      ensures var choice := if merged then Some(id) else None;
              && Chosen(old(View()), now, MarkOf(Pairs(req.history)), choice)
              && View() == Save(old(View()), now, req, choice)
              && id == Target(old(View()), choice)
    {
      var pairs := Pairs(req.history);
      var mark := MarkOf(pairs);
      pairs := pairs + [Pair("user", req.utterance)];
      pairs := pairs + [Pair("assistant", req.response)];
      assert pairs == Spoken(req);
      var existing := FindRecent(now, mark);
      merged := existing.Some?;
      if existing.Some? {
        id := existing.value;
        messages := Without(messages, id);
      } else {
        id := nextId;
        conversations := conversations[id := Conversation(req.runId, now, req.utterance, req.isVision)];
        nextId := nextId + 1;
      }
      InsertMessages(id, pairs);
    }
  }

  // ---- Rows of one conversation ----

  lemma {:induction false} OfConcat(a: seq<Row>, b: seq<Row>, id: nat)
    ensures Of(a + b, id) == Of(a, id) + Of(b, id)
  {
    if a == [] {
      assert a + b == b;
    } else {
      assert (a + b)[1..] == a[1..] + b;
      OfConcat(a[1..], b, id);
    }
  }

  lemma {:induction false} OfForeign(rows: seq<Row>, id: nat)
    requires forall k :: 0 <= k < |rows| ==> rows[k].conversation != id
    ensures Of(rows, id) == []
  {
    if rows != [] {
      OfForeign(rows[1..], id);
    }
  }

  lemma {:induction false} OfOwn(rows: seq<Row>, id: nat)
    requires forall k :: 0 <= k < |rows| ==> rows[k].conversation == id
    ensures Of(rows, id) == rows
  {
    if rows != [] {
      OfOwn(rows[1..], id);
    }
  }

  lemma {:induction false} OfWithout(rows: seq<Row>, id: nat, other: nat)
    ensures Of(Without(rows, id), other) == if other == id then [] else Of(rows, other)
  {
    if rows != [] {
      OfWithout(rows[1..], id, other);
      var rest := Without(rows[1..], id);
      assert ([rows[0]] + rest)[1..] == rest;
    }
  }

  lemma {:induction false} WithoutIsPart(rows: seq<Row>, id: nat)
    ensures forall r :: r in Without(rows, id) ==> r in rows
  {
    if rows != [] {
      WithoutIsPart(rows[1..], id);
    }
  }

  lemma {:induction false} OfHolds(rows: seq<Row>, id: nat)
    ensures forall r :: r in Of(rows, id) <==> r in rows && r.conversation == id
  {
    if rows != [] {
      OfHolds(rows[1..], id);
    }
  }

  // ---- The invariant ----

  ghost predicate Numbered(rows: seq<Row>) {
    forall k :: 0 <= k < |rows| ==> rows[k].seqNo == k
  }

  /** Rows belong to conversations, and the messages of each are numbered 0, 1, 2, ... */
  ghost predicate Inv(db: Db) {
    && (forall id :: id in db.conversations ==> id < db.nextId)
    && (forall k :: 0 <= k < |db.messages| ==> db.messages[k].conversation in db.conversations)
    && (forall id :: Numbered(Of(db.messages, id)))
  }

  lemma SavedRows(db: Db, now: int, req: Request, choice: Option<nat>, id: nat)
    requires Inv(db)
    ensures Of(Save(db, now, req, choice).messages, id)
         == if id == Target(db, choice) then Rows(id, Spoken(req)) else Of(db.messages, id)
  {
    var at := Target(db, choice);
    var rows := Rows(at, Spoken(req));
    var kept := if choice.Some? then Without(db.messages, at) else db.messages;
    OfConcat(kept, rows, id);
    if choice.Some? {
      OfWithout(db.messages, at, id);
    } else if id == at {
      OfForeign(db.messages, id);
    }
    if id == at {
      OfOwn(rows, id);
    } else {
      OfForeign(rows, id);
    }
  }

  lemma SaveKeepsInv(db: Db, now: int, req: Request, choice: Option<nat>)
    requires Inv(db) && Chosen(db, now, MarkOf(Pairs(req.history)), choice)
    ensures Inv(Save(db, now, req, choice))
  {
    var saved := Save(db, now, req, choice);
    forall id ensures Numbered(Of(saved.messages, id)) {
      SavedRows(db, now, req, choice, id);
    }
    if choice.Some? {
      WithoutIsPart(db.messages, choice.value);
      forall k | 0 <= k < |saved.messages| ensures saved.messages[k].conversation in saved.conversations {
        assert saved.messages[k] in Without(db.messages, choice.value) + Rows(choice.value, Spoken(req));
      }
    }
  }

  /** A history of saves, each with its time and the database's choice. */
  datatype Call = Call(now: int, req: Request, choice: Option<nat>)

  ghost predicate Legal(db: Db, calls: seq<Call>)
    decreases calls
  {
    calls == [] ||
    (&& Chosen(db, calls[0].now, MarkOf(Pairs(calls[0].req.history)), calls[0].choice)
     && Legal(Save(db, calls[0].now, calls[0].req, calls[0].choice), calls[1..]))
  }

  function SaveAll(db: Db, calls: seq<Call>): Db
    decreases calls
  {
    if calls == [] then db else SaveAll(Save(db, calls[0].now, calls[0].req, calls[0].choice), calls[1..])
  }

  /** In every reachable store the messages of every conversation are numbered exactly 0 to n - 1. */
  lemma {:induction false} ReachableIsNumbered(db: Db, calls: seq<Call>)
    requires Inv(db) && Legal(db, calls)
    ensures Inv(SaveAll(db, calls))
    decreases calls
  {
    if calls != [] {
      SaveKeepsInv(db, calls[0].now, calls[0].req, calls[0].choice);
      ReachableIsNumbered(Save(db, calls[0].now, calls[0].req, calls[0].choice), calls[1..]);
    }
  }

  // ---- What a save does ----

  /** One conversation ends up holding the history and the new exchange; every other is untouched. */
  lemma SaveChangesOne(db: Db, now: int, req: Request, choice: Option<nat>)
    requires Inv(db) && Chosen(db, now, MarkOf(Pairs(req.history)), choice)
    ensures var saved, at := Save(db, now, req, choice), Target(db, choice);
            && at in saved.conversations && Stored(saved, at) == Spoken(req)
            && (forall id :: id != at ==> Stored(saved, id) == Stored(db, id))
            && (forall id :: id in db.conversations ==>
                  id in saved.conversations && saved.conversations[id] == db.conversations[id])
            && saved.conversations.Keys == db.conversations.Keys + {at}
            && (at in db.conversations <==> choice.Some?)
  {
    var saved, at := Save(db, now, req, choice), Target(db, choice);
    forall id ensures Stored(saved, id) == if id == at then Spoken(req) else Stored(db, id) {
      SavedRows(db, now, req, choice, id);
    }
  }

  /** In a well-numbered store the query finds exactly the recent conversations that hold the
      marked pair at the marked position. */
  lemma MatchesIff(db: Db, now: int, mark: Mark, id: nat)
    requires Inv(db)
    ensures Matches(db, now, mark, id) <==>
              Recent(db, now, id) && mark.seqNo < |Stored(db, id)| && Stored(db, id)[mark.seqNo] == mark.pair
  {
    var rows := Of(db.messages, id);
    OfHolds(db.messages, id);
    assert Numbered(rows);
    var row := Row(id, mark.pair.role, mark.pair.content, mark.seqNo);
    if row in db.messages {
      assert row in rows;
      var k :| 0 <= k < |rows| && rows[k] == row;
      assert k == mark.seqNo;
    }
    if mark.seqNo < |rows| && Stored(db, id)[mark.seqNo] == mark.pair {
      assert rows[mark.seqNo] in rows;
      assert rows[mark.seqNo] == row;
    }
  }

  /** A row is added exactly when nothing was said before or no recent conversation holds the last
      spoken pair where it first occurs in the history. */
  lemma RowAddedIff(db: Db, now: int, req: Request, choice: Option<nat>)
    requires Inv(db) && Chosen(db, now, MarkOf(Pairs(req.history)), choice)
    ensures var mark := MarkOf(Pairs(req.history));
            db.nextId in Save(db, now, req, choice).conversations <==>
              mark.None? ||
              forall id :: Recent(db, now, id) ==>
                !(mark.value.seqNo < |Stored(db, id)| && Stored(db, id)[mark.value.seqNo] == mark.value.pair)
  {
    var mark := MarkOf(Pairs(req.history));
    if mark.Some? {
      forall id: nat
        ensures Matches(db, now, mark.value, id) <==>
                  Recent(db, now, id) && mark.value.seqNo < |Stored(db, id)|
                  && Stored(db, id)[mark.value.seqNo] == mark.value.pair
      {
        MatchesIff(db, now, mark.value, id);
      }
    }
  }

  /** A request that continues a recently created conversation adds no row, although the position
      searched for is that of the first equal message and not of the last message. */
  lemma ContinuationAddsNoRow(db: Db, now: int, req: Request, choice: Option<nat>, id: nat)
    requires Inv(db) && Chosen(db, now, MarkOf(Pairs(req.history)), choice)
    requires Recent(db, now, id) && Stored(db, id) == Pairs(req.history)
    requires exists p :: p in Pairs(req.history) && p.role != "system"
    ensures choice.Some?
    ensures Save(db, now, req, choice).conversations == db.conversations
  {
    MatchesIff(db, now, MarkOf(Pairs(req.history)).value, id);
  }

  /** A recent conversation that holds the marked pair at the marked position. */
  predicate Holds(db: Db, now: int, mark: Mark, id: nat) {
    Recent(db, now, id) && mark.seqNo < |Stored(db, id)| && Stored(db, id)[mark.seqNo] == mark.pair
  }

  /** One of the newest of them. */
  ghost predicate NewestHolder(db: Db, now: int, mark: Option<Mark>, id: nat) {
    && mark.Some? && Holds(db, now, mark.value, id)
    && forall other: nat :: Holds(db, now, mark.value, other) ==>
         db.conversations[other].createdAt <= db.conversations[id].createdAt
  }

  /** In a well-numbered store the query may choose exactly the newest holders, and nothing only if
      there is no holder. */
  lemma ChosenIff(db: Db, now: int, mark: Option<Mark>, choice: Option<nat>)
    requires Inv(db)
    ensures Chosen(db, now, mark, choice) <==>
              match choice
              case Some(id) => NewestHolder(db, now, mark, id)
              case None => mark.Some? ==> forall id: nat :: !Holds(db, now, mark.value, id)
  {
    if mark.Some? {
      forall id: nat ensures Matches(db, now, mark.value, id) <==> Holds(db, now, mark.value, id) {
        MatchesIff(db, now, mark.value, id);
      }
    }
  }

  ghost predicate LosesNothing(db: Db, saved: Db) {
    forall id :: id in db.conversations ==> Stored(db, id) <= Stored(saved, id)
  }

  lemma NothingIsLostIff(db: Db, now: int, req: Request, choice: Option<nat>)
    requires Inv(db) && Chosen(db, now, MarkOf(Pairs(req.history)), choice)
    ensures LosesNothing(db, Save(db, now, req, choice)) <==>
              (choice.Some? ==> Stored(db, choice.value) <= Spoken(req))
  {
    SaveChangesOne(db, now, req, choice);
    var saved := Save(db, now, req, choice);
    if choice.Some? {
      assert choice.value in db.conversations;
      assert Stored(saved, choice.value) == Spoken(req);
    }
  }

  /** Whatever the query picks, the save loses nothing. */
  ghost predicate SafeToSave(db: Db, now: int, req: Request) {
    forall choice :: Chosen(db, now, MarkOf(Pairs(req.history)), choice) ==>
                       LosesNothing(db, Save(db, now, req, choice))
  }

  /**
   The merge overwrites.  Before the call, no stored message can be lost exactly
   when every newest recent conversation that holds the last spoken pair at its
   first position is a beginning of what will be saved.
   */
  lemma SafeToSaveIff(db: Db, now: int, req: Request)
    requires Inv(db)
    ensures SafeToSave(db, now, req) <==>
              forall id :: NewestHolder(db, now, MarkOf(Pairs(req.history)), id) ==> Stored(db, id) <= Spoken(req)
  {
    var mark := MarkOf(Pairs(req.history));
    if SafeToSave(db, now, req) {
      forall id | NewestHolder(db, now, mark, id) ensures Stored(db, id) <= Spoken(req) {
        ChosenIff(db, now, mark, Some(id));
        NothingIsLostIff(db, now, req, Some(id));
      }
    }
    if forall id :: NewestHolder(db, now, mark, id) ==> Stored(db, id) <= Spoken(req) {
      forall choice | Chosen(db, now, mark, choice) ensures LosesNothing(db, Save(db, now, req, choice)) {
        ChosenIff(db, now, mark, choice);
        NothingIsLostIff(db, now, req, choice);
      }
    }
  }

  // ---- Clients that carry on ----

  /** Another recent holder, created no earlier than `id`. */
  ghost predicate HasRival(db: Db, now: int, mark: Mark, id: nat) {
    exists other: nat ::
      other != id && Holds(db, now, mark, other)
      && (id in db.conversations ==> db.conversations[other].createdAt >= db.conversations[id].createdAt)
  }

  /** Whatever the query picks, the request is merged into `at`. */
  ghost predicate SureToMerge(db: Db, now: int, mark: Option<Mark>, at: nat) {
    forall choice :: Chosen(db, now, mark, choice) ==> choice == Some(at)
  }

  /**
   A request is sure to be merged into `at` if and only if `at` is recent and holds
   the last spoken pair at its first position, and no other recent conversation
   created no earlier does.
   */
  lemma SureToMergeIff(db: Db, now: int, mark: Option<Mark>, at: nat)
    requires Inv(db)
    ensures SureToMerge(db, now, mark, at) <==>
              mark.Some? && Holds(db, now, mark.value, at) && !HasRival(db, now, mark.value, at)
  {
    if mark.None? || !Holds(db, now, mark.value, at) {
      var choice := SomeChoice(db, now, mark);
      ChosenIff(db, now, mark, choice);
    } else if HasRival(db, now, mark.value, at) {
      var rival := NewestAmong(db, now, mark.value, at, db.conversations.Keys - {at});
      ChosenIff(db, now, mark, Some(rival));
    } else {
      forall choice | Chosen(db, now, mark, choice) ensures choice == Some(at) {
        ChosenIff(db, now, mark, choice);
      }
    }
  }

  /** The query always has an answer. */
  lemma SomeChoice(db: Db, now: int, mark: Option<Mark>) returns (choice: Option<nat>)
    requires Inv(db)
    ensures Chosen(db, now, mark, choice)
  {
    choice := None;
    if mark.Some? && exists id: nat :: Holds(db, now, mark.value, id) {
      var id: nat :| Holds(db, now, mark.value, id);
      choice := Some(id);
      if exists other: nat :: other in db.conversations.Keys - {id} && Holds(db, now, mark.value, other)
                              && db.conversations[other].createdAt >= db.conversations[id].createdAt {
        var rival := NewestAmong(db, now, mark.value, id, db.conversations.Keys - {id});
        choice := Some(rival);
      }
    }
    ChosenIff(db, now, mark, choice);
  }

  /** In particular a request whose history is exactly what the recent conversation stores. */
  lemma MergesHereIff(db: Db, now: int, req: Request, at: nat)
    requires Inv(db) && Recent(db, now, at) && Stored(db, at) == Pairs(req.history)
    requires exists p :: p in Pairs(req.history) && p.role != "system"
    ensures SureToMerge(db, now, MarkOf(Pairs(req.history)), at) <==>
              !HasRival(db, now, MarkOf(Pairs(req.history)).value, at)
  {
    SureToMergeIff(db, now, MarkOf(Pairs(req.history)), at);
  }

  /** The newest holder other than `at`, found among `ids`, is a newest holder if it is a rival. */
  lemma {:induction false} NewestAmong(db: Db, now: int, mark: Mark, at: nat, ids: set<nat>) returns (id: nat)
    requires ids <= db.conversations.Keys - {at} && Holds(db, now, mark, at)
    requires exists other: nat :: other in ids && Holds(db, now, mark, other)
                                  && db.conversations[other].createdAt >= db.conversations[at].createdAt
    ensures id in ids && Holds(db, now, mark, id)
    ensures db.conversations[id].createdAt >= db.conversations[at].createdAt
    ensures forall other: nat | other in ids && Holds(db, now, mark, other) ::
              db.conversations[other].createdAt <= db.conversations[id].createdAt
    ensures ids == db.conversations.Keys - {at} ==> NewestHolder(db, now, Some(mark), id)
    decreases ids
  {
    var first: nat :| first in ids && Holds(db, now, mark, first)
                      && db.conversations[first].createdAt >= db.conversations[at].createdAt;
    id := first;
    var rest := ids - {first};
    if exists other: nat :: other in rest && Holds(db, now, mark, other)
                            && db.conversations[other].createdAt >= db.conversations[at].createdAt {
      var best := NewestAmong(db, now, mark, at, rest);
      if db.conversations[best].createdAt > db.conversations[first].createdAt {
        id := best;
      }
    }
    forall other: nat | other in ids && Holds(db, now, mark, other)
      ensures db.conversations[other].createdAt <= db.conversations[id].createdAt
    {
      assert other == first || other in rest;
    }
  }

  /** What a client that sends back everything said sends: saving keeps an empty utterance or response,
      but the history of the next request does not. */
  function CarriedOn(req: Request): seq<Pair> {
    Pairs(req.history)
    + (if req.utterance != "" then [Pair("user", req.utterance)] else [])
    + (if req.response != "" then [Pair("assistant", req.response)] else [])
  }

  /**
   The conversation just saved then holds the pair the next request looks for,
   unless the utterance was empty and the response is new.
   */
  lemma CarriedOnHoldsIff(db: Db, later: int, req: Request, at: nat)
    requires Recent(db, later, at) && Stored(db, at) == Spoken(req) && MarkOf(CarriedOn(req)).Some?
    ensures Holds(db, later, MarkOf(CarriedOn(req)).value, at) <==>
              req.utterance != "" || req.response == "" || Pair("assistant", req.response) in Pairs(req.history)
  {
    var before, said := Pairs(req.history), CarriedOn(req);
    var mark := MarkOf(said).value;
    if req.utterance == "" && req.response != "" {
      var reply := Pair("assistant", req.response);
      assert said == before + [reply] && said[..|said| - 1] == before;
      assert mark.pair == reply && mark.seqNo == FirstIndex(said, reply);
      if reply in before {
        var k :| 0 <= k < |before| && before[k] == reply;
        FirstIndexIsFirst(said, reply, k);
      }
    } else {
      assert said <= Spoken(req);
    }
  }

  /** The next request, carrying everything saved so far, adds no row while the conversation is recent;
      without a rival the conversation grows by exactly the new exchange.  A history equal to what was
      saved needs an utterance and a response that are not empty; CarriedOnHoldsIff has the other case. */
  lemma FollowUpMerges(db: Db, now: int, req: Request, choice: Option<nat>, later: int, next: Request,
                       again: Option<nat>)
    requires Inv(db) && Chosen(db, now, MarkOf(Pairs(req.history)), choice)
    requires Pairs(next.history) == Spoken(req)
    requires Recent(Save(db, now, req, choice), later, Target(db, choice))
    requires Chosen(Save(db, now, req, choice), later, MarkOf(Pairs(next.history)), again)
    ensures
      var saved, at := Save(db, now, req, choice), Target(db, choice);
      var end := Save(saved, later, next, again);
      && again.Some? && end.conversations == saved.conversations
      && MarkOf(Pairs(next.history)).Some?
      && (!HasRival(saved, later, MarkOf(Pairs(next.history)).value, at) ==>
            && again == Some(at)
            && Stored(end, at) == Stored(saved, at) + [Pair("user", next.utterance), Pair("assistant", next.response)])
  {
    var saved, at := Save(db, now, req, choice), Target(db, choice);
    SaveKeepsInv(db, now, req, choice);
    SaveChangesOne(db, now, req, choice);
    AskedIsSpoken(req);
    ContinuationAddsNoRow(saved, later, next, again, at);
    MergesHereIff(saved, later, next, at);
    SaveChangesOne(saved, later, next, again);
  }

  lemma AskedIsSpoken(req: Request)
    ensures exists p :: p in Spoken(req) && p.role != "system"
  {
    var asked := Spoken(req)[|Spoken(req)| - 2];
    assert asked == Pair("user", req.utterance) && asked in Spoken(req);
  }

  /** Each request's history is what the one before it saved, and none comes later than `until`. */
  predicate CarriesOn(calls: seq<Call>, before: seq<Pair>, until: int)
    decreases calls
  {
    calls == [] ||
    (&& Pairs(calls[0].req.history) == before && calls[0].now <= until
     && CarriesOn(calls[1..], Spoken(calls[0].req), until))
  }

  function LastSpokenBy(calls: seq<Call>, before: seq<Pair>): seq<Pair>
    decreases calls
  {
    if calls == [] then before else LastSpokenBy(calls[1..], Spoken(calls[0].req))
  }

  /** Every conversation but `at` was created before it. */
  predicate Youngest(db: Db, at: nat) {
    && at in db.conversations
    && forall id | id in db.conversations && id != at :: db.conversations[id].createdAt < db.conversations[at].createdAt
  }

  lemma OneFollowUp(db: Db, at: nat, c: Call)
    requires Inv(db) && Youngest(db, at) && c.now <= db.conversations[at].createdAt + WINDOW
    requires Pairs(c.req.history) == Stored(db, at)
    requires exists p :: p in Stored(db, at) && p.role != "system"
    requires Chosen(db, c.now, MarkOf(Pairs(c.req.history)), c.choice)
    ensures
      var saved := Save(db, c.now, c.req, c.choice);
      && Inv(saved) && saved.conversations == db.conversations && Stored(saved, at) == Spoken(c.req)
      && (forall id :: id != at ==> Stored(saved, id) == Stored(db, id))
  {
    MergesHereIff(db, c.now, c.req, at);
    assert !HasRival(db, c.now, MarkOf(Pairs(c.req.history)).value, at);
    assert c.choice == Some(at);
    SaveKeepsInv(db, c.now, c.req, c.choice);
    SaveChangesOne(db, c.now, c.req, c.choice);
  }

  /** From `db` to `end` only conversation `at` changed, and it now holds `pairs`. */
  ghost predicate OnlyChanged(db: Db, end: Db, at: nat, pairs: seq<Pair>) {
    && end.conversations == db.conversations && Stored(end, at) == pairs
    && forall id :: id != at ==> Stored(end, id) == Stored(db, id)
  }

  lemma OnlyChangedTwice(db: Db, saved: Db, end: Db, at: nat, mid: seq<Pair>, pairs: seq<Pair>)
    requires OnlyChanged(db, saved, at, mid) && OnlyChanged(saved, end, at, pairs)
    ensures OnlyChanged(db, end, at, pairs)
  {
  }

  lemma {:induction false} FollowUpsStayTogether(db: Db, at: nat, calls: seq<Call>, before: seq<Pair>, until: int)
    requires Inv(db) && Youngest(db, at) && Legal(db, calls)
    requires Stored(db, at) == before && until == db.conversations[at].createdAt + WINDOW
    requires exists p :: p in before && p.role != "system"
    requires CarriesOn(calls, before, until)
    ensures OnlyChanged(db, SaveAll(db, calls), at, LastSpokenBy(calls, before))
    decreases calls
  {
    if calls != [] {
      var c := calls[0];
      OneFollowUp(db, at, c);
      AskedIsSpoken(c.req);
      var saved := Save(db, c.now, c.req, c.choice);
      FollowUpsStayTogether(saved, at, calls[1..], Spoken(c.req), until);
      OnlyChangedTwice(db, saved, SaveAll(saved, calls[1..]), at, Spoken(c.req), LastSpokenBy(calls, before));
    }
  }

  /**
   A client whose first request adds a row at a time when every stored
   conversation is older, and whose further requests within ten minutes each carry
   exactly what was saved before, has all of them in that one conversation: no
   further row is added and no other conversation is touched.
   */
  lemma SessionStaysTogether(db: Db, first: Call, calls: seq<Call>)
    requires Inv(db) && first.choice.None? && Legal(db, [first] + calls)
    requires forall id | id in db.conversations :: db.conversations[id].createdAt < first.now
    requires CarriesOn(calls, Spoken(first.req), first.now + WINDOW)
    ensures
      var end := SaveAll(db, [first] + calls);
      && end.conversations.Keys == db.conversations.Keys + {db.nextId}
      && Stored(end, db.nextId) == LastSpokenBy(calls, Spoken(first.req))
      && (forall id :: id in db.conversations ==> Stored(end, id) == Stored(db, id))
  {
    var at := db.nextId;
    var begun := Save(db, first.now, first.req, None);
    assert ([first] + calls)[1..] == calls;
    SaveKeepsInv(db, first.now, first.req, None);
    SaveChangesOne(db, first.now, first.req, None);
    AskedIsSpoken(first.req);
    assert begun.conversations[at].createdAt == first.now;
    FollowUpsStayTogether(begun, at, calls, Spoken(first.req), first.now + WINDOW);
  }

  /** Such a stranger: two conversations whose second message is the same greeting. */
  lemma StrangerIsOverwritten(now: int)
    ensures
      exists db: Db, req: Request, choice: Option<nat> ::
        && Inv(db) && Chosen(db, now, MarkOf(Pairs(req.history)), choice)
        && !LosesNothing(db, Save(db, now, req, choice))
  {
    var greet := Pair("assistant", "Hello");
    var db := StrangerDb(now);
    var history := [User([TextPart("b")]), Assistant([TextPart("Hello")])];
    var req := Request("s", "c", false, history, "d");
    StrangerStored(now);
    StrangerHistory();
    StrangerMark();
    assert Matches(db, now, Mark(greet, 1), 1);
    assert Chosen(db, now, MarkOf(Pairs(history)), Some(1));
    NothingIsLostIff(db, now, req, Some(1));
    assert Spoken(req)[0] == Pair("user", "b");
    assert "a"[0] != "b"[0];
  }

  function StrangerDb(now: int): Db {
    Db(map[1 := Conversation("r", now, "a", false)], Rows(1, [Pair("user", "a"), Pair("assistant", "Hello")]), 2)
  }

  lemma StrangerStored(now: int)
    ensures Inv(StrangerDb(now)) && |Stored(StrangerDb(now), 1)| == 2
    ensures Stored(StrangerDb(now), 1)[0] == Pair("user", "a")
    ensures Row(1, "assistant", "Hello", 1) in StrangerDb(now).messages
  {
    var rows := StrangerDb(now).messages;
    assert rows[1] == Row(1, "assistant", "Hello", 1);
    forall id ensures Numbered(Of(rows, id)) {
      if id == 1 { OfOwn(rows, id); } else { OfForeign(rows, id); }
    }
    OfOwn(rows, 1);
  }

  lemma StrangerMark()
    ensures MarkOf([Pair("user", "b"), Pair("assistant", "Hello")]) == Some(Mark(Pair("assistant", "Hello"), 1))
  {
    var greet := Pair("assistant", "Hello");
    var pairs := [Pair("user", "b"), greet];
    assert LastSpoken(pairs) == Some(greet);
    assert FirstIndex(pairs, greet) == 1;
  }

  lemma StrangerHistory()
    ensures Pairs([User([TextPart("b")]), Assistant([TextPart("Hello")])])
         == [Pair("user", "b"), Pair("assistant", "Hello")]
  {
    var first, second := User([TextPart("b")]), Assistant([TextPart("Hello")]);
    assert Texts([TextPart("b")]) == ["b"] && Texts([TextPart("Hello")]) == ["Hello"];
    assert PairOf(first) == Pair("user", "b") && PairOf(second) == Pair("assistant", "Hello");
    assert [first, second][1..] == [second];
    assert Pairs([second]) == [Pair("assistant", "Hello")];
  }
}
