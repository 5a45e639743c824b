/** What a save writes, and what it looks for, read off the request itself. */
module ConversationRows {
  import opened Options
  import opened Conversations

  // ---- The text of a message ----

  lemma {:induction false} TextsConcat(a: seq<Part>, b: seq<Part>)
    ensures Texts(a + b) == Texts(a) + Texts(b)
  {
    if a == [] {
      assert a + b == b;
    } else {
      assert (a + b)[1..] == a[1..] + b;
      TextsConcat(a[1..], b);
    }
  }

  /** A text part counts with its text, any other part not at all. */
  lemma TextsOne(p: Part)
    ensures Texts([p]) == if p.TextPart? then [p.text] else []
  {
    assert [p][1..] == [];
  }

  /** Two groups of texts are joined by one space. */
  lemma {:induction false} JoinConcat(a: seq<string>, b: seq<string>)
    requires a != [] && b != []
    ensures JoinWithSpaces(a + b) == JoinWithSpaces(a) + " " + JoinWithSpaces(b)
  {
    assert (a + b)[1..] == a[1..] + b;
    if |a| == 1 {
      assert a[1..] + b == b;
    } else {
      JoinConcat(a[1..], b);
      var first, rest, last := a[0] + " ", JoinWithSpaces(a[1..]), JoinWithSpaces(b);
      assert first + (rest + " " + last) == (first + rest) + " " + last;
    }
  }

  lemma JoinFew(s: string)
    ensures JoinWithSpaces([]) == "" && JoinWithSpaces([s]) == s
  {
  }

  /** A message becomes its role with its text parts joined by spaces; a system message keeps its content. */
  lemma PairSays(m: Message)
    ensures
      match m
      case User(parts) => PairOf(m) == Pair("user", JoinWithSpaces(Texts(parts)))
      case Assistant(parts) => PairOf(m) == Pair("assistant", JoinWithSpaces(Texts(parts)))
      case System(content) => PairOf(m) == Pair("system", content)
  {
  }

  /** And it is left out only if that is empty. */
  lemma PairsOne(m: Message)
    ensures Pairs([m]) == if PairOf(m).content == "" then [] else [PairOf(m)]
  {
    assert [m][1..] == [];
  }

  // ---- What the query looks for ----

  lemma {:induction false} LastSpokenAt(pairs: seq<Pair>, k: nat)
    requires k < |pairs| && pairs[k].role != "system"
    requires forall j | k < j < |pairs| :: pairs[j].role == "system"
    ensures LastSpoken(pairs) == Some(pairs[k])
  {
    if k < |pairs| - 1 {
      LastSpokenAt(pairs[..|pairs| - 1], k);
    }
  }

  /** The mark is the last pair that is not a system message, at the place where that pair first stands. */
  lemma MarkIs(pairs: seq<Pair>, k: nat, i: nat)
    requires k < |pairs| && pairs[k].role != "system"
    requires forall j | k < j < |pairs| :: pairs[j].role == "system"
    requires i <= k && pairs[i] == pairs[k] && forall j | 0 <= j < i :: pairs[j] != pairs[k]
    ensures MarkOf(pairs) == Some(Mark(pairs[k], i))
  {
    LastSpokenAt(pairs, k);
    FirstIndexIsFirst(pairs, pairs[k], i);
  }

  lemma NothingSpoken(pairs: seq<Pair>)
    requires forall j | 0 <= j < |pairs| :: pairs[j].role == "system"
    ensures MarkOf(pairs) == None
  {
    LastSpokenIsThere(pairs);
  }

  /** Ten minutes. */
  lemma RecentIff(db: Db, now: int, id: nat)
    ensures Recent(db, now, id) <==> id in db.conversations && now - db.conversations[id].createdAt <= 600
  {
  }

  // ---- What is written ----

  /**
   A request that finds no conversation adds one under the next number, with its
   own run id, time, utterance and vision flag; one that finds a conversation
   leaves every conversation's row as it was.  Either way the conversation's
   messages are the history's, then the utterance, then the response.
   */
  lemma SavedRowIs(db: Db, now: int, req: Request, choice: Option<nat>)
    requires Inv(db) && Chosen(db, now, MarkOf(Pairs(req.history)), choice)
    ensures
      var saved := Save(db, now, req, choice);
      var said := Pairs(req.history) + [Pair("user", req.utterance), Pair("assistant", req.response)];
      match choice
      case Some(id) =>
        && saved.conversations == db.conversations && saved.nextId == db.nextId
        && Stored(saved, id) == said
      case None =>
        && db.nextId !in db.conversations && saved.nextId == db.nextId + 1
        && saved.conversations.Keys == db.conversations.Keys + {db.nextId}
        && saved.conversations[db.nextId].runId == req.runId
        && saved.conversations[db.nextId].createdAt == now
        && saved.conversations[db.nextId].utterance == req.utterance
        && saved.conversations[db.nextId].isVision == req.isVision
        && (forall id | id in db.conversations :: saved.conversations[id] == db.conversations[id])
        && Stored(saved, db.nextId) == said
  {
    SaveChangesOne(db, now, req, choice);
  }
}
