/**
 A chat client behind the proxy, and the store its conversations are saved in.

 The client sends its whole message list every time; proxy and server each drop a
 user message from it, so what is saved and what the next request looks for are
 shifted against each other.
 */
module ProxiedConversations {
  import opened Options
  import opened Text
  import O = OpenAiHistory
  import C = Conversations

  /** The history as the store sees it. */
  function ToMessage(m: O.HistoryMessage): C.Message {
    match m
    case User(text) => C.User([C.TextPart(text)])
    case UserWithImage(text, _) => C.User([C.TextPart(text), C.OtherPart])
    case Assistant(text) => C.Assistant([C.TextPart(text)])
    case System(text) => C.System(text)
  }

  function ToMessages(history: seq<O.HistoryMessage>): seq<C.Message> {
    seq(|history|, k requires 0 <= k < |history| => ToMessage(history[k]))
  }

  /** One text exchange through the proxy: the request the server saves for it. */
  function Saved(runId: string, messages: seq<O.ChatMessage>, images: map<string, seq<byte>>, response: string)
    : C.Request
    requires O.ToUnderstand(messages).Ok?
  {
    var u := O.ToUnderstand(messages).value;
    C.Request(runId, u.utterance, false, ToMessages(O.History(u.turns, images)), response)
  }

  /** What the client sends next: everything so far, the reply it got, and a new question. */
  function FollowUp(messages: seq<O.ChatMessage>, response: string, question: string): seq<O.ChatMessage> {
    messages + [O.ChatMessage("assistant", response)] + [O.ChatMessage("user", question)]
  }

  predicate Blank(text: string) {
    Trim(text) == ""
  }

  // ---- Pairs of a message list ----

  function PairOf(m: O.ChatMessage): C.Pair {
    C.Pair(m.role, m.content)
  }

  function PairsOf(ms: seq<O.ChatMessage>): seq<C.Pair> {
    seq(|ms|, k requires 0 <= k < |ms| => PairOf(ms[k]))
  }

  lemma SpokenPair(m: O.ChatMessage)
    requires O.Supported(m.role)
    ensures C.PairOf(ToMessage(O.Spoken(m))) == PairOf(m)
  {
    assert C.Texts([C.TextPart(m.content)]) == [m.content];
  }

  lemma {:induction false} SpokenPairs(ms: seq<O.ChatMessage>)
    requires O.Sayable(ms)
    ensures C.Pairs(ToMessages(O.AllSpoken(ms))) == PairsOf(ms)
  {
    if ms != [] {
      var rest := ms[1..];
      SpokenPairs(rest);
      SpokenPair(ms[0]);
      var whole := ToMessages(O.AllSpoken(ms));
      assert whole[0] == ToMessage(O.Spoken(ms[0]));
      assert whole[1..] == ToMessages(O.AllSpoken(rest));
      assert PairsOf(ms) == [PairOf(ms[0])] + PairsOf(rest);
    }
  }

  /** The messages of an accepted list can all be said, and stay so when some are dropped. */
  lemma AcceptedIsSayable(messages: seq<O.ChatMessage>)
    requires O.ToUnderstand(messages).Ok?
    ensures O.Sayable(O.NonBlank(messages))
  {
    var ms := O.NonBlank(messages);
    O.NonBlankHolds(messages);
    O.FirstUnsupportedIff(ms);
    forall k | 0 <= k < |ms| ensures ms[k].content != "" && O.Supported(ms[k].role) {
      assert ms[k] in ms;
    }
  }

  lemma DroppingStaysSayable(ms: seq<O.ChatMessage>)
    requires O.Sayable(ms)
    ensures O.Sayable(O.WithoutLastUser(ms))
  {
  }

  /** The pairs an exchange carries as its history. */
  lemma SavedHistory(runId: string, messages: seq<O.ChatMessage>, images: map<string, seq<byte>>, response: string)
    requires O.ToUnderstand(messages).Ok?
    ensures C.Pairs(Saved(runId, messages, images, response).history)
         == PairsOf(O.WithoutLastUser(O.WithoutLastUser(O.NonBlank(messages))))
  {
    var ms := O.NonBlank(messages);
    O.Composition(messages, images);
    AcceptedIsSayable(messages);
    DroppingStaysSayable(ms);
    DroppingStaysSayable(O.WithoutLastUser(ms));
    SpokenPairs(O.WithoutLastUser(O.WithoutLastUser(ms)));
  }

  // ---- The follow-up ----

  function Reply(response: string): seq<O.ChatMessage> {
    if Blank(response) then [] else [O.ChatMessage("assistant", response)]
  }

  lemma NonBlankOneMore(ms: seq<O.ChatMessage>, m: O.ChatMessage)
    ensures O.NonBlank(ms + [m]) == if O.Skipped(m) then O.NonBlank(ms) else O.NonBlank(ms) + [m]
  {
    assert (ms + [m])[..|ms|] == ms;
  }

  lemma FollowUpMessages(messages: seq<O.ChatMessage>, response: string, question: string)
    requires !Blank(question)
    ensures O.NonBlank(FollowUp(messages, response, question))
         == O.NonBlank(messages) + Reply(response) + [O.ChatMessage("user", question)]
  {
    NonBlankOneMore(messages, O.ChatMessage("assistant", response));
    NonBlankOneMore(messages + [O.ChatMessage("assistant", response)], O.ChatMessage("user", question));
    if Blank(response) {
      assert O.NonBlank(messages) + [] == O.NonBlank(messages);
    }
  }

  lemma DropQuestion(ms: seq<O.ChatMessage>, question: string)
    ensures O.WithoutLastUser(ms + [O.ChatMessage("user", question)]) == ms
  {
    var all := ms + [O.ChatMessage("user", question)];
    assert all[..|ms|] == ms && all[|ms| + 1..] == [];
  }

  lemma DropBeforeReply(ms: seq<O.ChatMessage>, response: string)
    ensures O.WithoutLastUser(ms + Reply(response)) == O.WithoutLastUser(ms) + Reply(response)
  {
    if Blank(response) {
      assert ms + [] == ms && O.WithoutLastUser(ms) + [] == O.WithoutLastUser(ms);
    } else {
      var all := ms + Reply(response);
      assert all[..|ms|] == ms;
      if O.LastUser(ms).Some? {
        var i := O.LastUser(ms).value;
        assert O.LastUser(all) == Some(i);
        assert O.RemoveAt(all, i) == O.RemoveAt(ms, i) + Reply(response);
      }
    }
  }

  lemma FollowUpAccepted(messages: seq<O.ChatMessage>, response: string, question: string)
    requires O.ToUnderstand(messages).Ok? && !Blank(question)
    ensures O.ToUnderstand(FollowUp(messages, response, question)).Ok?
  {
    O.AcceptedIff(messages);
    O.AcceptedIff(FollowUp(messages, response, question));
    var last := O.ChatMessage("user", question);
    assert last in FollowUp(messages, response, question);
  }

  /** The earlier messages that are left when the first request's utterance is taken out. */
  function Earlier(messages: seq<O.ChatMessage>): seq<O.ChatMessage> {
    O.WithoutLastUser(O.NonBlank(messages))
  }

  /** What the follow-up carries: the earlier messages and the reply, without the utterance it answered. */
  lemma FollowUpHistory(runId: string, messages: seq<O.ChatMessage>, images: map<string, seq<byte>>,
                        response: string, question: string, next: string)
    requires O.ToUnderstand(messages).Ok? && !Blank(question)
    ensures O.ToUnderstand(FollowUp(messages, response, question)).Ok?
    ensures C.Pairs(Saved(runId, FollowUp(messages, response, question), images, next).history)
         == PairsOf(Earlier(messages) + Reply(response))
  {
    FollowUpAccepted(messages, response, question);
    FollowUpMessages(messages, response, question);
    var ms := O.NonBlank(messages);
    DropQuestion(ms + Reply(response), question);
    DropBeforeReply(ms, response);
    SavedHistory(runId, FollowUp(messages, response, question), images, next);
  }

  /** What the first request saved: the earlier messages without their last user message, the utterance
      and the response. */
  function Stored(messages: seq<O.ChatMessage>, utterance: string, response: string): seq<C.Pair> {
    PairsOf(O.WithoutLastUser(Earlier(messages))) + [C.Pair("user", utterance), C.Pair("assistant", response)]
  }

  lemma SavedIsStored(runId: string, messages: seq<O.ChatMessage>, images: map<string, seq<byte>>, response: string)
    requires O.ToUnderstand(messages).Ok?
    ensures C.Spoken(Saved(runId, messages, images, response))
         == Stored(messages, O.ToUnderstand(messages).value.utterance, response)
  {
    SavedHistory(runId, messages, images, response);
  }

  /**
   The pair the follow-up looks for stands where it will be looked for: before the
   user message missing from what was saved, or repeated one place further on in
   the whole conversation; with no such message, anywhere in the earlier messages.
   */
  predicate InPlace(messages: seq<O.ChatMessage>, utterance: string, response: string, mark: C.Mark) {
    var earlier := Earlier(messages);
    var whole := PairsOf(earlier) + [C.Pair("user", utterance), C.Pair("assistant", response)];
    match O.LastUser(earlier)
    case None => mark.seqNo < |earlier|
    case Some(i) => mark.seqNo < i || (mark.seqNo + 1 < |whole| && whole[mark.seqNo + 1] == mark.pair)
  }

  lemma StoredAt(messages: seq<O.ChatMessage>, utterance: string, response: string, j: nat)
    requires j < |Stored(messages, utterance, response)|
    ensures
      var earlier := Earlier(messages);
      var whole := PairsOf(earlier) + [C.Pair("user", utterance), C.Pair("assistant", response)];
      match O.LastUser(earlier)
      case None => j < |whole| && Stored(messages, utterance, response)[j] == whole[j]
      case Some(i) =>
        j + 1 < |whole| && Stored(messages, utterance, response)[j] == (if j < i then whole[j] else whole[j + 1])
  {
  }

  lemma InPlaceIff(messages: seq<O.ChatMessage>, utterance: string, response: string)
    requires C.MarkOf(PairsOf(Earlier(messages) + Reply(response))).Some?
    ensures
      var mark := C.MarkOf(PairsOf(Earlier(messages) + Reply(response))).value;
      var stored := Stored(messages, utterance, response);
      (mark.seqNo < |stored| && stored[mark.seqNo] == mark.pair) <==> InPlace(messages, utterance, response, mark)
  {
    var earlier := Earlier(messages);
    var said := PairsOf(earlier + Reply(response));
    var mark := C.MarkOf(said).value;
    assert said[mark.seqNo] == mark.pair;
    assert forall k :: 0 <= k < |earlier| ==> said[k] == PairsOf(earlier)[k];
    StoredAt(messages, utterance, response, mark.seqNo);
  }

  /**
   A proxied follow-up is sure to be merged into the conversation its predecessor
   saved if and only if that conversation is recent, something was said before the
   follow-up, the pair it looks for is in place, and there is no rival.
   */
  lemma ProxiedFollowUpMergesIff(db: C.Db, now: int, runId: string, messages: seq<O.ChatMessage>,
                                 images: map<string, seq<byte>>, response: string, choice: Option<nat>,
                                 later: int, nextRun: string, question: string, next: string)
    requires C.Inv(db) && O.ToUnderstand(messages).Ok? && !Blank(question)
    requires C.Chosen(db, now, C.MarkOf(C.Pairs(Saved(runId, messages, images, response).history)), choice)
    ensures O.ToUnderstand(FollowUp(messages, response, question)).Ok?
    ensures
      var first := Saved(runId, messages, images, response);
      var saved, at := C.Save(db, now, first, choice), C.Target(db, choice);
      var second := Saved(nextRun, FollowUp(messages, response, question), images, next);
      var mark := C.MarkOf(C.Pairs(second.history));
      C.SureToMerge(saved, later, mark, at) <==>
        && mark.Some? && C.Recent(saved, later, at)
        && InPlace(messages, first.utterance, response, mark.value)
        && !C.HasRival(saved, later, mark.value, at)
  {
    var first := Saved(runId, messages, images, response);
    var saved, at := C.Save(db, now, first, choice), C.Target(db, choice);
    C.SaveKeepsInv(db, now, first, choice);
    C.SaveChangesOne(db, now, first, choice);
    SavedIsStored(runId, messages, images, response);
    FollowUpHistory(nextRun, messages, images, response, question, next);
    var mark := C.MarkOf(PairsOf(Earlier(messages) + Reply(response)));
    C.SureToMergeIff(saved, later, mark, at);
    if mark.Some? {
      InPlaceIff(messages, first.utterance, response);
    }
  }

  /**
   When the reply is not blank and was not given before, the pair is in place
   exactly when the first request already carried two user messages.  So the first
   follow-up of a chat never continues the row of its opening question, and the
   later ones can continue the row before them.
   */
  lemma NewReplyInPlaceIff(messages: seq<O.ChatMessage>, utterance: string, response: string)
    requires O.ToUnderstand(messages).Ok? && !Blank(response)
    requires C.Pair("assistant", response) !in PairsOf(Earlier(messages))
    ensures
      var mark := C.MarkOf(PairsOf(Earlier(messages) + Reply(response)));
      && mark.Some?
      && (InPlace(messages, utterance, response, mark.value) <==> O.UserCount(O.NonBlank(messages)) >= 2)
  {
    var earlier := Earlier(messages);
    var reply := C.Pair("assistant", response);
    var said := PairsOf(earlier + Reply(response));
    assert said == PairsOf(earlier) + [reply];
    assert said[|said| - 1] == reply && reply in said;
    var mark := C.MarkOf(said).value;
    assert mark.pair == reply && mark.seqNo == |earlier| by {
      assert forall k :: 0 <= k < |earlier| ==> PairsOf(earlier)[k] in PairsOf(earlier);
      assert said[mark.seqNo] == reply;
    }
    O.AcceptedHasUser(messages);
    O.WithoutLastUserCounts(O.NonBlank(messages));
    O.NoUserIff(earlier);
  }
}
