/** Which turns say something, what they say, and which lists of chat messages the proxy refuses. */
module HistoryTurns {
  import opened Options
  import opened Text
  import opened OpenAiHistory

  // ---- One turn ----

  function TextOf(m: HistoryMessage): string {
    m.text
  }

  function ImageOf(m: HistoryMessage): Option<seq<byte>> {
    if m.UserWithImage? then Some(m.image) else None
  }

  /**
   A user request says its repaired text, or the original one if nothing was
   repaired, and is dropped if both are empty.  Its own image goes before one
   stored under the turn's identifier.
   */
  lemma RequestSays(turn: Turn, images: map<string, seq<byte>>)
    requires turn.content.Some? && turn.content.value.UserRequest?
    ensures
      var said, c := MessageOf(turn, images), turn.content.value;
      && (said == None <==> c.request == "" && c.repaired == "")
      && (said.Some? ==>
            && (said.value.User? || said.value.UserWithImage?)
            && (c.repaired != "" ==> TextOf(said.value) == c.repaired)
            && (c.repaired == "" ==> TextOf(said.value) == c.request)
            && (c.image != [] ==> ImageOf(said.value) == Some(c.image))
            && (c.image == [] && turn.identifier != "" && turn.identifier in images ==>
                  ImageOf(said.value) == Some(images[turn.identifier]))
            && (c.image == [] && (turn.identifier == "" || turn.identifier !in images) ==>
                  ImageOf(said.value) == None))
  {
  }

  /** Of the actions only an answer with a text says anything. */
  lemma ActionSays(turn: Turn, images: map<string, seq<byte>>, text: string)
    requires turn.content.Some? && turn.content.value.Action?
    ensures MessageOf(turn, images) == Some(Assistant(text)) <==>
            text != "" && turn.content.value.action == "Respond" && turn.content.value.input == Response(text)
    ensures MessageOf(turn, images).Some? ==> MessageOf(turn, images).value.Assistant?
  {
  }

  /** A plain message is said by the assistant, the system or, with any other speaker, the user. */
  lemma PlainSays(turn: Turn, images: map<string, seq<byte>>)
    requires turn.content.Some? && turn.content.value.PlainMessage?
    ensures
      var said, text := MessageOf(turn, images), turn.content.value.content;
      && (said == None <==> text == "")
      && (said.Some? ==> TextOf(said.value) == text)
      && (said.Some? ==> (said.value.Assistant? <==> turn.speaker == SpeakerAssistant))
      && (said.Some? ==> (said.value.System? <==> turn.speaker == SpeakerSystem))
      && (said.Some? ==> (said.value.User? <==> turn.speaker != SpeakerAssistant && turn.speaker != SpeakerSystem))
  {
  }

  lemma OthersSayNothing(turn: Turn, images: map<string, seq<byte>>)
    requires turn.content.None? || turn.content.value.OtherContent?
    ensures MessageOf(turn, images) == None
  {
  }

  // ---- All turns ----

  lemma {:induction false} KeptConcat(a: seq<Turn>, b: seq<Turn>, images: map<string, seq<byte>>)
    ensures Kept(a + b, images) == Kept(a, images) + Kept(b, images)
  {
    if b == [] {
      assert a + b == a;
    } else {
      var front, last := b[..|b| - 1], b[|b| - 1];
      assert b == front + [last] && a + b == (a + front) + [last];
      KeptConcat(a, front, images);
      KeptOneMore(a + front, last, images);
      KeptOneMore(front, last, images);
    }
  }

  predicate IsRequest(turn: Turn) {
    turn.content.Some? && turn.content.value.UserRequest?
  }

  lemma {:induction false} LastRequestAt(turns: seq<Turn>, i: nat)
    requires i < |turns| && IsRequest(turns[i])
    requires forall j | i < j < |turns| :: !IsRequest(turns[j])
    ensures LastRequest(turns) == Some(i)
  {
    if i < |turns| - 1 {
      LastRequestAt(turns[..|turns| - 1], i);
    }
  }

  lemma {:induction false} NoRequest(turns: seq<Turn>)
    requires forall j | 0 <= j < |turns| :: !IsRequest(turns[j])
    ensures LastRequest(turns) == None
  {
    if turns != [] {
      NoRequest(turns[..|turns| - 1]);
    }
  }

  /** The history of turns is what the turns before and after the last user request say, in order. */
  lemma HistoryAround(a: seq<Turn>, request: Turn, b: seq<Turn>, images: map<string, seq<byte>>)
    requires IsRequest(request) && forall j | 0 <= j < |b| :: !IsRequest(b[j])
    ensures History(a + [request] + b, images) == Kept(a, images) + Kept(b, images)
    ensures History(b, images) == Kept(b, images)
  {
    var all := a + [request] + b;
    assert forall j | |a| < j < |all| :: all[j] == b[j - |a| - 1];
    LastRequestAt(all, |a|);
    NoRequest(b);
    assert RemoveAt(all, |a|) == a + b;
    KeptConcat(a, b, images);
  }

  // ---- The proxy ----

  predicate HasKnownRole(m: ChatMessage) {
    m.role in {"user", "assistant", "system"}
  }

  /** Chat messages become turns by role; the identifier stays empty and nothing is repaired. */
  lemma ProxyTurnIs(m: ChatMessage)
    requires HasKnownRole(m)
    ensures
      var t := TurnOf(m);
      && t.identifier == "" && t.content.Some?
      && (m.role == "user" ==> t.speaker == SpeakerUser && t.content.value == UserRequest(m.content, "", []))
      && (m.role == "assistant" ==>
            t.speaker == SpeakerAssistant && t.content.value == Action("Respond", Response(m.content)))
      && (m.role == "system" ==> t.speaker == SpeakerSystem && t.content.value == PlainMessage(m.content))
  {
  }

  lemma {:induction false} NonBlankConcat(a: seq<ChatMessage>, b: seq<ChatMessage>)
    ensures NonBlank(a + b) == NonBlank(a) + NonBlank(b)
  {
    if b == [] {
      assert a + b == a;
    } else {
      assert (a + b)[..|a + b| - 1] == a + b[..|b| - 1];
      NonBlankConcat(a, b[..|b| - 1]);
    }
  }

  lemma NonBlankOne(m: ChatMessage)
    ensures NonBlank([m]) == if IsBlank(m.content) then [] else [m]
  {
    TrimEmptyIffBlank(m.content);
    assert [m][..0] == [];
  }

  /**
   A list is refused for the role of its first message that is neither blank nor
   of a known role; if there is none, it is refused exactly when no message that
   is not blank is the user's.
   */
  lemma RefusedFor(messages: seq<ChatMessage>, k: nat)
    requires k < |messages| && !IsBlank(messages[k].content) && !HasKnownRole(messages[k])
    requires forall j | 0 <= j < k :: IsBlank(messages[j].content) || HasKnownRole(messages[j])
    ensures ToUnderstand(messages) == Err(UnsupportedRole(messages[k].role))
  {
    TrimEmptyIffBlank(messages[k].content);
    var before, m := messages[..k], messages[k];
    assert messages[..k + 1] == before + [m];
    NonBlankConcat(before, [m]);
    NonBlankOne(m);
    NonBlankHolds(before);
    forall x | x in before && !Skipped(x) ensures Supported(x.role) {
      TrimEmptyIffBlank(x.content);
      var j :| 0 <= j < k && messages[j] == x;
      assert HasKnownRole(x);
    }
    FirstUnsupportedIff(NonBlank(before));
    OneMoreMessage(NonBlank(before), m);
    FirstUnsupportedIsFirst(messages, k + 1);
  }

  lemma RefusedWithoutUser(messages: seq<ChatMessage>)
    requires forall m | m in messages :: IsBlank(m.content) || HasKnownRole(m)
    ensures ToUnderstand(messages) == Err(NoUserMessage) <==>
            forall m | m in messages :: IsBlank(m.content) || m.role != "user"
    ensures ToUnderstand(messages).Err? ==> ToUnderstand(messages) == Err(NoUserMessage)
  {
    AcceptedIff(messages);
    NonBlankHolds(messages);
    FirstUnsupportedIff(NonBlank(messages));
    forall m | m in messages ensures Skipped(m) <==> IsBlank(m.content) {
      TrimEmptyIffBlank(m.content);
    }
  }
}
