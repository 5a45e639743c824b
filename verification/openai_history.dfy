/**
 Two programs in sequence: the proxy turns an OpenAI message list into an
 utterance and chat turns, and the server turns those back into a history.
 JSON texts appear as what serde_json reads in them.
 */
module OpenAiHistory {
  import opened Options
  import opened Text

  datatype ChatMessage = ChatMessage(role: string, content: string)

  datatype Speaker = SpeakerUser | SpeakerAssistant | SpeakerSystem | SpeakerOther

  /** An action's input: an object with a string under "Response", or anything else. */
  datatype Input = Response(text: string) | OtherInput

  datatype Content =
    | UserRequest(request: string, repaired: string, image: seq<byte>)
    | Action(action: string, input: Input)
    | PlainMessage(content: string)
    | OtherContent

  datatype Turn = Turn(speaker: Speaker, identifier: string, content: Option<Content>)

  datatype HistoryMessage =
    | User(text: string)
    | UserWithImage(text: string, image: seq<byte>)
    | Assistant(text: string)
    | System(text: string)

  datatype ProxyError = UnsupportedRole(role: string) | NoUserMessage

  // ---- The proxy ----

  predicate Supported(role: string) {
    role == "user" || role == "assistant" || role == "system"
  }

  function TurnOf(m: ChatMessage): Turn {
    if m.role == "user" then Turn(SpeakerUser, "", Some(UserRequest(m.content, "", [])))
    else if m.role == "assistant" then Turn(SpeakerAssistant, "", Some(Action("Respond", Response(m.content))))
    else Turn(SpeakerSystem, "", Some(PlainMessage(m.content)))
  }

  function TurnsOf(ms: seq<ChatMessage>): seq<Turn> {
    seq(|ms|, k requires 0 <= k < |ms| => TurnOf(ms[k]))
  }

  predicate Skipped(m: ChatMessage) {
    Trim(m.content) == ""
  }

  function NonBlank(ms: seq<ChatMessage>): seq<ChatMessage> {
    if ms == [] then []
    else if Skipped(ms[|ms| - 1]) then NonBlank(ms[..|ms| - 1])
    else NonBlank(ms[..|ms| - 1]) + [ms[|ms| - 1]]
  }

  function FirstUnsupported(ms: seq<ChatMessage>): Option<string> {
    if ms == [] then None
    else if FirstUnsupported(ms[..|ms| - 1]).Some? then FirstUnsupported(ms[..|ms| - 1])
    else if Supported(ms[|ms| - 1].role) then None
    else Some(ms[|ms| - 1].role)
  }

  function LastUser(ms: seq<ChatMessage>): (i: Option<nat>)
    ensures i.Some? ==> i.value < |ms| && ms[i.value].role == "user"
    ensures i.Some? ==> forall k :: i.value < k < |ms| ==> ms[k].role != "user"
    ensures i.None? <==> forall k :: 0 <= k < |ms| ==> ms[k].role != "user"
  {
    if ms == [] then None
    else if ms[|ms| - 1].role == "user" then Some(|ms| - 1)
    else LastUser(ms[..|ms| - 1])
  }

  function RemoveAt<T>(s: seq<T>, i: nat): (r: seq<T>)
    requires i < |s|
    ensures |r| == |s| - 1
    ensures forall k :: 0 <= k < |r| ==> r[k] == s[if k < i then k else k + 1]
  {
    s[..i] + s[i + 1..]
  }

  datatype Understanding = Understanding(utterance: string, turns: seq<Turn>)

  function ToUnderstand(messages: seq<ChatMessage>): Result<Understanding, ProxyError> {
    var ms := NonBlank(messages);
    if FirstUnsupported(ms).Some? then Err(UnsupportedRole(FirstUnsupported(ms).value))
    else
      match LastUser(ms)
      case None => Err(NoUserMessage)
      case Some(i) => Ok(Understanding(ms[i].content, RemoveAt(TurnsOf(ms), i)))
  }

  lemma {:induction false} FirstUnsupportedIsFirst(ms: seq<ChatMessage>, n: nat)
    requires n <= |ms| && FirstUnsupported(NonBlank(ms[..n])).Some?
    ensures FirstUnsupported(NonBlank(ms)) == FirstUnsupported(NonBlank(ms[..n]))
    decreases |ms|
  {
    if n == |ms| {
      assert ms[..n] == ms;
    } else {
      var front := ms[..|ms| - 1];
      assert front[..n] == ms[..n];
      FirstUnsupportedIsFirst(front, n);
      if !Skipped(ms[|ms| - 1]) {
        assert NonBlank(ms)[..|NonBlank(ms)| - 1] == NonBlank(front);
      }
    }
  }

  lemma OneMoreTurn(seen: seq<ChatMessage>, m: ChatMessage)
    ensures TurnsOf(seen + [m]) == TurnsOf(seen) + [TurnOf(m)]
  {
  }

  lemma OneMoreMessage(seen: seq<ChatMessage>, m: ChatMessage)
    ensures LastUser(seen + [m]) == if m.role == "user" then Some(|seen|) else LastUser(seen)
    ensures FirstUnsupported(seen).None? ==>
              FirstUnsupported(seen + [m]) == if Supported(m.role) then None else Some(m.role)
  {
    var all := seen + [m];
    assert all[|all| - 1] == m && all[..|all| - 1] == seen;
  }

  method OpenAiMessagesToUnderstand(messages: seq<ChatMessage>) returns (result: Result<Understanding, ProxyError>)
    ensures result == ToUnderstand(messages)
  {
    var turns: seq<Turn> := [];
    var lastUserIdx: Option<nat> := None;
    var i := 0;
    while i < |messages|
      invariant i <= |messages|
      invariant turns == TurnsOf(NonBlank(messages[..i]))
      invariant lastUserIdx == LastUser(NonBlank(messages[..i]))
      invariant FirstUnsupported(NonBlank(messages[..i])).None?
    {
      var m := messages[i];
      ghost var seen := NonBlank(messages[..i]);
      assert messages[..i + 1][..i] == messages[..i];
      i := i + 1;
      if Skipped(m) {
        continue;
      }
      assert NonBlank(messages[..i]) == seen + [m];
      OneMoreTurn(seen, m);
      OneMoreMessage(seen, m);
      if m.role == "user" {
        lastUserIdx := Some(|turns|);
        turns := turns + [Turn(SpeakerUser, "", Some(UserRequest(m.content, "", [])))];
      } else if m.role == "assistant" {
        turns := turns + [Turn(SpeakerAssistant, "", Some(Action("Respond", Response(m.content))))];
      } else if m.role == "system" {
        turns := turns + [Turn(SpeakerSystem, "", Some(PlainMessage(m.content)))];
      } else {
        FirstUnsupportedIsFirst(messages, i);
        return Err(UnsupportedRole(m.role));
      }
    }
    assert messages[..i] == messages;
    if lastUserIdx.None? {
      return Err(NoUserMessage);
    }
    var current := turns[lastUserIdx.value];
    turns := RemoveAt(turns, lastUserIdx.value);
    result := Ok(Understanding(current.content.value.request, turns));
  }

  // ---- The server ----

  function LastRequest(turns: seq<Turn>): (i: Option<nat>)
    ensures i.Some? ==> i.value < |turns|
  {
    if turns == [] then None
    else if turns[|turns| - 1].content.Some? && turns[|turns| - 1].content.value.UserRequest? then Some(|turns| - 1)
    else LastRequest(turns[..|turns| - 1])
  }

  /** `images` stands for the image store at the time of the call. */
  function MessageOf(turn: Turn, images: map<string, seq<byte>>): Option<HistoryMessage> {
    match turn.content
    case None => None
    case Some(UserRequest(request, repaired, image)) =>
      var text := if repaired != "" then repaired else request;
      if text == "" then None
      else if image != [] then Some(UserWithImage(text, image))
      else if turn.identifier != "" && turn.identifier in images then Some(UserWithImage(text, images[turn.identifier]))
      else Some(User(text))
    case Some(Action(action, input)) =>
      if action == "Respond" && input.Response? && input.text != "" then Some(Assistant(input.text)) else None
    case Some(PlainMessage(content)) =>
      if content == "" then None
      else if turn.speaker == SpeakerAssistant then Some(Assistant(content))
      else if turn.speaker == SpeakerSystem then Some(System(content))
      else Some(User(content))
    case Some(OtherContent) => None
  }

  function Kept(turns: seq<Turn>, images: map<string, seq<byte>>): seq<HistoryMessage> {
    if turns == [] then []
    else
      match MessageOf(turns[|turns| - 1], images)
      case None => Kept(turns[..|turns| - 1], images)
      case Some(m) => Kept(turns[..|turns| - 1], images) + [m]
  }

  /** The history: every turn with something to say, but for the last user request. */
  function History(turns: seq<Turn>, images: map<string, seq<byte>>): seq<HistoryMessage> {
    match LastRequest(turns)
    case None => Kept(turns, images)
    case Some(i) => Kept(RemoveAt(turns, i), images)
  }

  /** The first `i` turns without turn number `skip`. */
  ghost function Seen(turns: seq<Turn>, skip: Option<nat>, i: nat): seq<Turn>
    requires i <= |turns|
  {
    if skip.Some? && skip.value < i then RemoveAt(turns[..i], skip.value) else turns[..i]
  }

  lemma SeenGrows(turns: seq<Turn>, skip: Option<nat>, i: nat)
    requires i < |turns|
    ensures Seen(turns, skip, i + 1) ==
            if skip == Some(i) then Seen(turns, skip, i) else Seen(turns, skip, i) + [turns[i]]
  {
    assert turns[..i + 1] == turns[..i] + [turns[i]];
    if skip == Some(i) {
      assert RemoveAt(turns[..i + 1], i) == turns[..i];
    } else if skip.Some? && skip.value < i {
      var n := skip.value;
      assert RemoveAt(turns[..i + 1], n) == RemoveAt(turns[..i], n) + [turns[i]];
    }
  }

  lemma KeptOneMore(turns: seq<Turn>, turn: Turn, images: map<string, seq<byte>>)
    ensures Kept(turns + [turn], images) ==
            match MessageOf(turn, images)
            case None => Kept(turns, images)
            case Some(m) => Kept(turns, images) + [m]
  {
    assert (turns + [turn])[..|turns|] == turns;
  }

  lemma AllSeen(turns: seq<Turn>, images: map<string, seq<byte>>)
    ensures Kept(Seen(turns, LastRequest(turns), |turns|), images) == History(turns, images)
  {
    assert turns[..|turns|] == turns;
  }

  method ExtractHistory(turns: seq<Turn>, images: map<string, seq<byte>>) returns (history: seq<HistoryMessage>)
    ensures history == History(turns, images)
  {
    history := [];
    var last := LastRequest(turns);
    var i := 0;
    while i < |turns|
      invariant i <= |turns|
      invariant history == Kept(Seen(turns, last, i), images)
    {
      var turn := turns[i];
      SeenGrows(turns, last, i);
      KeptOneMore(Seen(turns, last, i), turn, images);
      if last != Some(i) {
        var m := MessageOf(turn, images);
        if m.Some? {
          history := history + [m.value];
        }
      }
      i := i + 1;
    }
    AllSeen(turns, images);
  }

  // ---- The composition ----

  /** What a message list means as history, with no turns in between. */
  function Spoken(m: ChatMessage): HistoryMessage {
    if m.role == "user" then User(m.content)
    else if m.role == "assistant" then Assistant(m.content)
    else System(m.content)
  }

  function AllSpoken(ms: seq<ChatMessage>): seq<HistoryMessage> {
    seq(|ms|, k requires 0 <= k < |ms| => Spoken(ms[k]))
  }

  function WithoutLastUser(ms: seq<ChatMessage>): seq<ChatMessage> {
    match LastUser(ms)
    case None => ms
    case Some(i) => RemoveAt(ms, i)
  }

  function UserCount(ms: seq<ChatMessage>): nat {
    if ms == [] then 0 else UserCount(ms[..|ms| - 1]) + (if ms[|ms| - 1].role == "user" then 1 else 0)
  }

  lemma {:induction false} NonBlankHolds(ms: seq<ChatMessage>)
    ensures forall m :: m in NonBlank(ms) <==> m in ms && !Skipped(m)
  {
    if ms != [] {
      NonBlankHolds(ms[..|ms| - 1]);
      assert forall m :: m in ms <==> m in ms[..|ms| - 1] || m == ms[|ms| - 1];
    }
  }

  lemma {:induction false} FirstUnsupportedIff(ms: seq<ChatMessage>)
    ensures FirstUnsupported(ms).None? <==> forall m :: m in ms ==> Supported(m.role)
  {
    if ms != [] {
      FirstUnsupportedIff(ms[..|ms| - 1]);
      assert forall m :: m in ms <==> m in ms[..|ms| - 1] || m == ms[|ms| - 1];
    }
  }

  /** The proxy accepts exactly the lists whose non-blank messages all have a known role and include
      a user's. */
  lemma AcceptedIff(messages: seq<ChatMessage>)
    ensures ToUnderstand(messages).Ok? <==>
              && (forall m :: m in messages && !Skipped(m) ==> Supported(m.role))
              && (exists m :: m in messages && !Skipped(m) && m.role == "user")
  {
    var ms := NonBlank(messages);
    NonBlankHolds(messages);
    FirstUnsupportedIff(ms);
    if m :| m in messages && !Skipped(m) && m.role == "user" {
      assert m in ms;
    }
    if i :| 0 <= i < |ms| && ms[i].role == "user" {
      assert ms[i] in ms;
    }
  }

  lemma {:induction false} LastRequestIsLastUser(ms: seq<ChatMessage>)
    ensures LastRequest(TurnsOf(ms)) == LastUser(ms)
  {
    if ms != [] {
      var front := ms[..|ms| - 1];
      LastRequestIsLastUser(front);
      assert TurnsOf(ms)[..|ms| - 1] == TurnsOf(front);
    }
  }

  ghost predicate Sayable(ms: seq<ChatMessage>) {
    forall k :: 0 <= k < |ms| ==> ms[k].content != "" && Supported(ms[k].role)
  }

  lemma TurnReadsBack(m: ChatMessage, images: map<string, seq<byte>>)
    requires m.content != "" && Supported(m.role)
    ensures MessageOf(TurnOf(m), images) == Some(Spoken(m))
  {
  }

  lemma {:induction false} KeptIsAllSpoken(ms: seq<ChatMessage>, images: map<string, seq<byte>>)
    requires Sayable(ms)
    ensures Kept(TurnsOf(ms), images) == AllSpoken(ms)
  {
    if ms != [] {
      var front, m := ms[..|ms| - 1], ms[|ms| - 1];
      assert ms == front + [m];
      KeptIsAllSpoken(front, images);
      OneMoreTurn(front, m);
      assert TurnsOf(ms)[..|ms| - 1] == TurnsOf(front);
      TurnReadsBack(m, images);
      assert AllSpoken(ms) == AllSpoken(front) + [Spoken(m)];
    }
  }

  lemma HistoryOfTurns(ms: seq<ChatMessage>, images: map<string, seq<byte>>)
    requires Sayable(ms)
    ensures History(TurnsOf(ms), images) == AllSpoken(WithoutLastUser(ms))
  {
    LastRequestIsLastUser(ms);
    var rest := WithoutLastUser(ms);
    if LastUser(ms).Some? {
      assert RemoveAt(TurnsOf(ms), LastUser(ms).value) == TurnsOf(rest);
    }
    KeptIsAllSpoken(rest, images);
  }

  /** Proxy and server together: the utterance is the last user message, and the history is the
      non-blank messages in order without it and without the last user message that remains. */
  lemma Composition(messages: seq<ChatMessage>, images: map<string, seq<byte>>)
    requires ToUnderstand(messages).Ok?
    ensures
      var ms := NonBlank(messages);
      var u := ToUnderstand(messages).value;
      && LastUser(ms).Some? && u.utterance == ms[LastUser(ms).value].content
      && History(u.turns, images) == AllSpoken(WithoutLastUser(WithoutLastUser(ms)))
  {
    var ms := NonBlank(messages);
    NonBlankHolds(messages);
    FirstUnsupportedIff(ms);
    forall k | 0 <= k < |ms| ensures ms[k].content != "" && Supported(ms[k].role) {
      assert ms[k] in ms;
    }
    var rest := WithoutLastUser(ms);
    assert RemoveAt(TurnsOf(ms), LastUser(ms).value) == TurnsOf(rest);
    HistoryOfTurns(rest, images);
  }

  lemma {:induction false} UserCountSplits(a: seq<ChatMessage>, b: seq<ChatMessage>)
    ensures UserCount(a + b) == UserCount(a) + UserCount(b)
  {
    if b == [] {
      assert a + b == a;
    } else {
      assert (a + b)[..|a + b| - 1] == a + b[..|b| - 1];
      UserCountSplits(a, b[..|b| - 1]);
    }
  }

  lemma {:induction false} NoUserIff(ms: seq<ChatMessage>)
    ensures LastUser(ms).None? <==> UserCount(ms) == 0
  {
    if ms != [] {
      NoUserIff(ms[..|ms| - 1]);
    }
  }

  lemma AcceptedHasUser(messages: seq<ChatMessage>)
    requires ToUnderstand(messages).Ok?
    ensures UserCount(NonBlank(messages)) >= 1
  {
    NoUserIff(NonBlank(messages));
  }

  lemma WithoutLastUserCounts(ms: seq<ChatMessage>)
    ensures UserCount(WithoutLastUser(ms)) == if UserCount(ms) == 0 then 0 else UserCount(ms) - 1
  {
    NoUserIff(ms);
    if LastUser(ms).Some? {
      var i := LastUser(ms).value;
      assert ms == ms[..i] + [ms[i]] + ms[i + 1..];
      UserCountSplits(ms[..i] + [ms[i]], ms[i + 1..]);
      UserCountSplits(ms[..i], [ms[i]]);
      UserCountSplits(ms[..i], ms[i + 1..]);
      assert UserCount([ms[i]]) == UserCount([]) + 1;
    }
  }

  /** Both programs drop a user message, so nothing said before the utterance is lost exactly when
      the list has a single non-blank user message. */
  lemma NothingElseLostIff(messages: seq<ChatMessage>, images: map<string, seq<byte>>)
    requires ToUnderstand(messages).Ok?
    ensures History(ToUnderstand(messages).value.turns, images) == AllSpoken(WithoutLastUser(NonBlank(messages)))
       <==> UserCount(NonBlank(messages)) == 1
  {
    Composition(messages, images);
    var ms := NonBlank(messages);
    NoUserIff(ms);
    WithoutLastUserCounts(ms);
    NoUserIff(WithoutLastUser(ms));
  }
}
