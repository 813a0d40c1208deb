/**
 * `AiChatViewModel`: the stored conversation, `sendMessage` with its guards,
 * the request window sent to the language model and the extraction of the
 * reply from the service's parsed response. The HTTP exchange and the JSON
 * encoding are not modelled; the response arrives already parsed.
 */
module AiChatVm {
  import opened Wrappers
  import opened Records
  import Text
  import Lists

  const USER: string := "user"
  const MODEL: string := "model"
  const NOT_LOGGED_IN: string := "Not logged in"

  /** The number of most recent messages a request carries. */
  const REQUEST_WINDOW: nat := 8

  const UNREACHABLE: string := "Sorry, I couldn't reach the AI service. "
  const TRY_AGAIN: string := "Please try again."
  const NO_RESPONSE: string := "Sorry, I didn't get a response. " + TRY_AGAIN
  const SOMETHING_WRONG: string := "Sorry, something went wrong. " + TRY_AGAIN

  /** `AiChatMessage`. */
  datatype ChatMessage = ChatMessage(id: string, role: string, content: string, createdAt: Timestamp)

  predicate IsUser(m: ChatMessage) {
    m.role == USER
  }

  /** `AiChatUiState`. */
  datatype ChatUi = ChatUi(loading: bool, error: Option<string>)

  datatype State = State(ui: ChatUi, messages: seq<ChatMessage>, startedListening: bool)

  function Initial(): State {
    State(ChatUi(false, None), [], false)
  }

  datatype Outcome = Outcome(state: State, effects: seq<Effect>)

  function ChatPath(uid: string): string {
    "users/" + uid + "/ai_chats"
  }

  /** A stored message; a missing role reads as the user's. */
  function MessageOf(d: Doc): (m: ChatMessage)
    ensures m.id == d.id && m.createdAt == GetTimestamp(d, CreatedAt)
    ensures IsUser(m) <==> GetString(d, Role).None? || GetString(d, Role) == Some(USER)
    ensures GetString(d, Role).None? ==> m.role == USER
    ensures GetString(d, Role).Some? ==> m.role == GetString(d, Role).value
    ensures GetString(d, Content).None? ==> m.content == ""
    ensures GetString(d, Content).Some? ==> m.content == GetString(d, Content).value
  {
    ChatMessage(d.id, GetString(d, Role).GetOr(USER), GetString(d, Content).GetOr(""), GetTimestamp(d, CreatedAt))
  }

  /** `listenChat`: nothing without a user, and only the first call listens. */
  function ListenChat(s: State, uid: Option<string>): (o: Outcome)
    ensures uid.None? || s.startedListening ==> o == Outcome(s, [])
    ensures uid.Some? && !s.startedListening ==>
      o == Outcome(s.(startedListening := true), [Listen(ChatPath(uid.value))])
  {
    if uid.None? || s.startedListening then Outcome(s, [])
    else Outcome(s.(startedListening := true), [Listen(ChatPath(uid.value))])
  }

  function OnChat(s: State, docs: seq<Doc>): (r: State)
    ensures |r.messages| == |docs|
    ensures forall i :: 0 <= i < |docs| ==> r.messages[i] == MessageOf(docs[i])
    ensures r.ui == s.ui && r.startedListening == s.startedListening
  {
    s.(messages := Lists.Map(docs, MessageOf))
  }

  /** The chat listener failed: only the error changes. */
  function OnChatFailed(s: State, message: Option<string>): (r: State)
    ensures r == s.(ui := s.ui.(error := message))
  {
    s.(ui := s.ui.(error := message))
  }

  /** A stored message's fields. */
  function MessagePayload(role: string, content: string, now: int): (p: Payload)
    ensures p.Keys == {Role, Content, CreatedAt}
  {
    map[Role := Str(role), Content := Str(content), CreatedAt := Time(now)]
  }

  /** A message written with a role reads back with that role and content. */
  lemma MessageReadsBack(id: string, role: string, content: string, now: int)
    ensures MessageOf(Added(id, MessagePayload(role, content, now))) == ChatMessage(id, role, content, Some(now))
  {
    var d := Added(id, MessagePayload(role, content, now));
    assert GetString(d, Role) == Some(role);
    assert GetString(d, Content) == Some(content);
  }

  /**
   * `sendMessage`: the login check first (an error), then blank text (ignored);
   * otherwise loading starts, the error clears and the trimmed text is stored
   * as the user's message.
   */
  function SendMessage(s: State, uid: Option<string>, userText: string, now: int): (o: Outcome)
    ensures uid.None? ==> o == Outcome(s.(ui := s.ui.(error := Some(NOT_LOGGED_IN))), [])
    ensures uid.Some? && Text.IsBlank(userText) ==> o == Outcome(s, [])
    ensures uid.Some? && !Text.IsBlank(userText) ==>
      o == Outcome(s.(ui := ChatUi(true, None)), [AddDoc(ChatPath(uid.value), MessagePayload(USER, Text.Trim(userText), now))])
  {
    if uid.None? then Outcome(s.(ui := s.ui.(error := Some(NOT_LOGGED_IN))), [])
    else if Text.IsBlank(userText) then Outcome(s, [])
    else Outcome(s.(ui := ChatUi(true, None)), [AddDoc(ChatPath(uid.value), MessagePayload(USER, Text.Trim(userText), now))])
  }

  /** How a message is sent to the model: the user's turns as "user", all others as "model". */
  function TurnOf(m: ChatMessage): (t: Turn)
    ensures t.text == m.content
    ensures t.role == USER <==> IsUser(m)
    ensures t.role == MODEL <==> !IsUser(m)
  {
    Turn(if IsUser(m) then USER else MODEL, m.content)
  }

  /** The conversation a request carries: the last eight messages, oldest first. */
  function RequestTurns(messages: seq<ChatMessage>): (r: seq<Turn>)
    ensures |r| == Lists.Min(REQUEST_WINDOW, |messages|)
    ensures forall i :: 0 <= i < |r| ==> r[i] == TurnOf(messages[|messages| - |r| + i])
  {
    var last := Lists.TakeLast(messages, REQUEST_WINDOW);
    assert forall i :: 0 <= i < |last| ==> last[i] == messages[|messages| - |last| + i];
    Lists.Map(last, TurnOf)
  }

  /**
   * The user's message was stored: the model is asked about the conversation
   * shown so far followed by the new text (as typed, not trimmed).
   */
  function OnUserMessageStored(s: State, userText: string, campusContext: string): (o: Outcome)
    ensures o.state == s
    ensures o.effects == [AskModel(RequestTurns(s.messages + [ChatMessage("", USER, userText, None)]), campusContext)]
  {
    Outcome(s, [AskModel(RequestTurns(s.messages + [ChatMessage("", USER, userText, None)]), campusContext)])
  }

  /** Every request ends with the user's new text, sent as a user turn. */
  lemma RequestEndsWithNewText(s: State, userText: string, campusContext: string)
    ensures var turns := OnUserMessageStored(s, userText, campusContext).effects[0].contents;
            |turns| > 0 && turns[|turns| - 1] == Turn(USER, userText)
            && |turns| <= REQUEST_WINDOW
  {
    var all := s.messages + [ChatMessage("", USER, userText, None)];
    var turns := RequestTurns(all);
    assert turns[|turns| - 1] == TurnOf(all[|all| - 1]);
  }

  /** The first part of the first candidate; `text` is "" when the part has none. */
  datatype Part = Part(text: string)

  /**
   * The `content.parts` array of a candidate: absent when the content or the
   * array is missing; an element is absent when it is not an object.
   */
  datatype Candidate = Candidate(parts: Option<seq<Option<Part>>>)

  /**
   * What the service's answer looks like once parsed.
   * `NotOk`: a status outside 200..299, with `error.message` when it could be read.
   * `Thrown`: the call or the parsing threw.
   * `Parsed`: a successful body; `candidates` is absent when the array is
   * missing, and a candidate is absent when it is not an object (reading it throws).
   */
  datatype ModelResponse =
    | NotOk(errorMessage: Option<string>)
    | Thrown
    | Parsed(candidates: Option<seq<Option<Candidate>>>)

  /** The first candidate's first text, when there is one. */
  function FirstText(c: Candidate): (t: Option<string>)
    ensures t.Some? <==> c.parts.Some? && |c.parts.value| > 0 && c.parts.value[0].Some?
    ensures t.Some? ==> t.value == c.parts.value[0].value.text
  {
    match c.parts
    case None => None
    case Some(ps) => if |ps| > 0 && ps[0].Some? then Some(ps[0].value.text) else None
  }

  /**
   * The reply stored for a response: the service's error, the fixed fallback
   * texts, or the trimmed first text.
   */
  function ReplyText(resp: ModelResponse): (r: string)
    ensures resp.NotOk? ==> r == UNREACHABLE + resp.errorMessage.GetOr(TRY_AGAIN)
    ensures resp.Thrown? ==> r == SOMETHING_WRONG
    ensures resp.Parsed? && (resp.candidates.None? || resp.candidates.value == []) ==> r == NO_RESPONSE
    ensures (resp.Parsed? && resp.candidates.Some? && resp.candidates.value != []
             && resp.candidates.value[0].None?) ==> r == SOMETHING_WRONG
    ensures (resp.Parsed? && resp.candidates.Some? && resp.candidates.value != []
             && resp.candidates.value[0].Some?) ==>
      var t := FirstText(resp.candidates.value[0].value);
      (t.None? || Text.IsBlank(t.value) ==> r == NO_RESPONSE) && (t.Some? && !Text.IsBlank(t.value) ==> r == Text.Trim(t.value))
  {
    match resp
    case NotOk(em) => UNREACHABLE + em.GetOr(TRY_AGAIN)
    case Thrown => SOMETHING_WRONG
    case Parsed(cs) =>
      if cs.None? || cs.value == [] then NO_RESPONSE
      else if cs.value[0].None? then SOMETHING_WRONG
      else
        var t := FirstText(cs.value[0].value);
        if t.None? || Text.IsBlank(t.value) then NO_RESPONSE else Text.Trim(t.value)
  }

  /** Whatever the service answers, the stored reply is never blank. */
  lemma ReplyNeverBlank(resp: ModelResponse)
    ensures !Text.IsBlank(ReplyText(resp))
  {
    var r := ReplyText(resp);
    if resp.Parsed? && resp.candidates.Some? && resp.candidates.value != [] && resp.candidates.value[0].Some? {
      var t := FirstText(resp.candidates.value[0].value);
      if t.Some? && !Text.IsBlank(t.value) {
        Text.NotBlankTrimNonEmpty(t.value);
        assert !Text.IsWhitespace(r[0]);
        return;
      }
    }
    if resp.NotOk? {
      assert r[0] == UNREACHABLE[0] == 'S';
    } else if r == NO_RESPONSE {
      assert r[0] == 'S';
    } else {
      assert r == SOMETHING_WRONG;
      assert r[0] == 'S';
    }
  }

  /** The reply is stored as the model's message. */
  function OnReply(s: State, uid: string, resp: ModelResponse, now: int): (o: Outcome)
    ensures o.state == s
    ensures o.effects == [AddDoc(ChatPath(uid), MessagePayload(MODEL, ReplyText(resp), now))]
  {
    Outcome(s, [AddDoc(ChatPath(uid), MessagePayload(MODEL, ReplyText(resp), now))])
  }

  /** A stored reply reads back as a non-user message holding the reply text. */
  lemma ReplyReadsBack(id: string, resp: ModelResponse, now: int)
    ensures var m := MessageOf(Added(id, MessagePayload(MODEL, ReplyText(resp), now)));
            !IsUser(m) && m.content == ReplyText(resp) && TurnOf(m).role == MODEL
  {
    MessageReadsBack(id, MODEL, ReplyText(resp), now);
  }

  /**
   * Any write of the exchange finished (the user's message failing, or the
   * reply stored or failing): loading ends, a failure shows its message.
   */
  function OnWriteDone(s: State, c: Completion): (r: State)
    ensures !r.ui.loading
    ensures c.Succeeded? ==> r.ui.error == s.ui.error
    ensures c.Failed? ==> r.ui.error == c.failure.message
    ensures r.(ui := s.ui) == s
  {
    match c
    case Succeeded => s.(ui := s.ui.(loading := false))
    case Failed(f) => s.(ui := ChatUi(false, f.message))
  }

  /** `clearChat`: the login check, then loading and a batch delete of the conversation. */
  function ClearChat(s: State, uid: Option<string>): (o: Outcome)
    ensures uid.None? ==> o == Outcome(s.(ui := s.ui.(error := Some(NOT_LOGGED_IN))), [])
    ensures uid.Some? ==> o == Outcome(s.(ui := ChatUi(true, None)), [DeleteAll(ChatPath(uid.value))])
  {
    if uid.None? then Outcome(s.(ui := s.ui.(error := Some(NOT_LOGGED_IN))), [])
    else Outcome(s.(ui := ChatUi(true, None)), [DeleteAll(ChatPath(uid.value))])
  }

  function ClearError(s: State): (r: State)
    ensures r.ui.error.None? && r.ui.loading == s.ui.loading
    ensures r.(ui := s.ui) == s
  {
    s.(ui := s.ui.(error := None))
  }

  function SetError(s: State, message: string): (r: State)
    ensures r.ui.error == Some(message) && r.ui.loading == s.ui.loading
    ensures r.(ui := s.ui) == s
  {
    s.(ui := s.ui.(error := Some(message)))
  }
}
