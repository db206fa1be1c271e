/** The chat page's session bookkeeping and send step
    (react_frontend/src/components/AIAssistant.jsx).

    `localStorage` holds the current session id under `ms_ai_current_session`,
    the session list under `ms_ai_sessions` and each session's messages under
    `ms_ai_messages_<id>`. The component holds its session id, the input box
    and the loading flag; the conversation it shows lives in a context whose
    `addMessage` appends and whose `setConversation` replaces.

    Each effect, tick or handler is one method run to completion; React's
    scheduling and the 600 ms polling are not modelled. The clock, the
    `toLocaleTimeString()` stamps and what the network returned are
    parameters. */
module AIAssistant {
  import opened Wrappers
  import opened Strings
  import BackendAuth

  const NewChatTitle := "New chat"
  const TitleLength := 40
  const DefaultModel := "amazon.nova-pro-v1:0"
  const Fallback :=
    "I'm sorry, I'm having trouble connecting right now. Please know that your feelings are valid and you're not alone."

  /** One entry of the session list. */
  datatype SessionEntry = SessionEntry(id: string, title: string, updatedAt: int)

  /** One conversation message; `model` is only set on a model's reply. */
  datatype ChatMessage = ChatMessage(role: string, text: string, timestamp: string, model: Option<string>)

  /** What a storage key holds once read: nothing (or the empty string), JSON
      of the expected shape, or text `JSON.parse` rejects. */
  datatype Slot<T> = Absent | Parsed(value: T) | Garbled

  /** `JSON.parse(localStorage.getItem(key) || '[]')` when it does not throw. */
  function ListOf<T>(slot: Slot<seq<T>>): seq<T>
    requires !slot.Garbled?
  {
    if slot.Parsed? then slot.value else []
  }

  /** `ai-${Date.now()}`. */
  function NewSessionId(now: int): (id: string)
    ensures "ai-" <= id && |id| > 3
  {
    "ai-" + DecimalString(now)
  }

  /** Ids made at different moments differ: the clock reading can be read
      back from the id. */
  lemma NewSessionIdsDiffer(now1: int, now2: int)
    ensures NewSessionId(now1) == NewSessionId(now2) <==> now1 == now2
  {
    if NewSessionId(now1) == NewSessionId(now2) {
      assert DecimalString(now1) == NewSessionId(now1)[3..];
      assert DecimalString(now2) == NewSessionId(now2)[3..];
      ParseIntOfDecimal(now1);
      ParseIntOfDecimal(now2);
    }
  }

  /** `messages.find(m => m.role === 'user')`, as the index found. */
  function FirstUser(messages: seq<ChatMessage>): (r: Option<nat>)
    ensures r.Some? ==> r.value < |messages| && messages[r.value].role == "user"
    ensures r.Some? ==> forall j :: 0 <= j < r.value ==> messages[j].role != "user"
    ensures r.None? ==> forall j :: 0 <= j < |messages| ==> messages[j].role != "user"
  {
    if messages == [] then None
    else if messages[0].role == "user" then Some(0)
    else
      match FirstUser(messages[1..])
      case None => None
      case Some(i) => Some(i + 1)
  }

  /** The session title computed by the persist effect: the first 40 characters of the first user message, or
      "New chat" when there is no user message or its text is empty. */
  function Title(messages: seq<ChatMessage>): (t: string)
    ensures t != [] && |t| <= TitleLength
    ensures FirstUser(messages).None? ==> t == NewChatTitle
    ensures FirstUser(messages).Some? ==>
      var text := messages[FirstUser(messages).value].text;
      if text == [] then t == NewChatTitle
      else t <= text && |t| == (if |text| < TitleLength then |text| else TitleLength)
  {
    match FirstUser(messages)
    case None => NewChatTitle
    case Some(i) =>
      var cut := Take(messages[i].text, TitleLength);
      if cut == [] then NewChatTitle else cut
  }

  /** Once the conversation has a user message, later messages do not change
      its first user message. */
  lemma {:induction false} FirstUserAppend(messages: seq<ChatMessage>, more: seq<ChatMessage>)
    requires FirstUser(messages).Some?
    ensures FirstUser(messages + more) == FirstUser(messages)
  {
    if messages[0].role != "user" {
      assert (messages + more)[1..] == messages[1..] + more;
      FirstUserAppend(messages[1..], more);
    }
  }

  /** ... so the session title stays fixed as the conversation grows. */
  lemma TitleStable(messages: seq<ChatMessage>, more: seq<ChatMessage>)
    requires FirstUser(messages).Some?
    ensures Title(messages + more) == Title(messages)
  {
    FirstUserAppend(messages, more);
    var i := FirstUser(messages).value;
    assert (messages + more)[i] == messages[i];
  }

  /** `sessions.filter(s => s.id !== id)`. */
  function WithoutSession(sessions: seq<SessionEntry>, id: string): (r: seq<SessionEntry>)
    ensures |r| <= |sessions|
    ensures forall k :: 0 <= k < |r| ==> r[k].id != id
    ensures forall e :: e in r <==> e in sessions && e.id != id
  {
    if sessions == [] then []
    else (if sessions[0].id == id then [] else [sessions[0]]) + WithoutSession(sessions[1..], id)
  }

  /** The filter keeps order: filtering a concatenation filters each side. */
  lemma {:induction false} WithoutSessionAppend(a: seq<SessionEntry>, b: seq<SessionEntry>, id: string)
    ensures WithoutSession(a + b, id) == WithoutSession(a, id) + WithoutSession(b, id)
  {
    if a == [] {
      assert a + b == b;
    } else {
      assert (a + b)[0] == a[0];
      assert (a + b)[1..] == a[1..] + b;
      WithoutSessionAppend(a[1..], b, id);
    }
  }

  /** A list without the id is left as it is. */
  lemma {:induction false} WithoutAbsentSession(sessions: seq<SessionEntry>, id: string)
    requires forall k :: 0 <= k < |sessions| ==> sessions[k].id != id
    ensures WithoutSession(sessions, id) == sessions
  {
    if sessions != [] {
      WithoutAbsentSession(sessions[1..], id);
    }
  }

  /** The new session list of the persist effect: the entry first, then the old list without any entry of its id. */
  function MoveToFront(sessions: seq<SessionEntry>, entry: SessionEntry): (r: seq<SessionEntry>)
    ensures |r| >= 1 && r[0] == entry
    ensures forall k :: 1 <= k < |r| ==> r[k].id != entry.id
    ensures forall e :: e in r <==> e == entry || (e in sessions && e.id != entry.id)
  {
    [entry] + WithoutSession(sessions, entry.id)
  }

  /** Every other session keeps its place relative to the rest. */
  lemma MoveToFrontKeepsOthers(sessions: seq<SessionEntry>, entry: SessionEntry)
    ensures MoveToFront(sessions, entry)[1..] == WithoutSession(sessions, entry.id)
    ensures WithoutSession(MoveToFront(sessions, entry), entry.id) == WithoutSession(sessions, entry.id)
  {
    var rest := WithoutSession(sessions, entry.id);
    assert MoveToFront(sessions, entry) == [entry] + rest;
    WithoutSessionAppend([entry], rest, entry.id);
    assert [entry][1..] == [];
    WithoutAbsentSession(rest, entry.id);
  }

  /** Persisting the same session again only replaces its entry. */
  lemma MoveToFrontTwice(sessions: seq<SessionEntry>, first: SessionEntry, second: SessionEntry)
    requires first.id == second.id
    ensures MoveToFront(MoveToFront(sessions, first), second) == MoveToFront(sessions, second)
  {
    MoveToFrontKeepsOthers(sessions, first);
  }

  /** A sent chat request: the auth token and the message body. */
  datatype ChatPost = ChatPost(token: string, message: string)

  /** The parsed body of a `/api/chat` reply; a field is `None` when missing.
      A `reply` or `model` that is not a string is outside the model. */
  datatype ChatJson = ChatJson(reply: Option<string>, model: Option<string>)

  /** What the `/api/chat` request produced: a rejected `fetch`, or a status
      and a body (`None` when it is not JSON). */
  datatype ChatResponse = ChatUnreachable | ChatReplied(status: int, body: Option<ChatJson>)

  /** Whether the token was obtained and the chat reply carries a non-empty
      `reply`: the one case where the model's text is shown. */
  predicate Answered(token: Result<string, string>, response: ChatResponse) {
    && token.Success? && response.ChatReplied? && BackendAuth.Ok(response.status)
    && response.body.Some? && Truthy(response.body.value.reply)
  }

  /** The one message `sendMessage` adds after the user's: the backend's
      reply, or the fallback text when anything on the way failed. */
  function AiMessage(token: Result<string, string>, response: ChatResponse, time: string): (m: ChatMessage)
    ensures m.role == "ai" && m.timestamp == time && m.text != []
    ensures Answered(token, response) ==>
      && m.text == response.body.value.reply.value
      && m.model == Some(if Truthy(response.body.value.model) then response.body.value.model.value else DefaultModel)
    ensures !Answered(token, response) ==> m == ChatMessage("ai", Fallback, time, None)
  {
    if Answered(token, response) then
      var json := response.body.value;
      ChatMessage("ai", json.reply.value, time, Some(if Truthy(json.model) then json.model.value else DefaultModel))
    else
      ChatMessage("ai", Fallback, time, None)
  }

  /** The model's reply is told from the fallback by its `model` field. */
  lemma FallbackIffNoAnswer(token: Result<string, string>, response: ChatResponse, time: string)
    ensures AiMessage(token, response, time).model.None? <==> !Answered(token, response)
    ensures AiMessage(token, response, time).model.Some? ==> AiMessage(token, response, time).model.value != []
  {
  }

  class Assistant {
    /** `ms_ai_current_session`. */
    var current: Option<string>
    /** `ms_ai_sessions`. */
    var sessions: Slot<seq<SessionEntry>>
    /** `ms_ai_messages_<id>`, by id. */
    var stored: map<string, Slot<seq<ChatMessage>>>

    var sessionId: Option<string>
    var messages: seq<ChatMessage>
    var inputText: string
    var isLoading: bool

    /** The component mounts over the given storage and conversation; its
        session id starts as the stored current id. */
    constructor(current: Option<string>, sessions: Slot<seq<SessionEntry>>,
                stored: map<string, Slot<seq<ChatMessage>>>, conversation: seq<ChatMessage>)
      ensures this.current == current && this.sessions == sessions && this.stored == stored
      ensures sessionId == current && messages == conversation && inputText == [] && !isLoading
    {
      this.current := current;
      this.sessions := sessions;
      this.stored := stored;
      sessionId := current;
      messages := conversation;
      inputText := [];
      isLoading := false;
    }

    /** What the messages key of session `id` holds. */
    function Stored(id: string): Slot<seq<ChatMessage>>
      reads this
    {
      if id in stored then stored[id] else Absent
    }

    /** `ensureSession`. Without a current id, a new one is
        stored and a "New chat" entry is put in front of the list; a session
        list that is not JSON throws there, after the id was written. Then the
        component takes the id and shows that session's stored messages,
        unless there are none or they do not parse. */
    method EnsureSession(now: int) returns (thrown: bool)
      modifies this
      ensures Truthy(old(current)) ==> !thrown && current == old(current) && sessions == old(sessions)
      ensures !Truthy(old(current)) ==> current == Some(NewSessionId(now)) && (thrown <==> old(sessions).Garbled?)
      ensures !Truthy(old(current)) && !thrown ==>
        sessions == Parsed([SessionEntry(NewSessionId(now), NewChatTitle, now)] + ListOf(old(sessions)))
      ensures thrown ==> sessions == old(sessions) && sessionId == old(sessionId) && messages == old(messages)
      ensures !thrown ==> sessionId == current
      ensures !thrown && Stored(current.value).Parsed? && Stored(current.value).value != [] ==>
        messages == Stored(current.value).value
      ensures !thrown && !(Stored(current.value).Parsed? && Stored(current.value).value != []) ==>
        messages == old(messages)
      ensures stored == old(stored) && inputText == old(inputText) && isLoading == old(isLoading)
    {
      var id := current;
      if !Truthy(id) {
        id := Some(NewSessionId(now));
        current := id;
        if sessions.Garbled? {
          return true;
        }
        sessions := Parsed([SessionEntry(id.value, NewChatTitle, now)] + ListOf(sessions));
      }
      sessionId := id;
      var raw := Stored(id.value);
      if raw.Parsed? && |raw.value| > 0 {
        messages := raw.value;
      }
      thrown := false;
    }

    /** The persist effect, run whenever the messages or the session change. With a session id, the conversation
        is stored under it and its entry, titled from the conversation, moves
        to the front of the list; a session list that is not JSON stops the
        step after the first write. */
    method Persist(now: int)
      modifies this
      ensures !Truthy(old(sessionId)) ==> stored == old(stored) && sessions == old(sessions)
      ensures Truthy(old(sessionId)) ==> stored == old(stored)[old(sessionId).value := Parsed(old(messages))]
      ensures Truthy(old(sessionId)) && old(sessions).Garbled? ==> sessions == old(sessions)
      ensures Truthy(old(sessionId)) && !old(sessions).Garbled? ==>
        sessions == Parsed(MoveToFront(ListOf(old(sessions)), SessionEntry(old(sessionId).value, Title(old(messages)), now)))
      ensures current == old(current) && sessionId == old(sessionId) && messages == old(messages)
      ensures inputText == old(inputText) && isLoading == old(isLoading)
    {
      if !Truthy(sessionId) {
        return;
      }
      var id := sessionId.value;
      stored := stored[id := Parsed(messages)];
      if sessions.Garbled? {
        return;
      }
      var title := Title(messages);
      sessions := Parsed(MoveToFront(ListOf(sessions), SessionEntry(id, title, now)));
    }

    /** The "New" button's handler: a new current id and a "New chat"
        entry in front of the whole list, and an empty conversation; a
        session list that is not JSON throws after the id was written. The
        component's own session id is left to the next switch tick. */
    method NewChat(now: int) returns (thrown: bool)
      modifies this
      ensures current == Some(NewSessionId(now))
      ensures thrown <==> old(sessions).Garbled?
      ensures thrown ==> sessions == old(sessions) && messages == old(messages)
      ensures !thrown ==>
        sessions == Parsed([SessionEntry(NewSessionId(now), NewChatTitle, now)] + ListOf(old(sessions)))
        && messages == []
      ensures stored == old(stored) && sessionId == old(sessionId)
      ensures inputText == old(inputText) && isLoading == old(isLoading)
    {
      var id := NewSessionId(now);
      current := Some(id);
      if sessions.Garbled? {
        return true;
      }
      sessions := Parsed([SessionEntry(id, NewChatTitle, now)] + ListOf(sessions));
      messages := [];
      thrown := false;
    }

    /** One tick of the external-switch poll: when the stored
        current id is set and differs from the component's, the component
        switches to it and shows its stored messages, or none when they are
        missing or do not parse. */
    method SwitchTick()
      modifies this
      ensures Truthy(old(current)) && old(current) != old(sessionId) ==>
        sessionId == old(current)
        && messages == (if Stored(old(current).value).Parsed? then Stored(old(current).value).value else [])
      ensures !(Truthy(old(current)) && old(current) != old(sessionId)) ==>
        sessionId == old(sessionId) && messages == old(messages)
      ensures current == old(current) && sessions == old(sessions) && stored == old(stored)
      ensures inputText == old(inputText) && isLoading == old(isLoading)
    {
      var externalId := current;
      if Truthy(externalId) && externalId != sessionId {
        sessionId := externalId;
        var raw := Stored(externalId.value);
        if raw.Parsed? {
          messages := raw.value;
        } else {
          messages := [];
        }
      }
    }

    /** `sendMessage`. Input that is blank after trimming does
        nothing. Otherwise the untrimmed input is added as the user's message,
        then exactly one more message: the model's reply, or the fallback.
        The input is cleared and loading ends. */
    method SendMessage(cache: BackendAuth.TokenCache, checkedAt: int, storedAt: int,
                       guest: BackendAuth.GuestReply, response: ChatResponse,
                       userTime: string, aiTime: string)
      returns (posted: Option<ChatPost>)
      modifies this, cache
      ensures IsBlank(Some(old(inputText))) ==> posted == None && unchanged(this) && unchanged(cache)
      ensures !IsBlank(Some(old(inputText))) ==>
        var token := BackendAuth.TokenOutcome(old(cache.token), old(cache.expiry), checkedAt, guest);
        && messages == old(messages) + [ChatMessage("user", old(inputText), userTime, None), AiMessage(token, response, aiTime)]
        && posted == (if token.Success? then Some(ChatPost(token.value, old(inputText))) else None)
        && inputText == [] && !isLoading
        && CacheAfter(cache, old(cache.token), old(cache.expiry), checkedAt, storedAt, guest)
      ensures current == old(current) && sessions == old(sessions) && stored == old(stored)
      ensures sessionId == old(sessionId)
    {
      if IsBlank(Some(inputText)) {
        return None;
      }
      var text := inputText;
      messages := messages + [ChatMessage("user", text, userTime, None)];
      inputText := [];
      isLoading := true;
      var reply;
      posted, reply := Exchange(cache, checkedAt, storedAt, guest, response, text, aiTime);
      messages := messages + [reply];
      isLoading := false;
    }
  }

  /** The token cache after one `getBackendToken` call made at `checkedAt`
      over the keys `token` and `expiry`: untouched on a hit or a failure,
      otherwise holding the new token until `storedAt` plus 50 minutes. */
  predicate CacheAfter(cache: BackendAuth.TokenCache, token: Option<string>, expiry: Option<string>,
                       checkedAt: int, storedAt: int, guest: BackendAuth.GuestReply)
    reads cache
  {
    var outcome := BackendAuth.TokenOutcome(token, expiry, checkedAt, guest);
    if BackendAuth.Fresh(token, expiry, checkedAt) || outcome.Failure? then
      cache.token == token && cache.expiry == expiry
    else
      cache.token == Some(outcome.value) && cache.expiry == Some(DecimalString(storedAt + BackendAuth.CacheMillis))
  }

  /** The `try` block of `sendMessage` and its `catch`: a token is obtained, the
      chat request goes out when there is one, and the message to add is the
      model's reply or the fallback. */
  method Exchange(cache: BackendAuth.TokenCache, checkedAt: int, storedAt: int,
                  guest: BackendAuth.GuestReply, response: ChatResponse, text: string, aiTime: string)
    returns (posted: Option<ChatPost>, reply: ChatMessage)
    modifies cache
    ensures var token := BackendAuth.TokenOutcome(old(cache.token), old(cache.expiry), checkedAt, guest);
      && reply == AiMessage(token, response, aiTime)
      && posted == (if token.Success? then Some(ChatPost(token.value, text)) else None)
    ensures CacheAfter(cache, old(cache.token), old(cache.expiry), checkedAt, storedAt, guest)
  {
    var token, _ := cache.GetBackendToken(checkedAt, storedAt, guest);
    posted := if token.Success? then Some(ChatPost(token.value, text)) else None;
    reply := AiMessage(token, response, aiTime);
  }
}
