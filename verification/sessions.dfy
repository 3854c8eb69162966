/** The session store and the two request handlers that touch it: opening the chat
    page (`index`) seeds a session's transcript with the system prompt, and posting a
    message (`chat`) appends the user's message and the model's reply.

    The host's cookie-backed session is a map from session identity to that
    session's transcript; routing, JSON (de)serialisation of the request and the
    rendered page are not part of the model. */
module Sessions {
  import opened PyJson
  import opened Transcript
  import opened Completion

  type SessionId = string
  type Histories = map<SessionId, seq<Message>>

  const NO_MESSAGE: string := "No message provided"

  /** The two answers of the chat endpoint: status 400 with `{"error": ...}`, or
      `{"response": ...}`. */
  datatype ChatResponse = BadRequest(error: string) | Replied(response: string)

  /** The sessions after a chat request, and what the request answered. */
  datatype Turn = Turn(histories: Histories, response: ChatResponse)

  /** `session.get('chat_history', [])`. */
  function HistoryOf(m: Histories, sid: SessionId): seq<Message> {
    if sid in m then m[sid] else []
  }

  /** Opening the chat page: a session without a transcript gets one holding just
      the system prompt; every existing transcript, this session's included, is
      left as it was. */
  function AfterIndex(m: Histories, sid: SessionId): (r: Histories)
    ensures r.Keys == m.Keys + {sid}
    ensures sid !in m ==> r[sid] == [SystemMessage]
    ensures forall other :: other in m ==> r[other] == m[other]
  {
    if sid in m then m else m[sid := [SystemMessage]]
  }

  /** Posting `message` (the value of the request's `"message"` field, `JNull` when
      it is absent). A falsy message is refused with status 400 and changes nothing.
      Otherwise the session's transcript (empty if the page was never opened) grows
      by exactly two entries: the user's message, then the assistant entry holding
      the reply, which the model computed from the transcript ending in that user
      message and which is also the answer. Every other session is unchanged. */
  function ChatTurn(m: Histories, sid: SessionId, message: Json, post: Json -> Outcome): (t: Turn)
    ensures t.response.BadRequest? <==> !Truthy(message)
    ensures !Truthy(message) ==> t == Turn(m, BadRequest(NO_MESSAGE))
    ensures Truthy(message) ==>
      var h, h' := HistoryOf(m, sid), HistoryOf(t.histories, sid);
      && t.histories.Keys == m.Keys + {sid}
      && (forall other :: other in m && other != sid ==> t.histories[other] == m[other])
      && |h'| == |h| + 2
      && h'[..|h|] == h
      && h'[|h|] == Message(User, message)
      && h'[|h| + 1] == Message(Assistant, JStr(t.response.response))
      && t.response.response == GetModelResponse(h + [Message(User, message)], post)
  {
    if !Truthy(message) then Turn(m, BadRequest(NO_MESSAGE))
    else
      var sent := HistoryOf(m, sid) + [Message(User, message)];
      var reply := GetModelResponse(sent, post);
      Turn(m[sid := sent + [Message(Assistant, JStr(reply))]], Replied(reply))
  }

  /** One request of either kind, as it reaches the store. */
  datatype Request =
    | Visit(sid: SessionId)
    | Send(sid: SessionId, message: Json, post: Json -> Outcome)

  function Step(m: Histories, req: Request): Histories {
    match req
    case Visit(sid) => AfterIndex(m, sid)
    case Send(sid, message, post) => ChatTurn(m, sid, message, post).histories
  }

  /** The sessions after serving `reqs` one after another. */
  function Run(m: Histories, reqs: seq<Request>): Histories
    decreases |reqs|
  {
    if reqs == [] then m else Run(Step(m, reqs[0]), reqs[1..])
  }

  /** From entry `k` on, the transcript is complete user/assistant exchanges:
      a user entry at every even offset, an assistant entry at every odd one. */
  predicate PairedFrom(h: seq<Message>, k: nat) {
    && k <= |h|
    && (|h| - k) % 2 == 0
    && forall i :: k <= i < |h| ==> h[i].role == (if (i - k) % 2 == 0 then User else Assistant)
  }

  /** The two shapes a transcript can have: opened by the chat page (the system
      prompt, then exchanges), or started by a chat request alone (exchanges only). */
  predicate WellFormed(h: seq<Message>) {
    || (h != [] && h[0] == SystemMessage && PairedFrom(h, 1))
    || PairedFrom(h, 0)
  }

  /** Appending one exchange keeps the exchanges complete. */
  lemma AppendExchange(h: seq<Message>, k: nat, u: Message, a: Message)
    requires PairedFrom(h, k)
    requires u.role == User && a.role == Assistant
    ensures PairedFrom(h + [u, a], k)
  {
    var h' := h + [u, a];
    forall i | k <= i < |h'|
      ensures h'[i].role == (if (i - k) % 2 == 0 then User else Assistant)
    {
      if i == |h| {
        assert h'[i] == u;
      } else if i == |h| + 1 {
        assert h'[i] == a;
      } else {
        assert h'[i] == h[i];
      }
    }
  }

  /** Every request keeps every session's transcript well formed. */
  lemma StepKeepsWellFormed(m: Histories, req: Request, sid: SessionId)
    requires WellFormed(HistoryOf(m, sid))
    ensures WellFormed(HistoryOf(Step(m, req), sid))
  {
    match req
    case Visit(_) =>
    case Send(s, message, post) =>
      if s == sid && Truthy(message) {
        var h := HistoryOf(m, sid);
        var reply := GetModelResponse(h + [Message(User, message)], post);
        var u, a := Message(User, message), Message(Assistant, JStr(reply));
        assert HistoryOf(Step(m, req), sid) == h + [u, a];
        if h != [] && h[0] == SystemMessage && PairedFrom(h, 1) {
          AppendExchange(h, 1, u, a);
        } else {
          AppendExchange(h, 0, u, a);
        }
      }
  }

  /** Any sequence of requests keeps a session's transcript well formed; a session
      never seen before starts from the empty transcript, which is well formed. */
  lemma {:induction false} RunKeepsWellFormed(m: Histories, reqs: seq<Request>, sid: SessionId)
    requires WellFormed(HistoryOf(m, sid))
    ensures WellFormed(HistoryOf(Run(m, reqs), sid))
    decreases |reqs|
  {
    if reqs != [] {
      StepKeepsWellFormed(m, reqs[0], sid);
      RunKeepsWellFormed(Step(m, reqs[0]), reqs[1..], sid);
    }
  }

  /** A transcript is only ever extended: what a session held before any sequence
      of requests is a prefix of what it holds after them. */
  lemma {:induction false} HistoryOnlyGrows(m: Histories, reqs: seq<Request>, sid: SessionId)
    ensures HistoryOf(m, sid) <= HistoryOf(Run(m, reqs), sid)
    decreases |reqs|
  {
    if reqs != [] {
      var m' := Step(m, reqs[0]);
      assert HistoryOf(m, sid) <= HistoryOf(m', sid) by {
        match reqs[0]
        case Visit(_) =>
        case Send(s, message, post) =>
          if s == sid && Truthy(message) {
            var h := HistoryOf(m, sid);
            assert HistoryOf(m', sid)[..|h|] == h;
          }
      }
      HistoryOnlyGrows(m', reqs[1..], sid);
    }
  }

  /** Once the chat page has been opened for a new session, whatever requests
      follow, its transcript starts with the system prompt and holds no other
      system entry. */
  lemma SystemPromptStaysFirst(m: Histories, sid: SessionId, reqs: seq<Request>)
    requires sid !in m
    ensures var h := HistoryOf(Run(m, [Visit(sid)] + reqs), sid);
      && h != [] && h[0] == SystemMessage
      && forall i :: 1 <= i < |h| ==> h[i].role != System
  {
    var m1 := AfterIndex(m, sid);
    assert ([Visit(sid)] + reqs)[1..] == reqs;
    assert Run(m, [Visit(sid)] + reqs) == Run(m1, reqs);
    assert PairedFrom(HistoryOf(m1, sid), 1);
    HistoryOnlyGrows(m1, reqs, sid);
    RunKeepsWellFormed(m1, reqs, sid);
    var h := HistoryOf(Run(m1, reqs), sid);
    assert h[0] == SystemMessage;
  }

  /** Without the chat page, the first chat request of a session leaves a transcript
      of exactly two entries, the user's message first; from then on the transcript
      keeps starting with that message, so it never starts with the system prompt. */
  lemma UserFirstWithoutIndex(m: Histories, sid: SessionId, message: Json, post: Json -> Outcome, reqs: seq<Request>)
    requires sid !in m && Truthy(message)
    ensures var h := HistoryOf(Step(m, Send(sid, message, post)), sid);
      |h| == 2 && h[0] == Message(User, message) && h[1].role == Assistant
    ensures var h := HistoryOf(Run(m, [Send(sid, message, post)] + reqs), sid);
      h != [] && h[0] == Message(User, message) && h[0] != SystemMessage
  {
    var m1 := Step(m, Send(sid, message, post));
    assert ([Send(sid, message, post)] + reqs)[1..] == reqs;
    assert Run(m, [Send(sid, message, post)] + reqs) == Run(m1, reqs);
    HistoryOnlyGrows(m1, reqs, sid);
  }

  /** A chat request keeps all transcripts well formed at once. */
  lemma ChatKeepsValid(m: Histories, sid: SessionId, message: Json, post: Json -> Outcome)
    requires forall s :: s in m ==> WellFormed(m[s])
    ensures var m' := ChatTurn(m, sid, message, post).histories;
      forall s :: s in m' ==> WellFormed(m'[s])
  {
    var m' := ChatTurn(m, sid, message, post).histories;
    forall s | s in m'
      ensures WellFormed(m'[s])
    {
      StepKeepsWellFormed(m, Send(sid, message, post), s);
    }
  }

  /** The store behind the host's session cookie: every session's transcript,
      updated in place by the two handlers. */
  class SessionStore {
    var histories: Histories

    /** Every transcript has one of the two shapes the handlers can produce. */
    ghost predicate Valid()
      reads this
    {
      forall sid :: sid in histories ==> WellFormed(histories[sid])
    }

    constructor ()
      ensures Valid() && histories == map[]
    {
      histories := map[];
    }

    /** The `index` handler's effect on the session. */
    method Index(sid: SessionId)
      requires Valid()
      modifies this
      ensures Valid()
      ensures histories == AfterIndex(old(histories), sid)
    {
      if sid !in histories {
        histories := histories[sid := [SystemMessage]];
        assert PairedFrom([SystemMessage], 1);
      }
    }

    /** The `chat` handler: refuse a falsy message; otherwise read the transcript,
      append the user's message, ask the model, append its reply and store the
      transcript back. */
    method Chat(sid: SessionId, message: Json, post: Json -> Outcome) returns (response: ChatResponse)
      requires Valid()
      modifies this
      ensures Valid()
      ensures Turn(histories, response) == ChatTurn(old(histories), sid, message, post)
    {
      if !Truthy(message) {
        return BadRequest(NO_MESSAGE);
      }
      var history := HistoryOf(histories, sid);
      history := history + [Message(User, message)];
      var reply := GetModelResponse(history, post);
      history := history + [Message(Assistant, JStr(reply))];
      ChatKeepsValid(histories, sid, message, post);
      histories := histories[sid := history];
      response := Replied(reply);
    }
  }
}
