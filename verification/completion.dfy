/** The completion client, `get_model_response`: build the request payload from the
    transcript, post it to the inference server, and turn whatever comes back into
    one reply string.

    The network round trip (the POST with its 120 s timeout, `raise_for_status` and
    `response.json()`) is the parameter `post`, which maps the payload to an
    `Outcome`: a `Failure` stands for any `requests` exception, a bad HTTP status or a
    body that does not decode as JSON, with the exception's text as its detail. */
module Completion {
  import opened Optional
  import opened PyStr
  import opened PyJson
  import opened Transcript

  const MODEL_IDENTIFIER: string := "local-model"

  const INVALID_RESPONSE: string := "Error: Received an invalid response from the model."
  const INVALID_FORMAT: string := "Error: Invalid response format from the API."
  const CONNECT_ERROR: string := "Error: Could not connect to the LM Studio server."
  const CONNECT_PREFIX: string := CONNECT_ERROR + " Details: "

  datatype Outcome = Failure(detail: string) | Ok(body: Json)

  /** The request body `{"model": ..., "messages": [...]}`: the server is told the
      configured model and receives every transcript entry, in order, each of which
      it reads back unchanged. */
  function Payload(history: seq<Message>): (p: Json)
    ensures p.JObj? && p.fields.Keys == {"model", "messages"}
    ensures p.fields["model"] == JStr(MODEL_IDENTIFIER)
    ensures p.fields["messages"].JArr? && |p.fields["messages"].items| == |history|
    ensures forall i :: 0 <= i < |history| ==> FromJson(p.fields["messages"].items[i]) == Some(history[i])
  {
    var messages := seq(|history|, i requires 0 <= i < |history| => ToJson(history[i]));
    assert forall i :: 0 <= i < |history| ==> FromJson(messages[i]) == Some(history[i]) by {
      forall i | 0 <= i < |history| {
        RoundTrip(history[i]);
      }
    }
    JObj(map["model" := JStr(MODEL_IDENTIFIER), "messages" := JArr(messages)])
  }

  /** The reference shape `{"choices": [{"message": {"content": <str>}, ...}, ...], ...}`
      and the content it carries. */
  function ContentOf(body: Json): Option<string> {
    if && body.JObj? && "choices" in body.fields
       && body.fields["choices"].JArr? && body.fields["choices"].items != []
    then
      var first := body.fields["choices"].items[0];
      if && first.JObj? && "message" in first.fields
         && first.fields["message"].JObj? && "content" in first.fields["message"].fields
         && first.fields["message"].fields["content"].JStr?
      then Some(first.fields["message"].fields["content"].s)
      else None
    else None
  }

  /** The shape checks on the decoded body, with Python's semantics for every kind
      of value: `'choices' in body and len(body['choices']) > 0`, then
      `body['choices'][0]['message']['content'].strip()`. */
  function ChoicesReply(body: Json): Py<string> {
    var present :- In("choices", body);
    if !present then Return(INVALID_RESPONSE)
    else
      var choices :- GetItem(body, "choices");
      var n :- Len(choices);
      if n == 0 then Return(INVALID_RESPONSE)
      else
        var first :- First(choices);
        var message :- GetItem(first, "message");
        var content :- GetItem(message, "content");
        StripMethod(content)
  }

  /** `get_model_response` as written: a connection failure and a `KeyError` become
      reply strings; every other exception from the shape checks escapes. */
  function GetModelResponseAsWritten(history: seq<Message>, post: Json -> Outcome): (r: Py<string>)
    ensures r.Raise? ==> post(Payload(history)).Ok? && (r.exc == TypeError || r.exc == AttributeError)
  {
    match post(Payload(history))
    case Failure(detail) => Return(CONNECT_PREFIX + detail)
    case Ok(body) =>
      match ChoicesReply(body)
      case Raise(KeyError) => Return(INVALID_FORMAT)
      case r => r
  }

  /** `get_model_response` with the evidently intended failure policy: every body on
      which the code as written raises `TypeError` or `AttributeError` gets the fixed
      "invalid format" reply, as a `KeyError` already does, so the function always
      returns a string. */
  function GetModelResponse(history: seq<Message>, post: Json -> Outcome): (r: string)
    ensures post(Payload(history)).Failure? ==> r == CONNECT_PREFIX + post(Payload(history)).detail
    ensures post(Payload(history)).Ok? ==>
      match ContentOf(post(Payload(history)).body)
      case Some(content) => r == Strip(content)
      case None => r == INVALID_RESPONSE || r == INVALID_FORMAT
    ensures GetModelResponseAsWritten(history, post).Return? ==> r == GetModelResponseAsWritten(history, post).value
    ensures GetModelResponseAsWritten(history, post).Raise? ==> r == INVALID_FORMAT
  {
    match post(Payload(history))
    case Failure(detail) => CONNECT_PREFIX + detail
    case Ok(body) =>
      ChoicesReplyFollowsShape(body);
      match ChoicesReply(body)
      case Return(reply) => reply
      case Raise(_) => INVALID_FORMAT
  }

  /** The shape checks succeed with the stripped content exactly on bodies of the
      reference shape; on every other body they give "invalid response" or raise. */
  lemma ChoicesReplyFollowsShape(body: Json)
    ensures ContentOf(body).Some? ==> ChoicesReply(body) == Return(Strip(ContentOf(body).value))
    ensures ContentOf(body).None? ==> ChoicesReply(body) == Return(INVALID_RESPONSE) || ChoicesReply(body).Raise?
  {
    if body.JObj? && "choices" in body.fields {
      var choices := body.fields["choices"];
      if choices.JArr? && choices.items != [] {
        var first := choices.items[0];
        assert First(choices) == Return(first);
        if first.JObj? && "message" in first.fields {
          var message := first.fields["message"];
          if message.JObj? && "content" in message.fields {
            assert ChoicesReply(body) == StripMethod(message.fields["content"]);
          }
        }
      }
    }
  }

  /** A well-formed body yields its content with the surrounding whitespace removed:
      the stub reply `" hi there "` becomes `"hi there"`. */
  lemma TrimmedContentExample(history: seq<Message>, post: Json -> Outcome)
    requires post(Payload(history)) ==
      Ok(JObj(map["choices" := JArr([JObj(map["message" := JObj(map["content" := JStr(" hi there ")])])])]))
    ensures GetModelResponse(history, post) == "hi there"
  {
    StripExample();
  }

  /** A body for which `'choices' in body` is false (a dict without the key, a list
      without the str, a str without the substring), or a dict whose `choices` has
      length 0, yields exactly the fixed "invalid response" reply, as written and as
      corrected alike. */
  lemma NoChoicesIsInvalidResponse(history: seq<Message>, post: Json -> Outcome)
    requires post(Payload(history)).Ok?
    requires var body := post(Payload(history)).body;
      || In("choices", body) == Return(false)
      || (body.JObj? && "choices" in body.fields && Len(body.fields["choices"]) == Return(0))
    ensures GetModelResponseAsWritten(history, post) == Return(INVALID_RESPONSE)
    ensures GetModelResponse(history, post) == INVALID_RESPONSE
  {
  }

  /** When the first choice is a dict without `message`, or its `message` is a dict
      without `content`, the `KeyError` is caught and the reply is exactly the fixed
      "invalid format" string. */
  lemma MissingKeyIsInvalidFormat(history: seq<Message>, post: Json -> Outcome, first: Json, rest: seq<Json>, others: map<string, Json>)
    requires post(Payload(history)) == Ok(JObj(others["choices" := JArr([first] + rest)]))
    requires first.JObj?
    requires "message" !in first.fields
      || (first.fields["message"].JObj? && "content" !in first.fields["message"].fields)
    ensures GetModelResponseAsWritten(history, post) == Return(INVALID_FORMAT)
    ensures GetModelResponse(history, post) == INVALID_FORMAT
  {
    assert ([first] + rest)[0] == first;
  }

  /** A failed round trip (no connection, a bad HTTP status, an undecodable body)
      yields a reply that starts with the fixed "could not connect" sentence. */
  lemma FailureIsConnectError(history: seq<Message>, post: Json -> Outcome)
    requires post(Payload(history)).Failure?
    ensures CONNECT_ERROR <= GetModelResponse(history, post)
    ensures GetModelResponseAsWritten(history, post).Return?
  {
    var r := GetModelResponse(history, post);
    assert r == CONNECT_ERROR + (" Details: " + post(Payload(history)).detail);
    assert r[..|CONNECT_ERROR|] == CONNECT_ERROR;
  }

  /** The body `{}` yields the "invalid response" reply. */
  lemma EmptyBodyIsInvalidResponse(history: seq<Message>, post: Json -> Outcome)
    requires post(Payload(history)) == Ok(JObj(map[]))
    ensures GetModelResponse(history, post) == INVALID_RESPONSE
  {
  }

  /** As written, a body whose content is `null` makes `.strip()` raise an
      `AttributeError` that no `except` clause catches; the corrected function
      answers with the "invalid format" reply instead. */
  lemma NullContentEscapes(history: seq<Message>, post: Json -> Outcome)
    requires post(Payload(history)) ==
      Ok(JObj(map["choices" := JArr([JObj(map["message" := JObj(map["content" := JNull])])])]))
    ensures GetModelResponseAsWritten(history, post) == Raise(AttributeError)
    ensures GetModelResponse(history, post) == INVALID_FORMAT
  {
  }

  /** As written, a list of choices given as a str (`{"choices": "x"}`) makes
      `'x'['message']` raise a `TypeError` that escapes as well. */
  lemma StrChoicesEscape(history: seq<Message>, post: Json -> Outcome)
    requires post(Payload(history)) == Ok(JObj(map["choices" := JStr("x")]))
    ensures GetModelResponseAsWritten(history, post) == Raise(TypeError)
    ensures GetModelResponse(history, post) == INVALID_FORMAT
  {
  }
}
