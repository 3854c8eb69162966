# LM Studio chat relay — a Dafny model of its core

The relay is a small Flask application. It keeps one chat transcript per browser session, forwards the transcript to a local LM Studio inference server, and returns the model's reply. This project models and proves its two precise pieces:

- **Transcript bookkeeping** (`sessions.dfy`, module `Sessions`). The `index` handler seeds a session that has no transcript with the system prompt. The `chat` handler refuses a falsy message with status 400. Otherwise it appends the user's message, asks the model, appends the reply as an assistant entry, stores the transcript back and answers with the reply.
  - The session store is a class, `SessionStore`, whose field is a map from session identity to transcript. Its methods `Index` and `Chat` update it in place.
  - The pure functions `AfterIndex` and `ChatTurn` specify those methods.
  - `Run` serves a sequence of requests. It carries the lemmas about transcripts across many requests.
- **Reply extraction** (`completion.dfy`, module `Completion`). `get_model_response` builds the payload (the model identifier and the messages; the fixed temperature is left out) and posts it. It then turns the outcome into one reply string:
  - the stripped `choices[0].message.content`;
  - the fixed "invalid response" string;
  - the fixed "invalid format" string;
  - the "could not connect" sentence followed by the error's text.
  - The network round trip is the parameter `post: Json -> Outcome`, with `Outcome = Failure(detail) | Ok(body)`.
  - The body's shape checks follow Python's semantics for every kind of JSON value (`pyjson.dfy`: `in`, `[...]`, `len`, `[0]`, `.strip()` and the exception each raises).
  - `str.strip()` is `PyStr.Strip` (`pystr.dfy`), over Python's whitespace set.

Supporting modules: `Optional` (`option.dfy`), and `Transcript` (`transcript.dfy`), which holds roles, messages, the system prompt and a message's dict form.

Where the relay's intended behaviour and its code differ, the model follows the code:

- One might expect every transcript to begin with the system prompt. The code only ensures this once the chat page has been opened. A chat request on a fresh session starts the transcript with the user's message (`app.py:70`). See `SystemPromptStaysFirst` and `UserFirstWithoutIndex`.
- A malformed response does not get a single fixed string. The code has two:
  - "invalid response" when `choices` is missing or empty;
  - "invalid format" on a `KeyError`.
- The completion client is meant never to raise. The code does raise on some inputs; see Findings.

## Model

| member | source | states |
|---|---|---|
| PyStr.Strip | app.py:45 | `.strip()`: the input is leading whitespace, then the result, then trailing whitespace, and the result neither starts nor ends with whitespace |
| PyStr.StripUnique | app.py:45 | whenever a string is whitespace + an unpadded core + whitespace, strip returns exactly that core (with `Strip`'s contract, a full characterisation) |
| PyStr.StripIdempotent | app.py:45 | stripping an already stripped reply changes nothing |
| PyStr.StripExample | app.py:45 | `" hi there "` strips to `"hi there"` |
| Transcript.RoundTrip | app.py:71 | a message written as `{"role", "content"}` reads back as the same role and content |
| Completion.Payload | app.py:31-36 | the request body has exactly the keys `model` and `messages`; `model` is `"local-model"`; `messages` holds every transcript entry in order, each reading back unchanged |
| Completion.GetModelResponseAsWritten | app.py:27-52 | as written, the only exceptions that can escape are `TypeError` and `AttributeError`, and only when the round trip succeeded |
| Completion.GetModelResponse | app.py:27-52 | corrected: a failed round trip gives the connect sentence plus the detail; a body of the expected shape gives its content stripped; any other body gives "invalid response" or "invalid format"; wherever the code as written returns a string, this returns the same string, and every body on which the code as written raises `TypeError` or `AttributeError` gets the "invalid format" reply |
| Completion.ChoicesReplyFollowsShape | app.py:43-47 | the shape checks give the stripped content exactly on bodies of the form `{"choices": [{"message": {"content": <str>}}]}`; on every other body they give "invalid response" or raise |
| Completion.TrimmedContentExample | app.py:43-45 | the stub body with content `" hi there "` yields `"hi there"` |
| Completion.NoChoicesIsInvalidResponse | app.py:43-47 | a body for which `'choices' in body` is false (a dict without the key, a list or str without it), or a dict whose `choices` has length 0, yields exactly "Error: Received an invalid response from the model.", both as written and corrected |
| Completion.EmptyBodyIsInvalidResponse | app.py:43-47 | the body `{}` yields the "invalid response" string |
| Completion.MissingKeyIsInvalidFormat | app.py:44-52 | a first choice without `message`, or a `message` without `content`, yields exactly "Error: Invalid response format from the API.", both as written and corrected |
| Completion.FailureIsConnectError | app.py:38-50 | a failed round trip yields a string starting with "Error: Could not connect to the LM Studio server." and never raises |
| Completion.NullContentEscapes | app.py:43-52 | as written, content `null` raises `AttributeError` out of the function; corrected, it yields "invalid format" |
| Completion.StrChoicesEscape | app.py:43-52 | as written, `{"choices": "x"}` raises `TypeError` out of the function; corrected, it yields "invalid format" |
| Sessions.AfterIndex | app.py:58-59 | a session without a transcript gets exactly `[system prompt]`; every existing transcript, this session's included, is unchanged |
| Sessions.ChatTurn | app.py:65-79 | a falsy message answers 400 "No message provided" and changes no session. Otherwise the transcript is the old one (empty when never opened) plus the user entry and then the assistant entry. The reply comes from the model called on the transcript ending in the user entry, and the answer is the stored assistant content. Other sessions are unchanged |
| Sessions.StepKeepsWellFormed | app.py:58-77 | each request keeps a transcript in one of two shapes: the system prompt and then user/assistant pairs, or user/assistant pairs only |
| Sessions.RunKeepsWellFormed | app.py:58-77 | any sequence of requests keeps that shape, by induction on the sequence |
| Sessions.HistoryOnlyGrows | app.py:58-77 | any sequence of requests only extends a session's transcript (the old one is a prefix of the new one) |
| Sessions.SystemPromptStaysFirst | app.py:58-77 | after `index` on a new session, whatever requests follow, the transcript starts with the system prompt and holds no other system entry |
| Sessions.UserFirstWithoutIndex | app.py:70-77 | without `index`, the first chat makes a transcript of length 2 that starts with the user's message; it keeps starting with that message afterwards |
| Sessions.SessionStore.Index | app.py:54-60 | the handler updates the store exactly as `AfterIndex` says and keeps every transcript well formed |
| Sessions.SessionStore.Chat | app.py:62-79 | the handler's new store and answer are exactly `ChatTurn`'s, and every transcript stays well formed |

## Left out

- The HTTP call `requests.post` with its 120 s timeout, `raise_for_status` and `response.json()` are a foreign network client. They are the parameter `post`. A `Failure` stands for any `requests` exception. This includes the JSON decoding error, which recent `requests` versions derive from `RequestException`. The detail is opaque text, so only the fixed prefix of the connect message is specified.
- `temperature: 0.7` in the payload is a float passed through unchanged. It is not modelled.
- Flask routing, `request.json`, `jsonify`, `render_template` and the cookie serialisation of `session` are not modelled. A chat request is the value of its `"message"` field, with `JNull` when the field is absent. A request body that is not a JSON object (where `.get` itself raises) is not modelled.
- JSON numbers are integers. The falsiness of a float `0.0` message is not modelled.
- `get_local_ip` (socket I/O), `send_ip_email` (environment, SMTP, TLS), `secrets.token_hex` and the TLS server startup are not modelled. They are operational glue, randomness and I/O.
- Concurrent requests on one session are not modelled. The code does nothing to coordinate them, so requests are served one after another.
- Sessions.ChatTurn: uses the corrected `GetModelResponse`, as do `Step`, `Run`, every lemma about them and `SessionStore.Chat`. On a body where the code as written raises (content `null`, say), the request ends in a 500 response before the transcript is stored back, so the session's transcript stays unchanged. The model instead appends the user entry and an "invalid format" assistant entry; see Findings.

## Findings

| source | as written | input that shows it | evidently intended | confidence | as-written member | corrected member |
|---|---|---|---|---|---|---|
| app.py:43-52 | only `KeyError` and `RequestException` are caught. A body of the wrong kind makes `.strip()`, `[...]`, `in` or `len` raise `AttributeError` or `TypeError`, which escapes `get_model_response` | `{"choices": [{"message": {"content": null}}]}` (`AttributeError`); `{"choices": "x"}` (`TypeError`) | every body on which the code as written raises `TypeError` or `AttributeError` gets the "invalid format" reply, as a `KeyError` does, so the function never raises | high; not executed | Completion.NullContentEscapes | Completion.GetModelResponse |
