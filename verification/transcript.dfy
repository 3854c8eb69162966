/** The entries of a conversation transcript: role-tagged messages, and their JSON
    form `{"role": ..., "content": ...}` as stored in the session and sent to the
    inference server. */
module Transcript {
  import opened Optional
  import opened PyJson

  const SYSTEM_PROMPT: string :=
    "You are a helpful and friendly AI assistant. I prefer concise responses."

  datatype Role = System | User | Assistant

  /** A transcript entry. The content is whatever JSON value the client sent as its
      message (the relay does not require a str); system and assistant entries
      always carry a str. */
  datatype Message = Message(role: Role, content: Json)

  /** The entry every transcript opened by the chat page starts with. */
  const SystemMessage: Message := Message(System, JStr(SYSTEM_PROMPT))

  function RoleName(role: Role): string {
    match role
    case System => "system"
    case User => "user"
    case Assistant => "assistant"
  }

  function RoleOf(name: string): Option<Role> {
    if name == "system" then Some(System)
    else if name == "user" then Some(User)
    else if name == "assistant" then Some(Assistant)
    else None
  }

  /** The dict `{"role": ..., "content": ...}` the relay builds for a message. */
  function ToJson(m: Message): Json {
    JObj(map["role" := JStr(RoleName(m.role)), "content" := m.content])
  }

  /** How the other side reads such a dict back. */
  function FromJson(j: Json): Option<Message> {
    if j.JObj? && "role" in j.fields && "content" in j.fields && j.fields["role"].JStr? then
      match RoleOf(j.fields["role"].s)
      case Some(role) => Some(Message(role, j.fields["content"]))
      case None => None
    else None
  }

  /** Nothing is lost when a message is written as a dict: reading it back gives the
      same role and the same content. */
  lemma RoundTrip(m: Message)
    ensures FromJson(ToJson(m)) == Some(m)
  {
    var j := ToJson(m);
    assert j.fields["role"] == JStr(RoleName(m.role));
    assert j.fields["content"] == m.content;
  }
}
