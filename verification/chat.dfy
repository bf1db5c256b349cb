/** The values a group chat passes around: agents, transcript entries and
    the replies an agent's `generate_reply` produces. */
module Chat {
  import opened Wrappers

  /** A participant, known to the chat only by its name; everything else
      about it lives behind the library calls. */
  datatype Agent = Agent(name: string)

  /** One transcript entry (a message dict with "role", "content" and an
      optional "name"). */
  datatype Message = Message(role: string, content: string, name: Option<string>)

  /** What `generate_reply` may return: nothing, a string, or a message dict. */
  datatype Reply = NoReply | TextReply(text: string) | DictReply(fields: map<string, string>)

  /** Python truthiness of a reply: `None`, `""` and `{}` are false. */
  predicate Truthy(r: Reply)
    ensures Truthy(r) <==> r != NoReply && r != TextReply("") && r != DictReply(map[])
  {
    match r
    case NoReply => false
    case TextReply(t) => t != ""
    case DictReply(f) => |f| != 0
  }
}
