/** Conversation turns and their dict form (skill_manager/core/entities/message.py). */
module Messages {
  import opened Wrappers
  import opened Errors

  /** `MessageRole`: exactly three roles. */
  datatype Role = System | User | Assistant {
    /** `role.value` */
    function Value(): (v: string)
      ensures v == "system" || v == "user" || v == "assistant"
    {
      match this
      case System => "system"
      case User => "user"
      case Assistant => "assistant"
    }
  }

  /** `MessageRole(s)`: the role whose value is `s`, else a ValueError. */
  function RoleOf(s: string): (r: Result<Role, Error>)
    ensures r.Ok? <==> s == "system" || s == "user" || s == "assistant"
    ensures r.Ok? ==> r.value.Value() == s
    ensures r.Err? ==> r.error == ValueError("'" + s + "' is not a valid MessageRole")
  {
    if s == "system" then Ok(System)
    else if s == "user" then Ok(User)
    else if s == "assistant" then Ok(Assistant)
    else Err(ValueError("'" + s + "' is not a valid MessageRole"))
  }

  /** Distinct roles have distinct values, and each value names its role back. */
  lemma RoleValueRoundTrip(r: Role)
    ensures RoleOf(r.Value()) == Ok(r)
  {
  }

  datatype Message = Message(role: Role, content: string)

  /** The dict form `{"role": value, "content": content}` of a message. */
  type WireMessage = map<string, string>

  /** `Message.to_dict` */
  function ToDict(m: Message): (d: WireMessage)
    ensures d.Keys == {"role", "content"}
    ensures d["role"] == m.role.Value() && d["content"] == m.content
  {
    map["role" := m.role.Value(), "content" := m.content]
  }

  /** `Message.to_llm_format`: the same dict as `to_dict`. */
  function ToLlmFormat(m: Message): (d: WireMessage)
    ensures d == ToDict(m)
  {
    map["role" := m.role.Value(), "content" := m.content]
  }

  /** `Message.from_dict`: reads "role" (KeyError), checks it (ValueError), then reads "content". */
  function FromDict(d: WireMessage): (r: Result<Message, Error>)
    ensures "role" !in d ==> r == Err(KeyError("role"))
    ensures "role" in d && RoleOf(d["role"]).Err? ==> r == Err(RoleOf(d["role"]).error)
  {
    if "role" !in d then Err(KeyError("role"))
    else
      var role :- RoleOf(d["role"]);
      if "content" !in d then Err(KeyError("content"))
      else Ok(Message(role, d["content"]))
  }

  /** `from_dict(to_dict(m)) == m` */
  lemma FromDictToDict(m: Message)
    ensures FromDict(ToDict(m)) == Ok(m)
  {
    RoleValueRoundTrip(m.role);
  }

  /** A dict `from_dict` accepts keeps its role and content through `to_dict`; one holding
      only those two keys comes back unchanged. */
  lemma ToDictFromDict(d: WireMessage)
    requires FromDict(d).Ok?
    ensures "role" in d && "content" in d
    ensures ToDict(FromDict(d).value) == map["role" := d["role"], "content" := d["content"]]
    ensures d.Keys == {"role", "content"} ==> ToDict(FromDict(d).value) == d
  {
  }

  /** `from_dict` succeeds exactly on dicts with a known role value and a content. */
  lemma FromDictAccepts(d: WireMessage)
    ensures FromDict(d).Ok? <==>
      "role" in d && "content" in d && d["role"] in {"system", "user", "assistant"}
  {
  }
}
