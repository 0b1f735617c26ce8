/** The chat-completion data model shared by the coordinator: messages as they
    arrive in a request, and the dictionary entries that are sent to the LLM. */
module Messages {

  datatype Option<+T> = None | Some(value: T)

  /** The roles of the chat-completion protocol. */
  datatype Role = System | User | Assistant | Function | Tool

  /** One named field of a message or of its custom content. A field whose value
      is `None` is declared by the model but unset. */
  datatype Field = Field(name: string, value: Option<string>)

  /** Structured, UI-only metadata attached to a message; the coordinator does not
      interpret it. */
  datatype CustomContent = CustomContent(fields: seq<Field>)

  /** An inbound or agent-produced message: role, text content, optional custom
      content, and the protocol's remaining optional fields (name, tool calls, ...). */
  datatype Message = Message(role: Role, content: string, customContent: Option<CustomContent>, extras: seq<Field>)

  /** The part of a chat-completion request the coordinator reads. */
  datatype Request = Request(messages: seq<Message>)

  /** A dictionary handed to the LLM client: only the keys it holds. An absent
      `customContent` is a missing key, not a null one. */
  datatype Entry = Entry(role: Role, content: string, customContent: Option<CustomContent>, extras: seq<Field>)

  /** `ValueError` is raised by the coordinator itself; `External` stands for any
      exception coming out of the LLM client, the JSON/schema layer or an agent. */
  datatype Error = ValueError(message: string) | External(description: string)

  datatype Result<+T> = Success(value: T) | Failure(error: Error)

  predicate NoneFree(fs: seq<Field>)
  {
    forall f :: f in fs ==> f.value.Some?
  }

  /** The fields that survive `exclude_none`, in their original order. */
  function PresentFields(fs: seq<Field>): (r: seq<Field>)
    ensures forall f :: f in r <==> f in fs && f.value.Some?
    ensures |r| <= |fs|
  {
    if fs == [] then []
    else (if fs[0].value.Some? then [fs[0]] else []) + PresentFields(fs[1..])
  }

  /** Dropping unset fields keeps the order: it distributes over concatenation. */
  lemma {:induction false} PresentFieldsAppend(a: seq<Field>, b: seq<Field>)
    ensures PresentFields(a + b) == PresentFields(a) + PresentFields(b)
  {
    if a == [] {
      assert a + b == b;
    } else {
      assert (a + b)[0] == a[0] && (a + b)[1..] == a[1..] + b;
      PresentFieldsAppend(a[1..], b);
    }
  }

  /** Dropping unset fields is the identity on a list without unset fields. */
  lemma {:induction false} PresentFieldsOfNoneFree(fs: seq<Field>)
    requires NoneFree(fs)
    ensures PresentFields(fs) == fs
  {
    if fs != [] {
      assert fs[0] in fs;
      assert forall f :: f in fs[1..] ==> f in fs;
      PresentFieldsOfNoneFree(fs[1..]);
      assert fs == [fs[0]] + fs[1..];
    }
  }

  /** pydantic's `exclude_none`, applied to custom content. */
  function StripCustomContent(c: CustomContent): (r: CustomContent)
    ensures NoneFree(r.fields)
    ensures forall f :: f in r.fields <==> f in c.fields && f.value.Some?
  {
    CustomContent(PresentFields(c.fields))
  }

  /** `m.dict(exclude_none=True)`: role and content are always present; custom
      content is kept when set (minus its own unset fields); every unset extra
      field is dropped. */
  function ExcludeNone(m: Message): (e: Entry)
    ensures e.role == m.role && e.content == m.content
    ensures e.customContent.Some? <==> m.customContent.Some?
    ensures e.customContent.Some? ==> e.customContent.value == StripCustomContent(m.customContent.value)
    ensures NoneFree(e.extras)
    ensures forall f :: f in e.extras <==> f in m.extras && f.value.Some?
  {
    Entry(m.role, m.content,
          match m.customContent
          case None => None
          case Some(c) => Some(StripCustomContent(c)),
          PresentFields(m.extras))
  }
}
