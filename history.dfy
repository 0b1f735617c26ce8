/** The message-history builder shared by the decision call and the synthesis
    call: a system entry followed by one entry per inbound message. */
module HistoryBuilder {
  import opened Messages

  /** The entry that opens every history: the system prompt, nothing else. */
  function SystemEntry(prompt: string): (e: Entry)
    ensures e.role == System && e.content == prompt
    ensures e.customContent.None? && e.extras == []
  {
    Entry(System, prompt, None, [])
  }

  /** True when the builder forwards only the plain text of `m`. */
  predicate CarriesUserCustomContent(m: Message)
  {
    m.customContent.Some? && m.role == User
  }

  /** The entry emitted for one inbound message. A User entry never carries
      custom content, and no emitted entry holds an unset field. */
  function ToEntry(m: Message): (e: Entry)
    ensures e.role == m.role && e.content == m.content
    ensures e.role == User ==> e.customContent.None?
    ensures NoneFree(e.extras)
    ensures e.customContent.Some? ==> NoneFree(e.customContent.value.fields)
  {
    if CarriesUserCustomContent(m) then Entry(User, m.content, None, [])
    else ExcludeNone(m)
  }

  /** The entries for a conversation, one per message, in order. */
  function Entries(ms: seq<Message>): (r: seq<Entry>)
    ensures |r| == |ms|
    decreases |ms|
  {
    if ms == [] then [] else Entries(ms[..|ms| - 1]) + [ToEntry(ms[|ms| - 1])]
  }

  /** The list the builder returns for `ms` under `prompt`. */
  function History(ms: seq<Message>, prompt: string): (h: seq<Entry>)
    ensures |h| == |ms| + 1 && h[0] == SystemEntry(prompt)
  {
    [SystemEntry(prompt)] + Entries(ms)
  }

  lemma {:induction false} EntriesAt(ms: seq<Message>, i: nat)
    requires i < |ms|
    ensures Entries(ms)[i] == ToEntry(ms[i])
    decreases |ms|
  {
    if i < |ms| - 1 {
      EntriesAt(ms[..|ms| - 1], i);
    }
  }

  /** Entry i+1 of the history is derived from inbound message i alone, so the
      original order is kept. */
  lemma HistoryAt(ms: seq<Message>, prompt: string, i: nat)
    requires i < |ms|
    ensures History(ms, prompt)[i + 1] == ToEntry(ms[i])
  {
    EntriesAt(ms, i);
  }

  /** A User message with custom content is sent as exactly its role and text. */
  lemma UserCustomContentIsDropped(m: Message)
    requires m.role == User && m.customContent.Some?
    ensures ToEntry(m) == Entry(User, m.content, None, [])
  {
  }

  /** Every other message is sent as its fields minus the unset ones: an
      Assistant message keeps its custom content. */
  lemma OtherMessagesExcludeNone(m: Message)
    requires !(m.role == User && m.customContent.Some?)
    ensures ToEntry(m) == ExcludeNone(m)
    ensures m.customContent.Some? ==> ToEntry(m).customContent == Some(StripCustomContent(m.customContent.value))
  {
  }

  /** No entry of the history leaks custom content under the User role, and no
      entry holds an unset field. */
  lemma {:induction false} HistoryIsClean(ms: seq<Message>, prompt: string)
    ensures forall i :: 0 <= i < |History(ms, prompt)| ==>
              var e := History(ms, prompt)[i];
              && (e.role == User ==> e.customContent.None?) && NoneFree(e.extras)
              && (e.customContent.Some? ==> NoneFree(e.customContent.value.fields))
  {
    var h := History(ms, prompt);
    forall i | 0 <= i < |h|
      ensures (h[i].role == User ==> h[i].customContent.None?) && NoneFree(h[i].extras)
      ensures h[i].customContent.Some? ==> NoneFree(h[i].customContent.value.fields)
    {
      if i > 0 {
        HistoryAt(ms, prompt, i - 1);
      }
    }
  }

  /** The last entry is the one derived from the most recent message, or the
      system entry when the conversation is empty. */
  lemma HistoryLast(ms: seq<Message>, prompt: string)
    ensures History(ms, prompt)[|ms|] == if ms == [] then SystemEntry(prompt) else ToEntry(ms[|ms| - 1])
  {
    if ms != [] {
      HistoryAt(ms, prompt, |ms| - 1);
    }
  }

  /** The builder itself: a list started with the system entry and extended by
      one append per inbound message. */
  method PrepareMessages(ms: seq<Message>, prompt: string) returns (messages: seq<Entry>)
    ensures messages == History(ms, prompt)
    ensures |messages| == |ms| + 1 && messages[0] == SystemEntry(prompt)
    ensures forall i :: 0 <= i < |ms| ==> messages[i + 1] == ToEntry(ms[i])
  {
    messages := [Entry(System, prompt, None, [])];
    var i := 0;
    while i < |ms|
      invariant 0 <= i <= |ms|
      invariant messages == [SystemEntry(prompt)] + Entries(ms[..i])
    {
      var m := ms[i];
      if m.customContent.Some? && m.role == User {
        messages := messages + [Entry(User, m.content, None, [])];
      } else {
        messages := messages + [ExcludeNone(m)];
      }
      assert ms[..i + 1][..i] == ms[..i];
      i := i + 1;
    }
    assert ms[..|ms|] == ms;
    forall i | 0 <= i < |ms|
      ensures messages[i + 1] == ToEntry(ms[i])
    {
      HistoryAt(ms, prompt, i);
    }
  }
}
