/** The final-response synthesis: the rewritten prompt the second LLM call is
    given, and the text accumulated from its stream of chunks. */
module Synthesis {
  import opened Messages
  import opened HistoryBuilder

  const ContextHeader := "## CONTEXT:\n "
  const RequestHeader := "\n ---\n ## USER_REQUEST: \n "

  /** The last entry's new content: the agent's answer in a CONTEXT section,
      followed by the original text in a USER_REQUEST section. */
  function Augmented(context: string, request: string): (s: string)
    ensures |s| == |ContextHeader| + |context| + |RequestHeader| + |request|
    ensures s[..|ContextHeader|] == ContextHeader
    ensures s[|ContextHeader|..|ContextHeader| + |context|] == context
    ensures s[|ContextHeader| + |context|..|s| - |request|] == RequestHeader
    ensures s[|s| - |request|..] == request
  {
    ContextHeader + context + RequestHeader + request
  }

  /** The in-place rewrite of the last entry's content. */
  function RewriteLast(h: seq<Entry>, context: string): (r: seq<Entry>)
    requires |h| > 0
    ensures |r| == |h|
    ensures r[..|h| - 1] == h[..|h| - 1]
    ensures r[|h| - 1].role == h[|h| - 1].role && r[|h| - 1].customContent == h[|h| - 1].customContent
    ensures r[|h| - 1].extras == h[|h| - 1].extras
    ensures r[|h| - 1].content == Augmented(context, h[|h| - 1].content)
  {
    h[|h| - 1 := h[|h| - 1].(content := Augmented(context, h[|h| - 1].content))]
  }

  /** The messages sent to the synthesis call. */
  function SynthesisPrompt(ms: seq<Message>, prompt: string, context: string): (r: seq<Entry>)
    ensures |r| == |ms| + 1
    ensures r[..|ms|] == History(ms, prompt)[..|ms|]
    ensures r[|ms|].content == Augmented(context, History(ms, prompt)[|ms|].content)
  {
    RewriteLast(History(ms, prompt), context)
  }

  /** Only the last entry differs from the builder's output; with an empty
      conversation the rewritten entry is the system entry. */
  lemma SynthesisPromptShape(ms: seq<Message>, prompt: string, context: string)
    ensures |SynthesisPrompt(ms, prompt, context)| == |ms| + 1
    ensures forall i :: 0 <= i < |ms| ==> SynthesisPrompt(ms, prompt, context)[i] == History(ms, prompt)[i]
    ensures ms == [] ==> SynthesisPrompt(ms, prompt, context) == [SystemEntry(Augmented(context, prompt))]
    ensures ms != [] ==> SynthesisPrompt(ms, prompt, context)[|ms|]
                          == ToEntry(ms[|ms| - 1]).(content := Augmented(context, ms[|ms| - 1].content))
  {
    var h := History(ms, prompt);
    var r := SynthesisPrompt(ms, prompt, context);
    HistoryLast(ms, prompt);
    forall i | 0 <= i < |ms| ensures r[i] == h[i] {
      assert r[i] == r[..|ms|][i];
    }
  }

  datatype Delta = Delta(content: Option<string>)
  datatype StreamChoice = StreamChoice(delta: Option<Delta>)
  /** One chunk of the streamed completion. */
  datatype Chunk = Chunk(choices: seq<StreamChoice>)

  /** The text a chunk contributes: the first choice's delta content, when the
      chunk has a choice, that choice has a delta, and its content is non-empty. */
  function ChunkText(c: Chunk): (r: Option<string>)
    ensures r.Some? <==> |c.choices| > 0 && c.choices[0].delta.Some?
                         && c.choices[0].delta.value.content.Some? && c.choices[0].delta.value.content.value != ""
    ensures r.Some? ==> r == c.choices[0].delta.value.content
  {
    if |c.choices| > 0 then
      match c.choices[0].delta
      case Some(Delta(Some(text))) => if text != "" then Some(text) else None
      case _ => None
    else None
  }

  /** The fragments a stream delivers, in arrival order. */
  function Fragments(stream: seq<Chunk>): (fs: seq<string>)
    ensures |fs| <= |stream|
    ensures forall f :: f in fs ==> f != ""
    decreases |stream|
  {
    if stream == [] then []
    else
      var last := stream[|stream| - 1];
      Fragments(stream[..|stream| - 1]) + (if ChunkText(last).Some? then [ChunkText(last).value] else [])
  }

  /** The accumulated text: the fragments joined in order. */
  function Concat(fs: seq<string>): string
    decreases |fs|
  {
    if fs == [] then "" else Concat(fs[..|fs| - 1]) + fs[|fs| - 1]
  }

  /** One more chunk adds its text, if any, at the end. */
  lemma FragmentsSnoc(s: seq<Chunk>, c: Chunk)
    ensures Fragments(s + [c]) == Fragments(s) + (if ChunkText(c).Some? then [ChunkText(c).value] else [])
  {
    assert (s + [c])[..|s|] == s;
  }

  lemma ConcatSnoc(fs: seq<string>, t: string)
    ensures Concat(fs + [t]) == Concat(fs) + t
  {
    assert (fs + [t])[..|fs|] == fs;
  }

  lemma {:induction false} FragmentsAppend(a: seq<Chunk>, b: seq<Chunk>)
    ensures Fragments(a + b) == Fragments(a) + Fragments(b)
    decreases |b|
  {
    if b == [] {
      assert a + b == a;
    } else {
      var b' := b[..|b| - 1];
      assert (a + b)[..|a + b| - 1] == a + b';
      assert (a + b)[|a + b| - 1] == b[|b| - 1];
      FragmentsAppend(a, b');
    }
  }

  lemma {:induction false} ConcatAppend(a: seq<string>, b: seq<string>)
    ensures Concat(a + b) == Concat(a) + Concat(b)
    decreases |b|
  {
    if b == [] {
      assert a + b == a;
    } else {
      var b' := b[..|b| - 1];
      assert (a + b)[..|a + b| - 1] == a + b';
      assert (a + b)[|a + b| - 1] == b[|b| - 1];
      ConcatAppend(a, b');
    }
  }

  /** A chunk without choices, or whose delta or delta content is missing or
      empty, leaves both outputs unchanged wherever it occurs in the stream. */
  lemma SilentChunk(a: seq<Chunk>, c: Chunk, b: seq<Chunk>)
    requires ChunkText(c).None?
    ensures Fragments(a + [c] + b) == Fragments(a + b)
    ensures Concat(Fragments(a + [c] + b)) == Concat(Fragments(a)) + Concat(Fragments(b))
  {
    FragmentsAppend(a + [c], b);
    FragmentsAppend(a, [c]);
    FragmentsAppend(a, b);
    assert [c][..0] == [];
    ConcatAppend(Fragments(a), Fragments(b));
  }

  /** A chunk with text contributes exactly that text at its place in the stream. */
  lemma TextChunk(a: seq<Chunk>, c: Chunk, b: seq<Chunk>)
    requires ChunkText(c).Some?
    ensures Fragments(a + [c] + b) == Fragments(a) + [ChunkText(c).value] + Fragments(b)
    ensures Concat(Fragments(a + [c] + b)) == Concat(Fragments(a)) + ChunkText(c).value + Concat(Fragments(b))
  {
    FragmentsAppend(a + [c], b);
    FragmentsAppend(a, [c]);
    assert [c][..0] == [];
    ConcatAppend(Fragments(a) + [ChunkText(c).value], Fragments(b));
    ConcatAppend(Fragments(a), [ChunkText(c).value]);
    assert [ChunkText(c).value][..0] == [];
  }

  function TextOnly(text: string): Chunk
  {
    Chunk([StreamChoice(Some(Delta(Some(text))))])
  }

  /** Two chunks with text deliver exactly those two fragments. */
  lemma TwoTextChunks(a: string, b: string)
    requires a != "" && b != ""
    ensures Fragments([TextOnly(a), TextOnly(b)]) == [a, b]
    ensures Concat([a, b]) == a + b
  {
    var s := [TextOnly(a), TextOnly(b)];
    assert s[..1][..0] == [];
    assert Fragments(s[..1]) == [a];
    ConcatSnoc([a], b);
    ConcatSnoc([], a);
    assert [] + [a] == [a] && [a] + [b] == [a, b];
  }

  /** Fragments "Hel" and "lo" accumulate to "Hello"; an empty chunk between
      them changes nothing. */
  lemma HelloStream()
    ensures Fragments([TextOnly("Hel"), Chunk([]), TextOnly("lo")]) == ["Hel", "lo"]
    ensures Concat(Fragments([TextOnly("Hel"), Chunk([]), TextOnly("lo")])) == "Hello"
  {
    var s := [TextOnly("Hel"), Chunk([]), TextOnly("lo")];
    assert s[..2][..1][..0] == [];
    assert Fragments(s[..2][..1]) == ["Hel"];
    assert Fragments(s[..2]) == ["Hel"];
    assert Fragments(s) == ["Hel", "lo"];
    assert ["Hel", "lo"][..1] == ["Hel"];
    assert ["Hel"][..0] == [];
  }

  /** The message the synthesis returns: the accumulated text, with the agent's
      custom content passed through untouched. */
  function FinalMessage(content: string, agent: Message): (m: Message)
    ensures m.role == Assistant && m.content == content
    ensures m.customContent == agent.customContent && m.extras == []
  {
    Message(Assistant, content, agent.customContent, [])
  }
}
