# Multi-agent coordinator: a Dafny model

This project models the request-coordination pipeline of the MAS coordinator
(`MASCoordinator` in `task/agent.py`). For each chat-completion request the
coordinator works in four steps:

1. It asks an LLM which agent should answer. The choices are the
   general-purpose agent (GPA) and the user-management-service agent (UMS).
2. It calls that one agent's gateway with the conversation and the
   decision's additional instructions.
3. It asks a second, streaming LLM call to turn the agent's answer into the
   final reply. Each non-empty delta is forwarded to the caller as it arrives.
4. It returns an assistant message that carries the streamed text and the
   agent's custom content.

The files:

- `messages.dfy` (module `Messages`): messages, the dictionary entries sent
  to the LLM, errors, and the `exclude_none` rule.
- `history.dfy` (module `HistoryBuilder`): the message-history builder. It
  is a loop that appends to a list (`PrepareMessages`), checked against the
  functional specification `History`.
- `dispatch.dfy` (module `Dispatch`): the decision, the two gateways, and
  the exhaustive selection with its "Unknown Agent" error arm.
- `synthesis.dfy` (module `Synthesis`): the CONTEXT / USER_REQUEST rewrite of
  the last history entry, and the fragments and text a chunk stream yields.
- `coordinator.dfy` (module `Coordinator`): the classes `Choice` (the
  caller-visible output, a `seq<string>` that is appended to) and
  `MASCoordinator` (its methods mirror the source's), the phase-by-phase
  specification `Pipeline`, and the lemmas about ordering and aborts.

The external calls are inputs. One `Upstream` value holds:

- the decision call's parsed reply, or its error;
- the reply of each gateway, or its error;
- the chunks of the synthesis stream;
- an optional error raised after the last chunk.

Each call the coordinator makes, and each stage it opens, appends to or
closes, is recorded in the ghost field `MASCoordinator.trace`. The roles of
the system prompts are kept, but their texts are configuration:
`task/prompts.py` is not part of this model. `task/models.py` is not part of
this model either. A stage title is assumed to render GPA and UMS as `GPA`
and `UMS`. Any other agent name is rendered as its raw text.

The model follows the code's exact order of effects:

- The "Coordination Request" stage is opened before the decision call
  (`task/agent.py:36`, then `:38`), not after it. A failed decision call
  therefore leaves that stage open.
- A stage is closed only when the phase inside it succeeded, because the code
  has no `try`/`finally`. The stage in which an error is raised stays open,
  and no later stage is opened. So an unknown agent name fails after the
  Coordination Request stage was closed, and a failing stream fails after the
  Call stage was closed. The lemmas below state exactly where each failure
  stops.
- The "Call … Agent" stage is opened before the agent name is checked
  (`:45`, then `:134`). An unknown name therefore leaves that stage open.
- A custom content counts as present whenever it is set. It is a pydantic
  object, so Python treats any set value as true.

## Model

| member | source | states |
|---|---|---|
| `Messages.PresentFields` | task/agent.py:116 | the fields kept by `exclude_none` are exactly the set ones, and there are no more of them than in the input |
| `Messages.PresentFieldsAppend` | task/agent.py:116 | dropping unset fields keeps their order: it distributes over concatenation |
| `Messages.PresentFieldsOfNoneFree` | task/agent.py:116 | a field list with no unset field is left unchanged |
| `Messages.StripCustomContent` | task/agent.py:116 | nested custom content keeps exactly its set fields |
| `Messages.ExcludeNone` | task/agent.py:116 | `m.dict(exclude_none=True)` keeps role and content; it keeps custom content exactly when it is set, minus its unset fields; it keeps exactly the set extra fields |
| `HistoryBuilder.ToEntry` | task/agent.py:107-116 | each emitted entry has the message's role and content; a User entry never carries custom content; no emitted entry holds an unset field |
| `HistoryBuilder.SystemEntry` | task/agent.py:96-101 | the first entry has role SYSTEM, the prompt as content, and no other field |
| `HistoryBuilder.Entries` | task/agent.py:106-116 | one entry per inbound message |
| `HistoryBuilder.History` | task/agent.py:96-118 | the history has length `len(messages) + 1`, and entry 0 is `{role: SYSTEM, content: prompt}` |
| `HistoryBuilder.EntriesAt` | task/agent.py:106-116 | entry i is derived from message i |
| `HistoryBuilder.HistoryAt` | task/agent.py:106-116 | history entry i+1 is derived from inbound message i alone, so order is kept |
| `HistoryBuilder.UserCustomContentIsDropped` | task/agent.py:107-114 | a User message with custom content is emitted as exactly `{role: USER, content}` |
| `HistoryBuilder.OtherMessagesExcludeNone` | task/agent.py:115-116 | every other message is emitted as `exclude_none` of itself, so an Assistant message keeps its custom content |
| `HistoryBuilder.HistoryIsClean` | task/agent.py:96-118 | no history entry has User role with custom content, and none holds an unset field, neither among its extras nor inside the custom content it keeps |
| `HistoryBuilder.HistoryLast` | task/agent.py:96-118 | the last entry comes from the most recent message; it is the system entry when the conversation is empty |
| `HistoryBuilder.PrepareMessages` | task/agent.py:93-118 | the append loop returns exactly `History`: system entry first, then entry i+1 is `ToEntry(message i)` |
| `Dispatch.SelectGateway` | task/agent.py:129-134 | GPA selects the GPA gateway and UMS the UMS gateway, in both directions; every other value is `ValueError("Unknown Agent")` |
| `Dispatch.Label` | task/agent.py:45 | the agent name inside a stage title is `GPA` or `UMS` for a known agent, and its raw text otherwise |
| `Synthesis.Augmented` | task/agent.py:154 | the new content is the CONTEXT header, the agent text, the USER_REQUEST header and the old content, in that order and nothing else |
| `Synthesis.RewriteLast` | task/agent.py:154-156 | only the last entry changes, and only its content, which becomes the template |
| `Synthesis.SynthesisPrompt` | task/agent.py:152-156 | the synthesis prompt has the builder's length, the builder's first entries, and a last entry whose content is the CONTEXT / USER_REQUEST template around the builder's last content |
| `Synthesis.SynthesisPromptShape` | task/agent.py:152-156 | the synthesis prompt has the builder's length; every earlier entry equals the builder's; with an empty conversation the rewritten entry is the system entry |
| `Synthesis.Fragments` | task/agent.py:164-170 | a stream yields at most one fragment per chunk, and every fragment is non-empty |
| `Synthesis.FragmentsSnoc` | task/agent.py:165-170 | one more chunk adds its text, if it has any, at the end |
| `Synthesis.ChunkText` | task/agent.py:166-168 | a chunk yields text exactly when it has a choice whose delta has non-empty content, and then that text is the first choice's delta content |
| `Synthesis.ConcatSnoc` | task/agent.py:170 | `content += delta` adds the fragment at the end of the accumulated text |
| `Synthesis.FragmentsAppend` | task/agent.py:165-170 | the fragments of two streams in a row are their fragments in that order |
| `Synthesis.ConcatAppend` | task/agent.py:164-170 | accumulating two fragment lists in a row concatenates their texts |
| `Synthesis.SilentChunk` | task/agent.py:166-168 | a chunk with no choice, no delta, or empty delta content contributes nothing to either output, wherever it occurs |
| `Synthesis.TextChunk` | task/agent.py:167-170 | a chunk with text contributes exactly that text, at its place, to both outputs |
| `Synthesis.TwoTextChunks` | task/agent.py:164-170 | two text chunks yield those two fragments, and their text joined |
| `Synthesis.HelloStream` | task/agent.py:164-170 | fragments "Hel" and "lo", with an empty chunk between them, accumulate to "Hello" |
| `Synthesis.FinalMessage` | task/agent.py:172-176 | the final message has role ASSISTANT, the accumulated content, the agent's custom content, and no other field |
| `Coordinator.Choice.AppendContent` | task/agent.py:169 | `choice.append_content` adds the fragment at the end of the caller's output |
| `Coordinator.MASCoordinator.constructor` | task/agent.py:21-24 | the coordinator holds its endpoints and deployment, and has made no call yet |
| `Coordinator.CallStage` | task/agent.py:45 | the Call stage title is `Call `, the agent label, then ` Agent` |
| `Coordinator.Fenced` | task/agent.py:42 | the text appended to the Coordination Request stage is the decision JSON inside a json code fence, with the `\n\r` line breaks of the source |
| `Coordinator.Pipeline` | task/agent.py:36-62 | every run opens the Coordination Request stage and sends the decision call first; it has between two and eight events; a success, or any output to the caller, means all eight phases ran |
| `Coordinator.MASCoordinator.HandleRequest` | task/agent.py:26-62 | the trace, the caller's output and the result are exactly those of `Pipeline` for this request and these upstream answers |
| `Coordinator.MASCoordinator.PrepareCoordinationRequest` | task/agent.py:64-91 | the decision call is sent the history under the coordination prompt, and its parsed reply or error is returned |
| `Coordinator.MASCoordinator.HandleCoordinationRequest` | task/agent.py:120-141 | exactly the selected gateway is invoked, on its endpoint, with the conversation and the instructions; an unknown name raises and records nothing |
| `Coordinator.MASCoordinator.FinalResponse` | task/agent.py:143-176 | the synthesis call gets the rewritten history; the caller gets exactly the non-empty deltas in order; the result is the final message, or the stream's error |
| `Coordinator.StreamToChoice` | task/agent.py:164-170 | the streaming loop appends exactly the stream's fragments, in order, to the caller's output, and returns their concatenation as the accumulated content |
| `Coordinator.InvocationsAppend` | task/agent.py:46-55 | the gateway calls of two event lists in a row are their gateway calls in that order |
| `Coordinator.InvocationsOfNone` | task/agent.py:36-51 | an event list without an agent call records no gateway invocation |
| `Coordinator.CallStageIsNotCoordinationStage` | task/agent.py:36-45 | the two stage titles never coincide |
| `Coordinator.EventsFollowPhaseOrder` | task/agent.py:36-62 | every run is a prefix of the fixed phase order, event k having phase k: stage opened, decision requested, stage appended, stage closed, Call stage opened, agent invoked, Call stage closed, synthesis requested |
| `Coordinator.DecisionFailureAbortsEverything` | task/agent.py:36-38 | a failed decision call leaves only the opened Coordination Request stage and the request; there is no output and its error is the result |
| `Coordinator.UnknownAgentRaisesBeforeAnyCall` | task/agent.py:45-51 | an unknown name fails with "Unknown Agent" after its Call stage opened; no gateway is invoked, there is no synthesis and no output |
| `Coordinator.KnownAgentInvokesOnlyItsGateway` | task/agent.py:129-141 | a known name invokes exactly its own gateway, once, with the conversation and the instructions unchanged |
| `Coordinator.AtMostOneAgent` | task/agent.py:120-141 | at most one gateway is invoked per request, and exactly one when the request succeeds |
| `Coordinator.AgentFailureStopsSynthesis` | task/agent.py:46-55 | a gateway error is the result; the Call stage was opened as the fifth event and is never closed; there is no synthesis call and no output |
| `Coordinator.SynthesisOutcome` | task/agent.py:53-62 | after the agent answers, the Call stage closes and the synthesis is requested; the caller gets exactly the stream's fragments, even if the stream then fails; success holds exactly when the stream ends normally, with content equal to the caller's output and the agent's custom content |
| `Coordinator.SuccessRunsEveryPhase` | task/agent.py:36-62 | a successful request ran all eight steps, in order, with their exact arguments |
| `Coordinator.JaneAccountScenario` | task/agent.py:26-62 | "Create a new account for Jane" routed to UMS: the UMS gateway gets the instructions, and the final message joins the streamed text and carries `{id: 42}` verbatim |
| `Coordinator.JaneGatewayFailure` | task/agent.py:46-55 | when the UMS gateway fails, no synthesis is requested and the request fails with that error |

## Left out

- HTTP server wiring (`task/app.py`): the DIAL application, uvicorn, environment configuration, header logging and re-raising. None of it is coordination logic.
- `AsyncDial` client construction (`task/agent.py:29-33`) and the transport of both chat-completion calls. Their answers are the `Upstream` input. The `response_format` schema the decision call sends is not modelled.
- `json.loads` (the json module), and `model_validate`, `model_json_schema` and `model_dump_json` (pydantic). The decision arrives already parsed, together with its JSON text. A parse or schema failure is a `Failure` of the decision reply.
- Gateway internals (`GPAGateway`, `UMSAgentGateway`) and `StageProcessor`. Only their invocation is recorded. The content an agent writes into its stage or into the choice is not modelled.
- Logging (`logger.info`). It has no effect on the result.
- async/await, cancellation and the streaming transport. The stream is a finite sequence, followed by an optional error.
- `deepcopy` and `StrictStr`. They have no behavioural effect here.
- Message content that is `None` or multi-part. Content is a plain string.
- `exclude_none` inside custom content is applied one level deep; deeper nesting is not represented. The other optional message fields (name, tool calls, …) are one generic list of named fields.
- `Coordinator.MASCoordinator.PrepareCoordinationRequest`: states only that the decision call's reply is returned. How that reply is produced from the model's JSON is foreign code.
