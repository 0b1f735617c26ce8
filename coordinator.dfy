/** The request coordinator: decide which agent answers, call it, then
    synthesize the final answer while streaming it to the caller. The results of
    the external calls (the decision LLM, the two agent gateways, the synthesis
    stream) are an `Upstream` value given as input; every call the coordinator
    makes and every stage it opens or closes is recorded in a ghost trace. */
module Coordinator {
  import opened Messages
  import opened HistoryBuilder
  import opened Dispatch
  import opened Synthesis

  /** Per-request configuration; the two prompts are the fixed system prompts
      of the decision call and of the synthesis call. */
  datatype Config = Config(
    endpoint: string,
    deploymentName: string,
    umsAgentEndpoint: string,
    coordinationPrompt: string,
    finalPrompt: string)

  /** The decision call's parsed reply and its JSON rendering. */
  datatype DecisionReply = DecisionReply(decision: Decision, json: string)

  /** What the external collaborators answer for this request. The synthesis
      stream is the chunks it delivers, followed either by a normal end
      (`streamEnd == None`) or by an error raised after those chunks. */
  datatype Upstream = Upstream(
    decision: Result<DecisionReply>,
    gpaReply: Result<Message>,
    umsReply: Result<Message>,
    stream: seq<Chunk>,
    streamEnd: Option<Error>)

  /** Everything the coordinator causes besides the caller-visible content. */
  datatype Event =
    | StageOpened(name: string)
    | StageAppended(name: string, text: string)
    | StageClosed(name: string)
    | DecisionRequested(deployment: string, messages: seq<Entry>)
    | AgentInvoked(gateway: Gateway, endpoint: string, conversation: seq<Message>, instructions: string)
    | SynthesisRequested(deployment: string, messages: seq<Entry>)

  /** What one run produces: its events, the fragments appended to the
      caller's output, and its result (an error is an exception). */
  datatype Run = Run(events: seq<Event>, output: seq<string>, result: Result<Message>)

  const CoordinationStage := "Coordination Request"

  /** The title of the stage in which the chosen agent runs. */
  function CallStage(name: AgentName): (s: string)
    ensures |s| == |Label(name)| + 11
    ensures s[..5] == "Call " && s[5..|s| - 6] == Label(name) && s[|s| - 6..] == " Agent"
  {
    "Call " + Label(name) + " Agent"
  }

  /** The stage text that shows the decision as a JSON code block. */
  function Fenced(json: string): (s: string)
    ensures |s| == |json| + 16
    ensures s[..9] == "```json\n\r" && s[9..|s| - 7] == json && s[|s| - 7..] == "\n\r```\n\r"
  {
    "```json\n\r" + json + "\n\r```\n\r"
  }

  /** The GPA gateway is built on the coordinator's endpoint, the UMS gateway
      on the UMS agent endpoint. */
  function GatewayEndpoint(cfg: Config, g: Gateway): string
  {
    match g
    case GPAGateway => cfg.endpoint
    case UMSGateway => cfg.umsAgentEndpoint
  }

  function GatewayReply(up: Upstream, g: Gateway): Result<Message>
  {
    match g
    case GPAGateway => up.gpaReply
    case UMSGateway => up.umsReply
  }

  // ---------------------------------------------------------------------------
  // The specification of one request, phase by phase

  function DecisionEvent(cfg: Config, request: Request): Event
  {
    DecisionRequested(cfg.deploymentName, History(request.messages, cfg.coordinationPrompt))
  }

  function InvocationEvent(cfg: Config, request: Request, d: Decision, g: Gateway): Event
  {
    AgentInvoked(g, GatewayEndpoint(cfg, g), request.messages, d.additionalInstructions)
  }

  function SynthesisEvent(cfg: Config, request: Request, agent: Message): Event
  {
    SynthesisRequested(cfg.deploymentName, SynthesisPrompt(request.messages, cfg.finalPrompt, agent.content))
  }

  /** The synthesis result: the stream's error, or the final message. */
  function SynthesisResult(agent: Message, up: Upstream): Result<Message>
  {
    match up.streamEnd
    case Some(e) => Failure(e)
    case None => Success(FinalMessage(Concat(Fragments(up.stream)), agent))
  }

  function DispatchRun(cfg: Config, request: Request, d: Decision, up: Upstream): Run
  {
    match SelectGateway(d.agentName)
    case Failure(e) => Run([], [], Failure(e))
    case Success(g) => Run([InvocationEvent(cfg, request, d, g)], [], GatewayReply(up, g))
  }

  function SynthesisRun(cfg: Config, request: Request, agent: Message, up: Upstream): Run
  {
    Run([SynthesisEvent(cfg, request, agent)], Fragments(up.stream), SynthesisResult(agent, up))
  }

  /** The whole request: each phase runs only when every earlier one succeeded,
      and the first error is the result. */
  function Pipeline(cfg: Config, request: Request, up: Upstream): (r: Run)
    ensures 2 <= |r.events| <= 8
    ensures r.events[0] == StageOpened(CoordinationStage) && r.events[1] == DecisionEvent(cfg, request)
    ensures r.result.Success? ==> |r.events| == 8
    ensures r.output != [] ==> |r.events| == 8
  {
    var begun := StageOpened(CoordinationStage);
    var asked := DecisionEvent(cfg, request);
    match up.decision
    case Failure(e) => Run([begun, asked], [], Failure(e))
    case Success(reply) =>
      var d := reply.decision;
      var appended := StageAppended(CoordinationStage, Fenced(reply.json));
      var closed := StageClosed(CoordinationStage);
      var called := StageOpened(CallStage(d.agentName));
      match SelectGateway(d.agentName)
      case Failure(e) => Run([begun, asked, appended, closed, called], [], Failure(e))
      case Success(g) =>
        var invoked := InvocationEvent(cfg, request, d, g);
        match GatewayReply(up, g)
        case Failure(e) => Run([begun, asked, appended, closed, called, invoked], [], Failure(e))
        case Success(agent) =>
          Run([begun, asked, appended, closed, called, invoked, StageClosed(CallStage(d.agentName)), SynthesisEvent(cfg, request, agent)],
              Fragments(up.stream), SynthesisResult(agent, up))
  }

  // ---------------------------------------------------------------------------
  // The objects

  /** The response choice the caller sees; content is appended to it as the
      synthesis stream delivers it. */
  class Choice {
    var output: seq<string>

    constructor ()
      ensures output == []
    {
      output := [];
    }

    method AppendContent(text: string)
      modifies this
      ensures output == old(output) + [text]
    {
      output := output + [text];
    }
  }

  class MASCoordinator {
    const config: Config
    ghost var trace: seq<Event>

    constructor (endpoint: string, deploymentName: string, umsAgentEndpoint: string,
                 coordinationPrompt: string, finalPrompt: string)
      ensures config == Config(endpoint, deploymentName, umsAgentEndpoint, coordinationPrompt, finalPrompt)
      ensures trace == []
    {
      config := Config(endpoint, deploymentName, umsAgentEndpoint, coordinationPrompt, finalPrompt);
      trace := [];
    }

    /** The four phases in order; an error ends the request at once, leaving
        open only the stage in which it was raised. */
    method HandleRequest(choice: Choice, request: Request, up: Upstream) returns (r: Result<Message>)
      modifies this, choice
      ensures trace == old(trace) + Pipeline(config, request, up).events
      ensures choice.output == old(choice.output) + Pipeline(config, request, up).output
      ensures r == Pipeline(config, request, up).result
    {
      trace := trace + [StageOpened(CoordinationStage)];
      var decided := PrepareCoordinationRequest(request, up);
      if decided.Failure? {
        return Failure(decided.error);
      }
      var reply := decided.value;
      trace := trace + [StageAppended(CoordinationStage, Fenced(reply.json)), StageClosed(CoordinationStage)];
      var stage := CallStage(reply.decision.agentName);
      trace := trace + [StageOpened(stage)];
      ghost var called := trace;
      assert called == old(trace) + [StageOpened(CoordinationStage), DecisionEvent(config, request),
        StageAppended(CoordinationStage, Fenced(reply.json)), StageClosed(CoordinationStage), StageOpened(stage)];
      var agent := HandleCoordinationRequest(reply.decision, request, up);
      if agent.Failure? {
        return Failure(agent.error);
      }
      trace := trace + [StageClosed(stage)];
      ghost var closed := trace;
      r := FinalResponse(choice, request, agent.value, up);
      assert trace == closed + [SynthesisEvent(config, request, agent.value)];
    }

    /** The decision call: the history under the coordination prompt is sent,
        and the parsed reply (or the call's error) comes back. */
    method PrepareCoordinationRequest(request: Request, up: Upstream) returns (r: Result<DecisionReply>)
      modifies this
      ensures trace == old(trace) + [DecisionEvent(config, request)]
      ensures r == up.decision
    {
      var messages := PrepareMessages(request.messages, config.coordinationPrompt);
      trace := trace + [DecisionRequested(config.deploymentName, messages)];
      r := up.decision;
    }

    /** Dispatch: the named agent's gateway is called with the conversation and
        the decision's instructions; any other name raises before any call. */
    method HandleCoordinationRequest(decision: Decision, request: Request, up: Upstream) returns (r: Result<Message>)
      modifies this
      ensures trace == old(trace) + DispatchRun(config, request, decision, up).events
      ensures r == DispatchRun(config, request, decision, up).result
    {
      var gateway: Gateway;
      match decision.agentName {
        case GPA =>
          gateway := GPAGateway;
        case UMS =>
          gateway := UMSGateway;
        case Unrecognized(_) =>
          return Failure(UnknownAgent);
      }
      trace := trace + [AgentInvoked(gateway, GatewayEndpoint(config, gateway), request.messages, decision.additionalInstructions)];
      r := GatewayReply(up, gateway);
    }

    /** Synthesis: rewrite the last history entry, call the LLM with streaming,
        and accumulate the stream while forwarding it to the caller. */
    method FinalResponse(choice: Choice, request: Request, agent: Message, up: Upstream) returns (r: Result<Message>)
      modifies this, choice
      ensures trace == old(trace) + SynthesisRun(config, request, agent, up).events
      ensures choice.output == old(choice.output) + SynthesisRun(config, request, agent, up).output
      ensures r == SynthesisRun(config, request, agent, up).result
    {
      var messages := PrepareMessages(request.messages, config.finalPrompt);
      var last := |messages| - 1;
      messages := messages[last := messages[last].(content := Augmented(agent.content, messages[last].content))];
      trace := trace + [SynthesisRequested(config.deploymentName, messages)];
      var content := StreamToChoice(choice, up.stream);
      if up.streamEnd.Some? {
        return Failure(up.streamEnd.value);
      }
      r := Success(Message(Assistant, content, agent.customContent, []));
    }
  }

  /** The streaming loop: every chunk whose first choice has a non-empty delta
      is appended to the caller's output and to the accumulated text. */
  method StreamToChoice(choice: Choice, stream: seq<Chunk>) returns (content: string)
    modifies choice
    ensures choice.output == old(choice.output) + Fragments(stream)
    ensures content == Concat(Fragments(stream))
  {
    content := "";
    var i := 0;
    while i < |stream|
      invariant 0 <= i <= |stream|
      invariant choice.output == old(choice.output) + Fragments(stream[..i])
      invariant content == Concat(Fragments(stream[..i]))
    {
      var chunk := stream[i];
      ghost var before := Fragments(stream[..i]);
      assert stream[..i + 1] == stream[..i] + [chunk];
      FragmentsSnoc(stream[..i], chunk);
      if |chunk.choices| > 0 {
        var delta := chunk.choices[0].delta;
        if delta.Some? && delta.value.content.Some? && delta.value.content.value != "" {
          var text := delta.value.content.value;
          assert ChunkText(chunk) == Some(text);
          choice.AppendContent(text);
          ConcatSnoc(before, text);
          content := content + text;
          assert Fragments(stream[..i + 1]) == before + [text];
        } else {
          assert ChunkText(chunk).None?;
          assert Fragments(stream[..i + 1]) == before;
        }
      } else {
        assert Fragments(stream[..i + 1]) == before;
      }
      i := i + 1;
    }
    assert stream[..|stream|] == stream;
  }

  // ---------------------------------------------------------------------------
  // Properties of a run

  /** The position of an event in the fixed phase order. */
  function Rank(e: Event): nat
  {
    match e
    case StageOpened(n) => if n == CoordinationStage then 0 else 4
    case DecisionRequested(_, _) => 1
    case StageAppended(_, _) => 2
    case StageClosed(n) => if n == CoordinationStage then 3 else 6
    case AgentInvoked(_, _, _, _) => 5
    case SynthesisRequested(_, _) => 7
  }

  predicate InPhaseOrder(events: seq<Event>)
  {
    forall i, j :: 0 <= i < j < |events| ==> Rank(events[i]) < Rank(events[j])
  }

  /** The gateways invoked, in order. */
  function Invocations(events: seq<Event>): seq<Gateway>
    decreases |events|
  {
    if events == [] then []
    else
      var e := events[|events| - 1];
      Invocations(events[..|events| - 1]) + (if e.AgentInvoked? then [e.gateway] else [])
  }

  predicate SynthesisIssued(events: seq<Event>)
  {
    exists e :: e in events && e.SynthesisRequested?
  }

  lemma CallStageIsNotCoordinationStage(name: AgentName)
    ensures CallStage(name) != CoordinationStage
  {
    assert CallStage(name)[1] == 'a';
    assert CoordinationStage[1] == 'o';
  }

  lemma {:induction false} InvocationsAppend(a: seq<Event>, b: seq<Event>)
    ensures Invocations(a + b) == Invocations(a) + Invocations(b)
    decreases |b|
  {
    if b == [] {
      assert a + b == a;
    } else {
      var b' := b[..|b| - 1];
      assert (a + b)[..|a + b| - 1] == a + b';
      assert (a + b)[|a + b| - 1] == b[|b| - 1];
      InvocationsAppend(a, b');
    }
  }

  lemma {:induction false} InvocationsOfNone(events: seq<Event>)
    requires forall e :: e in events ==> !e.AgentInvoked?
    ensures Invocations(events) == []
    decreases |events|
  {
    if events != [] {
      assert events[|events| - 1] in events;
      assert forall e :: e in events[..|events| - 1] ==> e in events;
      InvocationsOfNone(events[..|events| - 1]);
    }
  }

  /** Every run is a prefix of one fixed order: the Coordination Request stage
      opens, the decision is requested, the stage gets the decision and
      closes, the Call stage opens, the agent is invoked, that stage closes,
      the synthesis is requested. A failed phase simply ends the prefix:
      how far each kind of failure gets is stated below. */
  lemma EventsFollowPhaseOrder(cfg: Config, request: Request, up: Upstream)
    ensures InPhaseOrder(Pipeline(cfg, request, up).events)
    ensures forall k :: 0 <= k < |Pipeline(cfg, request, up).events| ==> Rank(Pipeline(cfg, request, up).events[k]) == k
  {
    var events := Pipeline(cfg, request, up).events;
    match up.decision
    case Failure(_) =>
      assert Rank(events[0]) == 0 && Rank(events[1]) == 1;
    case Success(reply) =>
      var name := reply.decision.agentName;
      CallStageIsNotCoordinationStage(name);
      assert Rank(events[0]) == 0 && Rank(events[1]) == 1 && Rank(events[2]) == 2 && Rank(events[3]) == 3;
      assert Rank(events[4]) == 4;
      if |events| > 5 {
        assert Rank(events[5]) == 5;
      }
      if |events| > 6 {
        assert Rank(events[6]) == 6 && Rank(events[7]) == 7;
      }
      RankedByPosition(events);
  }

  lemma RankedByPosition(events: seq<Event>)
    requires |events| <= 8
    requires forall k :: 0 <= k < |events| ==> Rank(events[k]) == k
    ensures InPhaseOrder(events)
  {
  }

  /** A failed decision call: only the Coordination Request stage was opened
      (and is never closed); nothing else happens. */
  lemma DecisionFailureAbortsEverything(cfg: Config, request: Request, up: Upstream)
    requires up.decision.Failure?
    ensures Pipeline(cfg, request, up) == Run([StageOpened(CoordinationStage), DecisionRequested(cfg.deploymentName, History(request.messages, cfg.coordinationPrompt))],
                                              [], Failure(up.decision.error))
  {
  }

  /** An agent name outside the enumeration raises "Unknown Agent" after its
      Call stage was opened: no gateway is invoked, the stage stays open, no
      synthesis is requested and nothing reaches the caller. */
  lemma UnknownAgentRaisesBeforeAnyCall(cfg: Config, request: Request, up: Upstream)
    requires up.decision.Success? && up.decision.value.decision.agentName.Unrecognized?
    ensures var run := Pipeline(cfg, request, up);
            && run.result == Failure(ValueError("Unknown Agent"))
            && |run.events| == 5
            && run.events[4] == StageOpened(CallStage(up.decision.value.decision.agentName))
            && Invocations(run.events) == []
            && !SynthesisIssued(run.events)
            && run.output == []
  {
    var run := Pipeline(cfg, request, up);
    InvocationsOfNone(run.events);
  }

  /** A known agent name invokes exactly its own gateway, once, on that
      gateway's endpoint, with the whole conversation and the decision's
      instructions unchanged. */
  lemma KnownAgentInvokesOnlyItsGateway(cfg: Config, request: Request, up: Upstream, g: Gateway)
    requires up.decision.Success? && SelectGateway(up.decision.value.decision.agentName) == Success(g)
    ensures var run := Pipeline(cfg, request, up);
            && Invocations(run.events) == [g]
            && |run.events| >= 6
            && run.events[5] == AgentInvoked(g, GatewayEndpoint(cfg, g), request.messages, up.decision.value.decision.additionalInstructions)
  {
    var run := Pipeline(cfg, request, up);
    var reply := up.decision.value;
    var invoked := InvocationEvent(cfg, request, reply.decision, g);
    var pre := [StageOpened(CoordinationStage), DecisionEvent(cfg, request),
                StageAppended(CoordinationStage, Fenced(reply.json)), StageClosed(CoordinationStage),
                StageOpened(CallStage(reply.decision.agentName))];
    var rest := match GatewayReply(up, g)
                case Failure(_) => []
                case Success(agent) => [StageClosed(CallStage(reply.decision.agentName)), SynthesisEvent(cfg, request, agent)];
    assert run.events == pre + [invoked] + rest;
    InvocationsOfNone(pre);
    InvocationsOfNone(rest);
    assert Invocations([invoked]) == [g] by {
      assert [invoked][..0] == [];
    }
    InvocationsAppend(pre, [invoked]);
    InvocationsAppend(pre + [invoked], rest);
  }

  /** At most one agent is invoked per request, and exactly one when the
      request succeeds. */
  lemma AtMostOneAgent(cfg: Config, request: Request, up: Upstream)
    ensures |Invocations(Pipeline(cfg, request, up).events)| <= 1
    ensures Pipeline(cfg, request, up).result.Success? ==> |Invocations(Pipeline(cfg, request, up).events)| == 1
  {
    var run := Pipeline(cfg, request, up);
    if up.decision.Failure? {
      InvocationsOfNone(run.events);
    } else {
      match SelectGateway(up.decision.value.decision.agentName)
      case Failure(_) =>
        UnknownAgentRaisesBeforeAnyCall(cfg, request, up);
      case Success(g) =>
        KnownAgentInvokesOnlyItsGateway(cfg, request, up, g);
    }
  }

  /** A failing gateway ends the request with its error: its Call stage stays
      open, the synthesis is never requested and the caller gets nothing. */
  lemma AgentFailureStopsSynthesis(cfg: Config, request: Request, up: Upstream, g: Gateway)
    requires up.decision.Success? && SelectGateway(up.decision.value.decision.agentName) == Success(g)
    requires GatewayReply(up, g).Failure?
    ensures var run := Pipeline(cfg, request, up);
            && run.result == GatewayReply(up, g)
            && |run.events| == 6 && run.events[5].AgentInvoked?
            && run.events[4] == StageOpened(CallStage(up.decision.value.decision.agentName))
            && StageClosed(CallStage(up.decision.value.decision.agentName)) !in run.events
            && !SynthesisIssued(run.events)
            && run.output == []
  {
    var run := Pipeline(cfg, request, up);
    var name := up.decision.value.decision.agentName;
    CallStageIsNotCoordinationStage(name);
    assert forall k :: 0 <= k < |run.events| ==> run.events[k] != StageClosed(CallStage(name));
    assert forall k :: 0 <= k < 6 ==> !run.events[k].SynthesisRequested?;
  }

  /** Once the agent has answered, the caller receives exactly the stream's
      non-empty deltas, in order, whether or not the stream then fails; the
      request succeeds exactly when the stream ends normally, and then its
      message is the Assistant's, its text is what the caller received, and its
      custom content is the agent's. */
  lemma SynthesisOutcome(cfg: Config, request: Request, up: Upstream, g: Gateway)
    requires up.decision.Success? && SelectGateway(up.decision.value.decision.agentName) == Success(g)
    requires GatewayReply(up, g).Success?
    ensures var run := Pipeline(cfg, request, up);
            && |run.events| == 8
            && run.events[6] == StageClosed(CallStage(up.decision.value.decision.agentName))
            && run.events[7] == SynthesisRequested(cfg.deploymentName, SynthesisPrompt(request.messages, cfg.finalPrompt, GatewayReply(up, g).value.content))
            && run.output == Fragments(up.stream)
            && (run.result.Success? <==> up.streamEnd.None?)
            && (up.streamEnd.Some? ==> run.result == Failure(up.streamEnd.value))
            && (run.result.Success? ==>
                  run.result.value == Message(Assistant, Concat(run.output), GatewayReply(up, g).value.customContent, []))
  {
  }

  /** Success implies the complete phase sequence, in order. */
  lemma SuccessRunsEveryPhase(cfg: Config, request: Request, up: Upstream)
    requires Pipeline(cfg, request, up).result.Success?
    ensures up.decision.Success? && SelectGateway(up.decision.value.decision.agentName).Success?
    ensures var run := Pipeline(cfg, request, up);
            var d := up.decision.value.decision;
            var g := SelectGateway(d.agentName).value;
            run.events == [StageOpened(CoordinationStage),
                           DecisionRequested(cfg.deploymentName, History(request.messages, cfg.coordinationPrompt)),
                           StageAppended(CoordinationStage, Fenced(up.decision.value.json)),
                           StageClosed(CoordinationStage),
                           StageOpened(CallStage(d.agentName)),
                           AgentInvoked(g, GatewayEndpoint(cfg, g), request.messages, d.additionalInstructions),
                           StageClosed(CallStage(d.agentName)),
                           SynthesisRequested(cfg.deploymentName, SynthesisPrompt(request.messages, cfg.finalPrompt, GatewayReply(up, g).value.content))]
  {
  }

  // ---------------------------------------------------------------------------
  // Two concrete requests

  const Jane := Request([Message(User, "Create a new account for Jane", None, [])])
  const AccountCreated := Message(Assistant, "Account created", Some(CustomContent([Field("id", Some("42"))])), [])

  const Ready := "Account ready"
  const ForJane := " for Jane."

  function JaneUpstream(umsReply: Result<Message>): Upstream
  {
    Upstream(Success(DecisionReply(Decision(UMS, "create account for Jane"), "{}")),
             Failure(External("not reachable")),
             umsReply,
             [TextOnly(Ready), TextOnly(ForJane)],
             None)
  }

  /** The UMS agent is called with the decision's instructions, and the final
      message joins the streamed fragments and carries the agent's custom
      content verbatim. */
  lemma JaneAccountScenario(cfg: Config)
    ensures var run := Pipeline(cfg, Jane, JaneUpstream(Success(AccountCreated)));
            && Invocations(run.events) == [UMSGateway]
            && run.events[5] == AgentInvoked(UMSGateway, cfg.umsAgentEndpoint, Jane.messages, "create account for Jane")
            && run.output == [Ready, ForJane]
            && run.result == Success(Message(Assistant, Ready + ForJane, Some(CustomContent([Field("id", Some("42"))])), []))
  {
    var up := JaneUpstream(Success(AccountCreated));
    KnownAgentInvokesOnlyItsGateway(cfg, Jane, up, UMSGateway);
    SynthesisOutcome(cfg, Jane, up, UMSGateway);
    TwoTextChunks(Ready, ForJane);
  }

  /** When the UMS gateway fails, no synthesis is ever requested and the
      request fails with the gateway's error. */
  lemma JaneGatewayFailure(cfg: Config)
    ensures var run := Pipeline(cfg, Jane, JaneUpstream(Failure(External("timeout"))));
            && run.result == Failure(External("timeout"))
            && !SynthesisIssued(run.events)
  {
    AgentFailureStopsSynthesis(cfg, Jane, JaneUpstream(Failure(External("timeout"))), UMSGateway);
  }
}
