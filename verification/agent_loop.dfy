/** The agent loop of the Manim agent as a pure state machine.

    Every contact with the outside world is an input: the model's reply to a
    request, and what the dispatched tool observed (whether its JSON
    arguments validated, the generated code, the render outcome, the
    configuration report). A loop iteration is `Step`; `Run` folds `Step`
    over a sequence of such events. */
module AgentLoop {
  import opened Wrappers
  import opened Text
  import opened ManimTools

  /** A structured call issued by the model: call id, function name and the
      raw JSON argument text. */
  datatype ToolCall = ToolCall(id: string, name: string, arguments: string)

  /** One choice of a chat completion: optional free text and a possibly
      empty list of tool calls. */
  datatype Choice = Choice(content: Option<string>, toolCalls: seq<ToolCall>)

  /** The model service either failed to answer or returned some choices. */
  datatype Reply =
    | RequestFailed(error: string)
    | Response(choices: seq<Choice>)

  /** An external call that returns a value or raises an exception. */
  datatype Effect<T> = Returned(value: T) | Raised(error: string)

  /** What the tools would observe if dispatched during this iteration. */
  datatype World = World(
    argsValid: bool,
    validationDetail: string,
    generation: Effect<string>,
    render: RunOutcome,
    configuration: Effect<string>)

  /** The input of one loop iteration. */
  datatype Event = Event(reply: Reply, world: World)

  /** The JSON object carried by a tool message, as a structured value. */
  datatype Payload =
    | Generated(result: string, sceneName: string)
    | Output(result: string)
    | ArgumentError(error: string)

  /** Conversation entries. `UserRequest` stands for the agent prompt
      template filled in with the user's request. */
  datatype Message =
    | System(content: string)
    | UserRequest(request: string)
    | AssistantCall(call: ToolCall)
    | AssistantText(content: string)
    | ToolReply(callId: string, payload: Payload)

  /** `tool_choice` of a request: left unset, or "auto". */
  datatype ToolChoice = Unset | Auto

  /** What the loop sends to the model service. */
  datatype Request = Request(toolChoice: ToolChoice, conversation: seq<Message>)

  /** Loop variables: iterations started, consecutive non-tool replies, and
      the conversation so far. */
  datatype State = State(iterations: nat, nonTool: nat, messages: seq<Message>)

  /** Command-line settings the loop reads: the compute budget and the
      scene name. */
  datatype Config = Config(compute: int, scene: string)

  datatype FatalCause =
    | ModelRequestFailed(error: string)
    | ChoiceCountNotOne(count: nat)
    | UnknownFunction(name: string)
    | ToolRaised(error: string)

  /** How a run of the loop ends. */
  datatype Verdict =
    | Success
    | BudgetExhausted(reached: nat, compute: int)
    | Fatal(cause: FatalCause)

  /** After an iteration the loop goes on, or it has ended. */
  datatype Outcome =
    | Continue(state: State)
    | Done(verdict: Verdict, state: State)

  /** One iteration: the request it sent, if any, and where it left the loop. */
  datatype StepResult = StepResult(sent: Option<Request>, outcome: Outcome)

  /** A run over several events: every request sent, and the final outcome.
      `Continue` at the end means the loop is waiting for another reply. */
  datatype Trace = Trace(requests: seq<Request>, outcome: Outcome)

  /** Result of dispatching a tool call: a tool message payload together with
      whether the loop returns successfully, or an exception that escapes. */
  datatype Dispatched =
    | Replied(payload: Payload, finished: bool)
    | Escaped(cause: FatalCause)

  const SystemPrompt: string := "You are a Manim animation expert that helps create and debug Manim code."
  const MissingContentText: string := "Error: No response content provided"

  /** The loop's variables before the first iteration. */
  function Initial(prompt: string): State {
    State(0, 0, [System(SystemPrompt), UserRequest(prompt)])
  }

  /** True when the iteration about to start may still query the model: the
      counter is incremented first and compared with the budget after. */
  predicate WithinBudget(cfg: Config, st: State) {
    st.iterations + 1 < cfg.compute
  }

  /** Number of model requests the budget still allows from `st`. */
  function Remaining(cfg: Config, st: State): nat {
    if cfg.compute - 1 - st.iterations > 0 then cfg.compute - 1 - st.iterations else 0
  }

  /** The end of an iteration that finds the budget spent: the counter has
      been advanced and the exception names the count it reached. */
  function Exhausted(cfg: Config, st: State): Outcome {
    var advanced := st.(iterations := st.iterations + 1);
    Done(BudgetExhausted(advanced.iterations, cfg.compute), advanced)
  }

  /** The `tool_choice` sent with a request. */
  function ChoiceFor(nonTool: nat): ToolChoice {
    if nonTool == 0 then Unset else Auto
  }

  /** Text of the tool message for arguments that fail validation. */
  function ValidationErrorText(name: string, detail: string): string {
    "Argument validation failed for " + name + ": " + detail
  }

  /** The payload reporting rejected arguments of `call`. */
  function Rejected(call: ToolCall, world: World): Dispatched {
    Replied(ArgumentError(ValidationErrorText(call.name, world.validationDetail)), false)
  }

  /** Dispatch of the first tool call by its function name. Arguments are
      validated before the tool runs; a validation failure becomes an error
      payload, while an unknown name or an exception raised by a tool
      escapes. A valid call's payload carries what the tool produced: the
      generated code with the scene name, the run-result text, or the
      configuration report. Only a `run_manim_code` result that mentions
      "successful" ends the loop. */
  function Dispatch(cfg: Config, call: ToolCall, world: World): (d: Dispatched)
    ensures d.Replied? && d.finished <==>
              call.name == RunToolName && world.argsValid
              && ReportsSuccess(RunResultMessage(world.render))
    ensures d.Escaped? && d.cause.UnknownFunction? <==>
              call.name != GenerateToolName && call.name != RunToolName
              && call.name != ConfigToolName
    ensures d.Replied? && d.payload.Generated? ==> d.payload.sceneName == cfg.scene
    ensures d.Replied? && d.payload.ArgumentError? <==>
              !world.argsValid && call.name in {GenerateToolName, RunToolName, ConfigToolName}
    ensures call.name == GenerateToolName && world.argsValid && world.generation.Returned? ==>
              d == Replied(Generated(world.generation.value, cfg.scene), false)
    ensures d.Replied? && d.payload.Generated? ==>
              call.name == GenerateToolName && world.generation == Returned(d.payload.result)
    ensures call.name == RunToolName && world.argsValid ==>
              d == Replied(Output(RunResultMessage(world.render)),
                           ReportsSuccess(RunResultMessage(world.render)))
    ensures call.name == ConfigToolName && world.argsValid && world.configuration.Returned? ==>
              d == Replied(Output(world.configuration.value), false)
    ensures d.Escaped? && d.cause.ToolRaised? <==>
              world.argsValid
              && ((call.name == GenerateToolName && world.generation.Raised?)
                  || (call.name == ConfigToolName && world.configuration.Raised?))
    ensures d.Escaped? && d.cause.ToolRaised? ==>
              d.cause.error == (if call.name == GenerateToolName then world.generation.error
                                else world.configuration.error)
  {
    if call.name == GenerateToolName then
      if !world.argsValid then Rejected(call, world)
      else
        match world.generation
        case Returned(code) => Replied(Generated(code, cfg.scene), false)
        case Raised(error) => Escaped(ToolRaised(error))
    else if call.name == RunToolName then
      if !world.argsValid then Rejected(call, world)
      else
        var result := RunResultMessage(world.render);
        Replied(Output(result), ReportsSuccess(result))
    else if call.name == ConfigToolName then
      if !world.argsValid then Rejected(call, world)
      else
        match world.configuration
        case Returned(report) => Replied(Output(report), false)
        case Raised(error) => Escaped(ToolRaised(error))
    else
      Escaped(UnknownFunction(call.name))
  }

  /** The assistant text recorded for a free-text reply: its content, or a
      fixed error text when the content is missing or empty. */
  function TextOrPlaceholder(content: Option<string>): string {
    if content.Some? && content.value != "" then content.value else MissingContentText
  }

  /** Handling of one model reply, in a state whose counter has already been
      advanced. */
  function Respond(cfg: Config, st: State, ev: Event): (o: Outcome)
    ensures o.state.iterations == st.iterations
    ensures st.messages <= o.state.messages
    ensures |o.state.messages| <= |st.messages| + 2
    ensures st.nonTool <= 1 ==> o.state.nonTool <= 1
  {
    match ev.reply
    case RequestFailed(error) => Done(Fatal(ModelRequestFailed(error)), st)
    case Response(choices) =>
      if |choices| == 0 then Continue(st)
      else if |choices| != 1 then Done(Fatal(ChoiceCountNotOne(|choices|)), st)
      else
        var choice := choices[0];
        if |choice.toolCalls| > 0 then
          var call := choice.toolCalls[0];
          var called := st.(nonTool := 0, messages := st.messages + [AssistantCall(call)]);
          match Dispatch(cfg, call, ev.world)
          case Escaped(cause) => Done(Fatal(cause), called)
          case Replied(payload, finished) =>
            var replied := called.(messages := called.messages + [ToolReply(call.id, payload)]);
            if finished then Done(Success, replied) else Continue(replied)
        else if st.nonTool > 0 then
          Continue(st)
        else
          Continue(st.(nonTool := st.nonTool + 1,
                       messages := st.messages + [AssistantText(TextOrPlaceholder(choice.content))]))
  }

  /** One loop iteration: advance the counter, stop if the budget is spent,
      otherwise send a request and handle the reply. A request is sent
      exactly when the budget allows it; it carries the conversation so far
      and leaves `tool_choice` unset exactly when no free-text reply is
      pending. */
  function Step(cfg: Config, st: State, ev: Event): (r: StepResult)
    ensures r.sent.Some? <==> WithinBudget(cfg, st)
    ensures r.sent.Some? ==> r.sent.value.conversation == st.messages
    ensures r.sent.Some? ==> (r.sent.value.toolChoice == Unset <==> st.nonTool == 0)
    ensures r.sent.None? ==>
              r.outcome == Done(BudgetExhausted(st.iterations + 1, cfg.compute), r.outcome.state)
              && r.outcome.state.messages == st.messages
    ensures r.outcome.state.iterations == st.iterations + 1
    ensures st.messages <= r.outcome.state.messages
    ensures |r.outcome.state.messages| <= |st.messages| + 2
    ensures st.nonTool <= 1 ==> r.outcome.state.nonTool <= 1
  {
    if !WithinBudget(cfg, st) then StepResult(None, Exhausted(cfg, st))
    else
      StepResult(Some(Request(ChoiceFor(st.nonTool), st.messages)),
                 Respond(cfg, st.(iterations := st.iterations + 1), ev))
  }

  /** The loop run over a sequence of replies. It stops at the first verdict
      and waits (ends in `Continue`) when the replies run out first. The
      number of requests never exceeds what the budget allows, the
      conversation only grows, and the non-tool counter stays 0 or 1. */
  function Run(cfg: Config, st: State, events: seq<Event>): (t: Trace)
    ensures |t.requests| <= Remaining(cfg, st)
    ensures st.messages <= t.outcome.state.messages
    ensures |t.outcome.state.messages| <= |st.messages| + 2 * |t.requests|
    ensures st.nonTool <= 1 ==> t.outcome.state.nonTool <= 1
    ensures t.outcome.Continue? ==>
              t.outcome.state.iterations == st.iterations + |t.requests|
              && |t.requests| <= |events|
    ensures t.outcome.Done? && t.outcome.verdict.BudgetExhausted? ==>
              t.outcome.verdict.reached == st.iterations + |t.requests| + 1
              && t.outcome.verdict.reached >= cfg.compute
    decreases |events|
  {
    if !WithinBudget(cfg, st) then Trace([], Exhausted(cfg, st))
    else if |events| == 0 then Trace([], Continue(st))
    else
      var r := Step(cfg, st, events[0]);
      match r.outcome
      case Done(_, _) => Trace([r.sent.value], r.outcome)
      case Continue(next) =>
        var rest := Run(cfg, next, events[1..]);
        Trace([r.sent.value] + rest.requests, rest.outcome)
  }
}
