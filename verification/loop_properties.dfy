/** Properties of the agent loop: the iteration budget, the handling of each
    kind of model reply, the success test, and worked examples of a
    successful and a failing render. */
module LoopProperties {
  import opened Wrappers
  import opened Text
  import opened ManimTools
  import opened AgentLoop

  /** A reply without choices: the loop neither records nor dispatches
      anything and only uses up an iteration. */
  predicate Idle(ev: Event) {
    ev.reply == Response([])
  }

  /** The budget bound of `Run` is reached: when every reply is idle and
      there are enough of them, the loop sends exactly `compute - 1 -
      iterations` requests (none when that is not positive) and then stops
      with the budget exhausted. */
  lemma {:induction false} BudgetIsTight(cfg: Config, st: State, events: seq<Event>)
    requires forall k :: 0 <= k < |events| ==> Idle(events[k])
    requires |events| >= Remaining(cfg, st)
    ensures |Run(cfg, st, events).requests| == Remaining(cfg, st)
    ensures Run(cfg, st, events).outcome.Done?
    ensures Run(cfg, st, events).outcome.verdict
              == BudgetExhausted(st.iterations + Remaining(cfg, st) + 1, cfg.compute)
    decreases |events|
  {
    if WithinBudget(cfg, st) {
      var next := st.(iterations := st.iterations + 1);
      assert Step(cfg, st, events[0]).outcome == Continue(next);
      BudgetIsTight(cfg, next, events[1..]);
    }
  }

  /** Every request of a run that starts from the script's initial state
      opens with the system prompt and the filled-in user request, and such
      a run sends at most `compute - 1` requests. */
  lemma RequestsFromStart(cfg: Config, prompt: string, events: seq<Event>)
    ensures var t := Run(cfg, Initial(prompt), events);
            && |t.requests| <= (if cfg.compute > 1 then cfg.compute - 1 else 0)
            && forall k :: 0 <= k < |t.requests| ==>
                 [System(SystemPrompt), UserRequest(prompt)] <= t.requests[k].conversation
  {
    RequestsExtend(cfg, Initial(prompt), events);
  }

  /** Every request of a run carries the conversation the run started from. */
  lemma {:induction false} RequestsExtend(cfg: Config, st: State, events: seq<Event>)
    ensures forall k :: 0 <= k < |Run(cfg, st, events).requests| ==>
              st.messages <= Run(cfg, st, events).requests[k].conversation
    decreases |events|
  {
    if WithinBudget(cfg, st) && |events| > 0 {
      var r := Step(cfg, st, events[0]);
      if r.outcome.Continue? {
        var next := r.outcome.state;
        RequestsExtend(cfg, next, events[1..]);
        var rest := Run(cfg, next, events[1..]);
        assert Run(cfg, st, events).requests == [r.sent.value] + rest.requests;
        forall k | 1 <= k < |Run(cfg, st, events).requests|
          ensures st.messages <= Run(cfg, st, events).requests[k].conversation
        {
          assert Run(cfg, st, events).requests[k] == rest.requests[k - 1];
        }
      }
    }
  }

  /** A reply without choices leaves the loop variables as they were. */
  lemma NoChoicesChangeNothing(cfg: Config, st: State, world: World)
    ensures Respond(cfg, st, Event(Response([]), world)) == Continue(st)
  {
  }

  /** With a budget of one or less the loop raises before its first request. */
  lemma NoRequestWithinUnitBudget(cfg: Config, prompt: string, events: seq<Event>)
    requires cfg.compute <= 1
    ensures Run(cfg, Initial(prompt), events).requests == []
    ensures Run(cfg, Initial(prompt), events).outcome.verdict == BudgetExhausted(1, cfg.compute)
  {
  }

  /** Given as many replies as the budget allows, the loop always reaches a
      verdict: it never asks for more than `compute - 1` replies in all. */
  lemma {:induction false} RunEndsWithinBudget(cfg: Config, st: State, events: seq<Event>)
    requires |events| >= Remaining(cfg, st)
    ensures Run(cfg, st, events).outcome.Done?
    decreases |events|
  {
    if WithinBudget(cfg, st) {
      var r := Step(cfg, st, events[0]);
      if r.outcome.Continue? {
        RunEndsWithinBudget(cfg, r.outcome.state, events[1..]);
      }
    }
  }

  /** A tool-call turn: the non-tool counter drops to 0, one assistant
      message recording the first call is appended, and then exactly one
      tool message answering that call, unless dispatch raised, which is
      fatal. The loop ends successfully exactly when dispatch says so. */
  lemma ToolCallTurn(cfg: Config, st: State, choice: Choice, world: World)
    requires |choice.toolCalls| > 0
    ensures var o := Respond(cfg, st, Event(Response([choice]), world));
            var call := choice.toolCalls[0];
            && o.state.nonTool == 0
            && o.state.iterations == st.iterations
            && match Dispatch(cfg, call, world)
               case Replied(payload, finished) =>
                 && o.state.messages == st.messages + [AssistantCall(call), ToolReply(call.id, payload)]
                 && (o.Done? <==> finished)
                 && (o.Done? ==> o.verdict == Success)
               case Escaped(cause) =>
                 o == Done(Fatal(cause), o.state)
                 && o.state.messages == st.messages + [AssistantCall(call)]
  {
  }

  /** Only the first tool call of a reply is looked at: two replies whose
      first calls agree are handled identically, whatever else they hold. */
  lemma OnlyFirstCallDispatched(cfg: Config, st: State, a: Choice, b: Choice, world: World)
    requires |a.toolCalls| > 0 && |b.toolCalls| > 0
    requires a.toolCalls[0] == b.toolCalls[0]
    ensures Respond(cfg, st, Event(Response([a]), world))
            == Respond(cfg, st, Event(Response([b]), world))
  {
  }

  /** The first free-text reply sets the counter to 1 and records one
      assistant message: the reply text, or a fixed error text when it is
      missing or empty. */
  lemma FirstFreeTextRecorded(cfg: Config, st: State, choice: Choice, world: World)
    requires |choice.toolCalls| == 0 && st.nonTool == 0
    ensures var o := Respond(cfg, st, Event(Response([choice]), world));
            && o.Continue?
            && o.state.nonTool == 1
            && |o.state.messages| == |st.messages| + 1
            && o.state.messages[..|st.messages|] == st.messages
            && o.state.messages[|st.messages|]
               == AssistantText(if choice.content.Some? && choice.content.value != ""
                                then choice.content.value else MissingContentText)
  {
  }

  /** While a free-text reply is pending, a further free-text reply is
      dropped: nothing is recorded and only an iteration is used. */
  lemma RepeatedFreeTextDropped(cfg: Config, st: State, choice: Choice, world: World)
    requires |choice.toolCalls| == 0 && st.nonTool > 0
    ensures Respond(cfg, st, Event(Response([choice]), world)) == Continue(st)
  {
  }

  /** Three free-text replies in a row leave exactly one assistant message:
      the first is recorded and the other two are dropped. Every request after
      the first carries `tool_choice` "auto", which permits but does not force
      a tool call. */
  lemma ThreeFreeTextTurns(cfg: Config, st: State, first: Event, second: Event)
    requires st.nonTool == 0 && st.iterations + 4 < cfg.compute
    requires first.reply.Response? && |first.reply.choices| == 1
             && |first.reply.choices[0].toolCalls| == 0
    requires second.reply.Response? && |second.reply.choices| == 1
             && |second.reply.choices[0].toolCalls| == 0
    ensures var t := Run(cfg, st, [first, second, first]);
            && |t.requests| == 3
            && t.requests[0].toolChoice == Unset
            && t.requests[1].toolChoice == Auto
            && t.requests[2].toolChoice == Auto
            && t.outcome.Continue?
            && |t.outcome.state.messages| == |st.messages| + 1
  {
    var s1 := Step(cfg, st, first).outcome.state;
    var s2 := Step(cfg, s1, second).outcome.state;
    assert s1.nonTool == 1 && |s1.messages| == |st.messages| + 1;
    assert Step(cfg, s1, second).outcome == Continue(s2) && s2.messages == s1.messages;
    var s3 := s2.(iterations := s2.iterations + 1);
    assert Step(cfg, s2, first).outcome == Continue(s3);
    var t3 := Run(cfg, s2, [first]);
    assert [first][1..] == [];
    assert Run(cfg, s3, []) == Trace([], Continue(s3));
    assert t3.requests == [Step(cfg, s2, first).sent.value] && t3.outcome == Continue(s3);
    var t2 := Run(cfg, s1, [second, first]);
    assert [second, first][1..] == [first];
    assert t2.requests == [Step(cfg, s1, second).sent.value] + t3.requests;
    assert [first, second, first][1..] == [second, first];
    assert Run(cfg, st, [first, second, first]).requests == [Step(cfg, st, first).sent.value] + t2.requests;
  }

  /** Arguments that fail validation never reach a tool: the dispatch does not
      depend on what the tools would have produced, and for a known tool it
      yields one error payload naming the function. */
  lemma InvalidArgumentsInvokeNothing(cfg: Config, call: ToolCall, w1: World, w2: World)
    requires !w1.argsValid && !w2.argsValid && w1.validationDetail == w2.validationDetail
    requires call.name in {GenerateToolName, RunToolName, ConfigToolName}
    ensures Dispatch(cfg, call, w1) == Dispatch(cfg, call, w2)
    ensures Dispatch(cfg, call, w1)
            == Replied(ArgumentError("Argument validation failed for " + call.name + ": "
                                     + w1.validationDetail), false)
  {
  }

  /** An unknown function name is fatal, after the assistant message for the
      call has been recorded. */
  lemma UnknownFunctionIsFatal(cfg: Config, st: State, choice: Choice, world: World)
    requires |choice.toolCalls| > 0
    requires choice.toolCalls[0].name !in {GenerateToolName, RunToolName, ConfigToolName}
    ensures Respond(cfg, st, Event(Response([choice]), world))
            == Done(Fatal(UnknownFunction(choice.toolCalls[0].name)),
                    st.(nonTool := 0, messages := st.messages + [AssistantCall(choice.toolCalls[0])]))
  {
  }

  /** A failed model request, or a reply with more than one choice, is fatal
      and leaves the conversation as it was. */
  lemma MalformedRepliesAreFatal(cfg: Config, st: State, ev: Event)
    requires ev.reply.RequestFailed? || |ev.reply.choices| > 1
    ensures var o := Respond(cfg, st, ev);
            && o.Done? && o.verdict.Fatal?
            && (ev.reply.RequestFailed? <==> o.verdict.cause.ModelRequestFailed?)
            && o.state == st
  {
  }

  /** An iteration ends the loop successfully exactly when the budget allows a
      request, the reply's first tool call is `run_manim_code` with valid
      arguments, and the render exited with status 0 or left a diagnostic
      that mentions "successful". Generate and configuration calls never end
      the loop. */
  lemma StepSucceedsIff(cfg: Config, st: State, ev: Event)
    ensures Step(cfg, st, ev).outcome.Done? && Step(cfg, st, ev).outcome.verdict == Success
            <==>
            && WithinBudget(cfg, st)
            && ev.reply.Response? && |ev.reply.choices| == 1
            && |ev.reply.choices[0].toolCalls| > 0
            && ev.reply.choices[0].toolCalls[0].name == RunToolName
            && ev.world.argsValid
            && ReadAsSuccess(ev.world.render)
  {
    RunResultSuccessIff(ev.world.render);
  }

  /** A run that ends in success ended on the last request it sent. */
  lemma {:induction false} SuccessEndsOnLastRequest(cfg: Config, st: State, events: seq<Event>)
    requires Run(cfg, st, events).outcome.Done?
    requires Run(cfg, st, events).outcome.verdict == Success
    ensures |Run(cfg, st, events).requests| >= 1
    ensures Run(cfg, st, events).outcome.state.iterations == st.iterations + |Run(cfg, st, events).requests|
    decreases |events|
  {
    var r := Step(cfg, st, events[0]);
    if r.outcome.Continue? {
      SuccessEndsOnLastRequest(cfg, r.outcome.state, events[1..]);
    }
  }

  const CircleScene: string := "circleScene"
  const CircleCode: string := "class circleScene(Scene): ..."

  /** A single call to `name`. Whether its arguments validate is decided by
      the `World` it comes with, not by the argument text. */
  function CallEvent(id: string, name: string, world: World): Event {
    Event(Response([Choice(None, [ToolCall(id, name, "{}")])]), world)
  }

  /** Tool observations of a valid call that renders with `render`. */
  function Observed(render: RunOutcome): World {
    World(true, "", Returned(CircleCode), render, Returned(""))
  }

  /** A request to draw a red circle with scene `circleScene`: the generated
      code comes back tagged with the scene name and a render that exits with
      status 0 ends the run successfully after two requests. */
  lemma CircleScenarioSucceeds()
    ensures var cfg := Config(25, CircleScene);
            var t := Run(cfg, Initial("draw a red circle"),
                         [CallEvent("1", GenerateToolName, Observed(Exited(0, ""))),
                          CallEvent("2", RunToolName, Observed(Exited(0, "")))]);
            && |t.requests| == 2
            && t.outcome == Done(Success, t.outcome.state)
            && t.outcome.state.messages[3] == ToolReply("1", Generated(CircleCode, CircleScene))
  {
    var cfg := Config(25, CircleScene);
    var e1 := CallEvent("1", GenerateToolName, Observed(Exited(0, "")));
    var e2 := CallEvent("2", RunToolName, Observed(Exited(0, "")));
    var start := Initial("draw a red circle");
    var generated := start.(iterations := 1,
                            messages := start.messages
                                        + [AssistantCall(ToolCall("1", GenerateToolName, "{}")),
                                           ToolReply("1", Generated(CircleCode, CircleScene))]);
    StepSucceedsIff(cfg, generated, e2);
    assert [e1, e2][1..] == [e2];
  }

  /** A render that fails with a diagnostic such as
      "undefined name 'circl'" that does not mention "successful". The
      diagnostic is recorded after the failure prefix and the loop goes on
      to ask the model again. */
  lemma FailedRenderContinues(cfg: Config, st: State, code: int, diagnostic: string)
    requires WithinBudget(cfg, st)
    requires code != 0 && !Contains(diagnostic, SuccessWord)
    ensures var r := Step(cfg, st, CallEvent("2", RunToolName, Observed(Exited(code, diagnostic))));
            && r.outcome.Continue?
            && r.outcome.state.messages
               == st.messages + [AssistantCall(ToolCall("2", RunToolName, "{}")),
                                 ToolReply("2", Output(FailurePrefix + diagnostic))]
  {
    RunResultSuccessIff(Exited(code, diagnostic));
  }

  /** The diagnostic "undefined name 'circl'" does not mention
      "successful", so `FailedRenderContinues` applies to it. */
  lemma UndefinedNameDiagnosticIsFailure()
    ensures !ReportsSuccess(RunResultMessage(Exited(1, "undefined name 'circl'")))
  {
    var diagnostic := "undefined name 'circl'";
    ContainsPastPrefix(diagnostic, "", SuccessWord);
    assert diagnostic + "" == diagnostic;
    RunResultSuccessIff(Exited(1, diagnostic));
  }
}
