# Manim agent loop — a Dafny model

This project models the agent loop of `chc_manim_agent_OpenAI_v1.py`. That
script asks an OpenAI model to write Manim animation code. It offers the
model three tools: `generate_manim_code`, `run_manim_code` and
`get_manim_configuration`. It renders the code with the Manim command-line
renderer and repeats until a render succeeds or the compute budget runs out.

The model turns that loop into a pure state machine:

- **State** (`AgentLoop.State`): the `compute_iterations` counter, the
  `consecutive_non_tool_responses` counter and the append-only conversation.
  `AgentLoop.Initial` is the state before the loop starts
  (chc_manim_agent_OpenAI_v1.py:272-279): the system prompt, the filled-in
  user request, and both counters at 0.
- **Events** (`AgentLoop.Event`): a reply from the model service, plus what
  the dispatched tool observed. A reply is a failed request or a list of
  choices. Each choice holds optional text and a list of tool calls. The tool
  observations are whether the JSON arguments validated, the generated code,
  the render outcome and the configuration report.
- **Step** (`AgentLoop.Step`): one iteration of `while True`. It advances the
  counter, checks the budget, sends one request and handles the reply.
- **Run** (`AgentLoop.Run`): `Step` folded over a sequence of events. It
  stops at the first verdict: `Success`, `BudgetExhausted` or `Fatal`.

Alongside the loop there are pure string functions (`ManimTools`):

- the `MANIM_QUALITY` → renderer-flag lookup;
- the text `run_manim_code` returns for each render outcome;
- the `OPENAI_API_KEY` format check.

The loop's success test is Python's substring operator. It is modelled as
`Text.Contains` and related to a reference definition.

Modules and files:

- `wrappers.dfy`: `Option`.
- `text.dfy`: the substring test and ASCII lower-casing.
- `manim_tools.dfy`: quality flag, run-result text, success test, API key.
- `agent_loop.dfy`: the data model, `Dispatch`, `Respond`, `Step`, `Run`.
- `loop_properties.dfy`: lemmas about budget, turns and success, and
  worked examples of a successful and a failing render.

Behaviour the model pins down, as the code does it:

- The counter is incremented *before* it is compared with `--compute`. So a
  budget of `compute` allows at most `compute - 1` model requests, and a
  budget of 1 or less allows none.
- A run of the renderer counts as a success when its result text contains
  `"successful"`. So a failure whose stderr says `"unsuccessful"` also ends
  the loop successfully.
- After a free-text reply, further free-text replies are dropped without a
  trace until the next tool call, which resets the non-tool counter
  (chc_manim_agent_OpenAI_v1.py:308). Until that tool call, requests carry
  `tool_choice="auto"`, which permits a tool call but does not force one.

Where the script's own text and its code disagree, the model follows the
code:

- The help text of `--compute` (chc_manim_agent_OpenAI_v1.py:245) calls it
  the "Maximum number of agent loops". The code makes only `compute - 1`
  requests.
- The comment at chc_manim_agent_OpenAI_v1.py:289 and the console messages
  at :381 and :385 say tool use is forced after a free-text reply. The code
  at :290 passes `"auto"`, which does not force it. Until the next tool
  call, the `continue` at :382 silently skips any further free-text reply.

## Model

| member | source | states |
|---|---|---|
| Text.ContainsIffOccurs | chc_manim_agent_OpenAI_v1.py:352 | The scanning substring test used for Python's `in` holds exactly when the needle occurs at some index of the haystack. |
| ManimTools.QualityFlag | chc_manim_agent_OpenAI_v1.py:82-87 | The flag is one of `-ql`, `-qm`, `-qh`. It is `-ql` exactly for a setting that lower-cases to "low" and `-qh` exactly for "high". Every other setting gives `-qm`, and so does an unset variable. |
| ManimTools.QualityFlagIgnoresCase | chc_manim_agent_OpenAI_v1.py:82 | The chosen flag depends on the setting only up to letter case. |
| ManimTools.RunResultMessage | chc_manim_agent_OpenAI_v1.py:112-123 | The success text is produced exactly for exit status 0. A nonzero exit keeps stderr verbatim after "Manim execution failed: ". A launch exception keeps its message after "Error running Manim: ". |
| ManimTools.RunResultSuccessIff | chc_manim_agent_OpenAI_v1.py:112-123 | A run result contains "successful" exactly when the exit status is 0, or the stderr of a failed run or the launch-error message itself contains "successful". |
| ManimTools.UnsuccessfulReadsAsSuccess | chc_manim_agent_OpenAI_v1.py:117-119 | A render that exits with status 1 and reports "Rendering unsuccessful" produces a result text the loop's success test accepts. |
| ManimTools.ValidateApiKey | chc_manim_agent_OpenAI_v1.py:149-158 | The key is accepted exactly when it is set and starts with "sk-", and it is then returned unchanged. Otherwise the process exits with status 1. The "missing" exit happens exactly for an unset or empty key. |
| AgentLoop.Dispatch | chc_manim_agent_OpenAI_v1.py:329-377 | Dispatch ends the loop exactly for a valid `run_manim_code` call whose result contains "successful". It escapes as an unknown function exactly for names outside the three tools. A valid call's payload is the generated code with the CLI scene name, the run-result text, or the configuration report. A generation or configuration exception escapes as fatal, and exactly then. An argument error is produced exactly for invalid arguments to a known tool. |
| AgentLoop.Respond | chc_manim_agent_OpenAI_v1.py:303-398 | Handling a reply never changes the counter and only appends to the conversation, at most two messages. It keeps the non-tool counter at 0 or 1. |
| AgentLoop.Step | chc_manim_agent_OpenAI_v1.py:280-301 | A request is sent exactly when the incremented counter is still below `compute`. The request carries the current conversation, and its `tool_choice` is unset exactly when the non-tool counter is 0. Otherwise the loop stops with `BudgetExhausted` at the incremented count. Every iteration advances the counter by one and only extends the conversation. |
| AgentLoop.Run | chc_manim_agent_OpenAI_v1.py:277-286 | A run sends at most `compute - 1 - iterations` requests, or none when that is not positive. The conversation only grows, by at most two messages per request, and the non-tool counter stays at 0 or 1. A budget verdict reports the count reached, which is at least `compute`. |
| LoopProperties.BudgetIsTight | chc_manim_agent_OpenAI_v1.py:280-286 | Given enough replies that never end the loop, exactly `compute - 1 - iterations` requests are sent (none when that is not positive), and then the budget exception is raised. |
| LoopProperties.RequestsFromStart | chc_manim_agent_OpenAI_v1.py:272-286 | A run from the initial state sends at most `compute - 1` requests, and every request's conversation opens with the system prompt and the user request. |
| LoopProperties.RequestsExtend | chc_manim_agent_OpenAI_v1.py:292-301 | Every request a run sends carries, as a prefix, the conversation the run started from. |
| LoopProperties.NoChoicesChangeNothing | chc_manim_agent_OpenAI_v1.py:303 | A reply with an empty list of choices leaves the counters and the conversation unchanged; only the iteration is used up. |
| LoopProperties.NoRequestWithinUnitBudget | chc_manim_agent_OpenAI_v1.py:282-286 | With `compute <= 1`, the loop raises "Maximum compute loops reached" at count 1 before any model request. |
| LoopProperties.RunEndsWithinBudget | chc_manim_agent_OpenAI_v1.py:280-286 | Given as many replies as the budget allows, every run reaches a verdict. |
| LoopProperties.ToolCallTurn | chc_manim_agent_OpenAI_v1.py:307-365 | In a tool-call turn, the non-tool counter becomes 0 and one assistant message recording the first call is appended. A successful dispatch then appends exactly one tool message answering that call id, and the loop ends (with success) exactly when dispatch says so. If dispatch raises, the turn is fatal. |
| LoopProperties.OnlyFirstCallDispatched | chc_manim_agent_OpenAI_v1.py:307-312 | Two replies whose first tool calls agree are handled identically. Later calls and the text content are ignored. |
| LoopProperties.FirstFreeTextRecorded | chc_manim_agent_OpenAI_v1.py:384-398 | The first free-text reply sets the counter to 1 and appends exactly one assistant message. That message is the reply text, or "Error: No response content provided" when the text is missing or empty. |
| LoopProperties.RepeatedFreeTextDropped | chc_manim_agent_OpenAI_v1.py:379-382 | While the non-tool counter is above 0, a free-text reply changes nothing except the iteration count. |
| LoopProperties.ThreeFreeTextTurns | chc_manim_agent_OpenAI_v1.py:288-290 | After free-text replies, the first request has `tool_choice` unset and the later ones "auto". Three free-text replies in a row leave a single assistant message. |
| LoopProperties.InvalidArgumentsInvokeNothing | chc_manim_agent_OpenAI_v1.py:370-377 | For invalid arguments to a known tool, dispatch does not depend on any tool's output. It yields one error payload, "Argument validation failed for <name>: <detail>", and the loop continues. |
| LoopProperties.UnknownFunctionIsFatal | chc_manim_agent_OpenAI_v1.py:367-368 | An unknown function name makes the turn fatal after the assistant call message has been appended. |
| LoopProperties.MalformedRepliesAreFatal | chc_manim_agent_OpenAI_v1.py:292-305 | A failed model request, or a reply with more than one choice, is fatal and leaves the conversation unchanged. |
| LoopProperties.StepSucceedsIff | chc_manim_agent_OpenAI_v1.py:342-354 | An iteration ends in success exactly when all of these hold: the budget allows a request; the first tool call of the single choice is `run_manim_code` with valid arguments; and the render exited 0 or left a diagnostic containing "successful". Generate and configuration calls never end the loop. |
| LoopProperties.SuccessEndsOnLastRequest | chc_manim_agent_OpenAI_v1.py:352-354 | A successful run has sent at least one request and ends in the iteration of its last request. |
| LoopProperties.CircleScenarioSucceeds | chc_manim_agent_OpenAI_v1.py:331-354 | With budget 25: a generate call is answered with code tagged "circleScene", and a run call that exits with status 0 then ends the loop successfully after two requests. |
| LoopProperties.FailedRenderContinues | chc_manim_agent_OpenAI_v1.py:342-351 | A render that fails with a diagnostic not mentioning "successful" appends the assistant call and the prefixed diagnostic, and the loop continues. |
| LoopProperties.UndefinedNameDiagnosticIsFailure | chc_manim_agent_OpenAI_v1.py:115-119 | A nonzero exit with diagnostic "undefined name 'circl'" is not read as success. |

## Left out

- The OpenAI chat-completion calls, in the loop and in `generate_manim_code`, are network calls. Their replies, and any exception they raise, are inputs of each event.
- `subprocess.run` of the renderer, the write of `temp_manim_scene.py` and its removal in `finally` are process and file I/O. Only the map from the exit status, stderr or launch exception to the result text is kept. The renderer's argument vector, which carries the quality flag, is not modelled. An exception raised by the cleanup itself is not modelled.
- `get_manim_configuration` returns the renderer's stdout verbatim. It is an input (`World.configuration`); an exception from launching it escapes as a fatal error.
- Pydantic's JSON validation is a library that is not part of this model. It is the `argsValid` flag with an opaque error detail.
- The content of the agent prompt template is left out. `UserRequest(prompt)` stands for the template with the request filled in.
- Tool messages hold structured payloads (`Payload`) rather than their `json.dumps` text.
- A generated code value of `None` is not modelled. Generation yields a string or raises.
- The argument parsing, prompt-file reading with its latin-1 fallback, `.env` loading, UTF-8 stream rewiring, locale override and console logging are plumbing.
- The budget exception's message text is not modelled. `BudgetExhausted` carries the two numbers it prints.
- `chc_manim_agent_cosmicanimation.py` and the `manim_scenes/` files are declarative scene content with no control logic.
- The `assert` on the number of choices (chc_manim_agent_OpenAI_v1.py:304) is modelled as always active. Running Python with `-O` removes it, and that mode is not modelled.
- Failures of the rich console itself are not modelled. Its markup parser raises on an unmatched closing tag such as `[/b]`. Such a tag can reach it through free text (:388), call arguments (:327) or renderer stderr (:118, raised again from the handler at :122). The script then ends the turn as fatal, while the model records the text and continues.
- ManimTools.QualityFlag: lower-cases ASCII letters only, where Python's `str.lower` maps all of Unicode. The only non-ASCII characters whose lower-case forms are ASCII letters are U+212A, which lowers to `k`, and U+0130, which lowers to `i` plus a combining dot. Neither can produce "low", "medium" or "high", so the chosen flag is the same.
