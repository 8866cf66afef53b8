# Sidekick: a verified model of the worker/evaluator loop and the tool registry

Sidekick is a personal co-worker agent. It handles each user submission with
one round of a small state machine. A **worker** language model answers. It
may ask for tools, and a **tools** node runs them and hands control back to
the worker. When the worker answers in plain text, an **evaluator** model
judges the answer against the user's success criteria. It either ends the
round or sends it back to the worker with feedback. Around this loop a
session object keeps a persisted chat memory, the tool list and the browser
handles. Each round takes the visible history as an argument and returns it
extended. The tool list is assembled from constructors. Each optional
constructor turns a failure into an absent tool, and the calculator is
always built.

The model is in Dafny, one module per concern:

- `Wrappers`: `Option` and `Result`.
- `Text`: prefix and infix relations on strings, used to state what a prompt contains.
- `RoundState`: the message kinds, the round state record, the evaluator's
  verdict, the delta a node returns and how it is merged, and the opaque
  collaborators. These are the two models, the tool runner and the clock.
- `Worker`: the worker's instruction, and the system-message rule. It is an
  in-place loop over an `array`, specified by functions on sequences.
  The module also holds the worker pass.
- `Evaluator`: the conversation renderer (a loop that accumulates a string),
  the evaluator's prompt, and the delta built from its verdict.
- `Graph`: the two routers, the edges, one pass per node, and the run of
  the graph under the runtime's step budget.
- `Tools`: the guarded tool constructors, the calculator wrapper that never
  raises, and the step-by-step assembly of the ordered tool list with the
  browser group.
- `Session`: seeding a round from the persisted memory, and the bookkeeping
  after a round. The `Sidekick` class owns the memory, the tools, the
  handles and the compiled graph. Its methods model setup, one round and
  the release of resources.

The language models, the tools and the clock are parameters (`Env`). A
model call may fail with a provider error. A tool call always yields text.
`clock(k)` is the timestamp the worker pass reads when `k` steps of budget
are left. The prompt wording is a record parameter, so every proof holds
for any wording. `Worker.SourceWording`, `Evaluator.SourceWording` and
`Graph.SourcePrompts` carry the text the program uses. The library calls
inside the tool constructors are `Tools.Backends`: each one returns or
raises.

## Model

| member | source | states |
|---|---|---|
| Worker.Instruction | sidekick.py:74-95 | The instruction always starts with the base text. It embeds the timestamp and the success criteria. It equals the base text when the feedback is not truthy. When the feedback is truthy, the rejection heading follows the base text and the feedback is quoted after it. |
| Worker.InstructionQuotesFeedback | sidekick.py:90-95 | Truthy feedback appears in the worker's instruction. |
| Worker.PrepareMessages | sidekick.py:97-106 | The loop overwrites every system message of the state's own list in place. It leaves every other message as it was, and it prepends a new system message to the list sent to the model only when it found none. |
| Worker.SentSystemMessages | sidekick.py:97-106 | The sent list keeps every non-system message in order, and every system message in it carries the new instruction. It holds exactly one system message when the state held none, otherwise as many as the state held. |
| Worker.WorkerStep | sidekick.py:71-114 | A successful worker pass appends exactly one assistant message. The criteria, the feedback and both flags are unchanged. |
| Worker.WorkerAddsOnlyTheReply | sidekick.py:97-114 | The worker's state update is the model's reply alone, after the in-place overwrite. The prepended system message never enters the state, so a state without system messages gains only the reply. |
| Evaluator.FormatConversation | sidekick.py:126-136 | The loop yields exactly the header followed by the lines of the messages in order (`Evaluator.Conversation`). |
| Evaluator.LinesAppend | sidekick.py:130-135 | Rendering distributes over concatenation, so lines come out in message order, one block per message. |
| Evaluator.RenderingSkipsOtherKinds | sidekick.py:130-135 | The rendering equals the rendering of the user and assistant messages alone. System and tool messages add nothing. |
| Evaluator.ConversationQuotesMessage | sidekick.py:129-135 | Every message's line sits in the rendering right after the rendering of the messages before it. A user message is quoted as "User: " + content + newline, and an assistant message as "Assistant: " + content + newline, with "[Tools use]" for empty content. |
| Evaluator.UserPrompt | sidekick.py:147-168 | The evaluator's prompt starts with the base prompt and always quotes the rendered conversation, the success criteria and the last message's content. The reminder quoting the earlier feedback follows exactly when that feedback is truthy. |
| Evaluator.EvaluatorDeltaEffect | sidekick.py:176-185 | Merging the evaluator's delta appends exactly one assistant message, "Evaluator Feedback on this answer: " + feedback. It copies the feedback and both flags from the verdict unchanged and keeps the criteria and the earlier messages. |
| Evaluator.EvaluatorStep | sidekick.py:138-186 | A successful evaluator pass keeps the earlier messages, appends exactly the feedback note for the recorded feedback, and keeps the criteria. |
| Graph.WorkerRouter | sidekick.py:116-124 | The result is the tools node exactly when the last message has a non-empty tool-call list, and the evaluator otherwise. |
| Graph.RouteBasedOnEvaluation | sidekick.py:188-194 | The result is END exactly when the criteria are met or user input is needed, and the worker otherwise. |
| Graph.Next | sidekick.py:208-217 | The edges: END is entered only from the evaluator, and the tools node only from the worker. The tools node always returns to the worker, the worker goes to tools or the evaluator, the evaluator goes to the worker or END, and no node loops on itself. |
| Graph.ToolResults | sidekick.py:204 | The tools node yields one result per requested call, in request order, each answering its call by id. |
| Graph.Step | sidekick.py:203-217 | Every successful pass strictly lengthens the message list and keeps the criteria. It leaves the state ready for the node the edges lead to. Worker and tools passes keep the feedback and both flags. |
| Graph.RunSettles | sidekick.py:208-217 | A run that reaches END ends with the evaluator's note for the recorded feedback. The worker's tool-free reply comes just before that note. One of the two flags is set, and the criteria never changed. |
| Graph.StepKeepsSystemMessagesOut | sidekick.py:97-114 | A pass adds no system message to a state that had none, and leaves the earlier messages in place. |
| Graph.RunKeepsSystemMessagesOut | sidekick.py:97-114 | A whole run keeps the messages it started with in front. It never holds a system message when it started without one. |
| Graph.ToolRoundTrip | sidekick.py:204-211 | A tools pass appends exactly one result per call, in order. It changes nothing else and hands control back to the worker. |
| Graph.RejectionReachesNextWorker | sidekick.py:90-106 | When the evaluator sends the round back with non-empty feedback, the flags are both down and the next worker instruction quotes the feedback. Every system message the worker model is shown carries that instruction, and there is at least one. |
| Graph.ToolLoopReachesEnd | sidekick.py:203-217 | Suppose the worker asks for one tool at a time until it has seen `quota` tool results, and the evaluator then ends the round. With k tool rounds still to go, a run from the worker reaches END exactly when its budget is at least 2k + 2 passes, and then holds exactly 2k + 2 new messages. With a smaller budget it stops with the step limit. |
| Graph.RejectionLoopScenario | sidekick.py:165-194 | Suppose the worker answers directly, and the evaluator rejects the first answer with non-empty feedback and accepts the second. Then a run with four passes or more ends after the second evaluation with four new messages: answer, rejection note, revised answer and closing note. The revised answer replies to the conversation headed by an instruction that quotes the feedback. |
| Graph.SettledModelsReachEnd | sidekick.py:208-217 | Suppose the worker always answers without tools and the evaluator always accepts or asks the user. Then a run with a budget of two or more ends after one worker pass and one evaluator pass, with the reply and the note appended. |
| Tools.SafeMathCalculator | tools.py:19-25 | The calculator never raises. It returns the evaluator's text on success. Otherwise it returns a text that starts with "Error: Unable to evaluate expression '" + expression + "'." and quotes the error. |
| Tools.CreatePlaywrightTools | tools.py:93-104 | The browser group yields its tools and both handles. On failure it yields exactly ([], None, None). The two handles are present together or not at all. |
| Tools.GetTools | tools.py:107-147 | The step-by-step assembly yields exactly `Tools.Registry`: file tools, then search, calculator, encyclopedia, code runner and paper search. Each present optional tool appears once. |
| Tools.GetAllToolsWithBrowser | tools.py:150-169 | The result is the registry followed by the browser group's tools, with the two handles passed through. |
| Tools.CalculatorAlwaysIncluded | tools.py:42-50 | The calculator is in the list whatever the other constructors do. It sits right after the file tools and the search tool. |
| Tools.RegistryMembers | tools.py:28-90 | A tool is in the list exactly when it is a file tool of a toolkit that did not raise, the search tool of a wrapper that did not raise, the calculator, or a library tool that was built. |
| Tools.RegistrySize | tools.py:117-147 | The list's length is the number of file tools, plus one, plus one for each optional constructor that succeeded. |
| Tools.FailureOmitsOnlyThatTool | tools.py:124-145 | One constructor raising instead of succeeding removes exactly its own tool from its position. Every other tool keeps its order, and nothing propagates. |
| Tools.BrowserGroupLast | tools.py:163-169 | The browser tools come after the whole registry. When the group fails there are no browser tools and no handles. Otherwise both handles are the group's own. |
| Session.Loaded | sidekick.py:230 | Loading the persisted memory gives one message per entry, keeping text and role (user text or assistant text without tool calls). It never gives a system message. |
| Session.LoadedAppend | sidekick.py:230 | Loading distributes over appending entries. |
| Session.Criteria | sidekick.py:235-236 | The round's criteria are never empty. They are the given text, or "The answer should be clear and accurate" when it is empty. |
| Session.Seed | sidekick.py:229-240 | The seed holds the persisted memory followed by the new user message. Its criteria are never empty, there is no feedback, both flags are down, and there is no system message. |
| Session.SuperstepBookkeeping | sidekick.py:241-253 | After a successful round the history is exactly three entries longer: the old entries, the user message, the reply, and the note with its fixed prefix. The memory gains the user message and then that same reply. The reply is the run's final tool-free assistant text. The run kept the seed in front and never held a system message. |
| Session.NextRoundSeesThisRound | sidekick.py:230-248 | The next round's seed is this round's seed followed by the reply and the next user message. |
| Session.ToolRoundsWithinRecursionLimit | sidekick.py:233-241 | With a worker that asks for one tool at a time, `quota` times, and an evaluator that then ends the round, a round within the default budget of 25 passes completes exactly when `quota` is at most 11. Otherwise it fails with the step limit and records nothing. |
| Session.SimpleQuestionScenario | sidekick.py:222-253 | Suppose the worker answers without tools and the evaluator accepts. Then every budget of two or more completes the round, and the memory gains the user message and the worker's answer. |
| Session.TeardownRequests | sidekick.py:255-268 | Releasing asks for nothing without a browser. Otherwise it closes the browser first, and then stops the driver exactly when there is one. |
| Session.Sidekick.constructor | sidekick.py:44-56 | A new session holds the memory already in its store, and no tools, handles or graph. |
| Session.Sidekick.Setup | sidekick.py:58-69 | Setup stores exactly the registry with the browser group and both handles (present together or not at all), and compiles the graph from that tool list. |
| Session.Sidekick.RunSuperstep | sidekick.py:222-253 | Without a graph the round fails and nothing changes, and a failing run changes nothing either. Otherwise the memory and the returned history are those of `Session.Superstep`. |
| Session.Sidekick.Persist | sidekick.py:243-253 | The memory gains the user message and then the reply, and the history gains the user message, the reply and the note. |
| Session.Sidekick.Cleanup | sidekick.py:255-268 | The teardown requests are exactly `Session.TeardownRequests` of the current handles. When the handles are held together, as setup leaves them, it asks for both teardowns or for none. |
| Session.Sidekick.FreeResources | sidekick.py:270-272 | It makes the same requests as `Cleanup`. |

## Left out

- The language-model calls (the models, binding tools to them, the structured output) are opaque functions in `Env`. A call may fail, and that failure ends the round with `WorkerFailed` or `EvaluatorFailed`.
- The graph runtime is modelled only as the edge relation and a driver (`Graph.Run`). The message reducer is modelled as appending. Its replacement of messages with equal ids is not modelled.
- The tools node is modelled as one result message per requested call, in order. Running them in parallel, and reporting tool errors through their text, are not represented beyond that.
- The runtime's recursion limit is the fuel `RecursionLimit = 25` of `Graph.Run`, counted as node passes. The runtime's exact accounting of supersteps is not modelled.
- The design promises that any round whose worker eventually stops asking for tools reaches the end. The program bounds this by the runtime's budget. `Session.ToolRoundsWithinRecursionLimit` shows that a round needing more than 11 tool rounds fails at the step limit instead.
- The checkpointer and the session's thread id are not modelled: each round starts from the seeded state alone. With a checkpointer, a later round on the same thread would also see the messages of earlier rounds stored in the checkpoint.
- The timestamp from the clock is an opaque string (`Env.clock`). The prompt wording is a parameter, instantiated with the program's text.
- The chat-memory file is a sequence of (role, text) entries. Reading it, writing it and its file name are not modelled. The branch taken when the memory object is falsy is left out, because the object is always set.
- Printing warnings in the tool constructors is left out. So are creating the sandbox directory, and the sympy parsing and evaluation (an opaque `evaluate` parameter).
- Tools.CreatePlaywrightTools: when the driver starts but the browser fails to launch, the started driver is left running and unreachable. The model only says that the result is ([], None, None).
- Session.Sidekick.Cleanup: the asynchronous teardown is left out. The model returns the requests instead of performing them.
- Session.Sidekick.Cleanup: the fallback for when no event loop is running is left out. It makes the same requests in the same order, run synchronously, but closing the browser there has no guard. If the close raises, the exception leaves the cleanup and the driver is never stopped. The model always lists both requests.
- Session.Sidekick.Cleanup: the handles are not cleared after release, following the code. A second call therefore requests the same teardown again. The design intent is that a second release does nothing, which the code leaves to the browser library.
- Session.Sidekick.RunSuperstep: a model failure or a spent budget surfaces as a `Failure` result, where the program raises an exception. In both cases the memory is left untouched.
- Session.Sidekick.Setup: model construction and the configuration of model names are not modelled. `bind` stands for binding the tools and compiling the graph.
- The web UI and configuration loading are not part of this model.
