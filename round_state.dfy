/**
 * The records threaded through one round of the worker/evaluator loop
 * (sidekick.py, `State` and `EvaluatorOutput`), the messages they carry,
 * and the opaque collaborators a round calls: the two language models,
 * the tools and the clock.
 */
module RoundState {
  import opened Wrappers

  /** One tool invocation requested by the worker model. */
  datatype ToolCall = ToolCall(id: string, name: string, args: string)

  /**
   * The message kinds of the conversation: system instructions, user
   * messages, assistant (AI) messages that may carry tool calls, and the
   * results the tools node appends, one per tool call.
   */
  datatype Message =
    | SystemMsg(content: string)
    | HumanMsg(content: string)
    | AiMsg(content: string, toolCalls: seq<ToolCall>)
    | ToolMsg(content: string, toolCallId: string)

  /** The message is an assistant message with a non-empty tool-call list. */
  predicate HasToolCalls(m: Message)
  {
    m.AiMsg? && |m.toolCalls| > 0
  }

  /** The round state record. */
  datatype State = State(
    messages: seq<Message>,
    successCriteria: string,
    feedbackOnWork: Option<string>,
    successCriteriaMet: bool,
    userInputNeeded: bool)

  /** The evaluator's structured verdict: all three fields, always. */
  datatype EvaluatorOutput = EvaluatorOutput(
    feedback: string,
    successCriteriaMet: bool,
    userInputNeeded: bool)

  /** Python truthiness of an optional string: present and non-empty. */
  predicate Truthy(s: Option<string>)
  {
    s.Some? && s.value != ""
  }

  /**
   * What a node returns to the graph: new messages to append, and the keys
   * it sets (`None` where the node's dictionary leaves a key out).
   */
  datatype Delta = Delta(
    messages: seq<Message>,
    feedbackOnWork: Option<string>,
    successCriteriaMet: Option<bool>,
    userInputNeeded: Option<bool>)

  /**
   * The graph's merge of a node's delta into the state: messages are
   * appended (the reducer on `messages`), every key present is overwritten,
   * every absent key is kept.
   */
  function Apply(s: State, d: Delta): State
  {
    State(
      s.messages + d.messages,
      s.successCriteria,
      if d.feedbackOnWork.Some? then d.feedbackOnWork else s.feedbackOnWork,
      if d.successCriteriaMet.Some? then d.successCriteriaMet.value else s.successCriteriaMet,
      if d.userInputNeeded.Some? then d.userInputNeeded.value else s.userInputNeeded)
  }

  /** The worker model's reply: text and a possibly empty list of tool calls. */
  datatype Reply = Reply(content: string, toolCalls: seq<ToolCall>)

  /**
   * The opaque collaborators of a round. Each model call may fail with a
   * provider error; a tool call always yields text (tools report their own
   * failures as text); `clock(k)` is the formatted timestamp read by the
   * worker pass that runs with `k` steps of budget left.
   */
  datatype Env = Env(
    worker: seq<Message> -> Result<Reply, string>,
    evaluator: seq<Message> -> Result<EvaluatorOutput, string>,
    runTool: ToolCall -> string,
    clock: nat -> string)

  /** Why a round did not reach the end of the graph. */
  datatype RoundError =
    | WorkerFailed(reason: string)
    | EvaluatorFailed(reason: string)
    | StepLimitReached
    | NotSetUp

  /** How many system messages a list holds. */
  function CountSystem(ms: seq<Message>): nat
  {
    if ms == [] then 0
    else CountSystem(ms[..|ms| - 1]) + (if ms[|ms| - 1].SystemMsg? then 1 else 0)
  }

  /** How many tool results a list holds. */
  function ToolResultCount(ms: seq<Message>): nat
  {
    if ms == [] then 0
    else ToolResultCount(ms[..|ms| - 1]) + (if ms[|ms| - 1].ToolMsg? then 1 else 0)
  }

  /** A list without tool results counts none. */
  lemma {:induction false} NoToolResults(ms: seq<Message>)
    requires forall i :: 0 <= i < |ms| ==> !ms[i].ToolMsg?
    ensures ToolResultCount(ms) == 0
    decreases |ms|
  {
    if ms != [] {
      NoToolResults(ms[..|ms| - 1]);
    }
  }

  /** No message of the list is a system message. */
  predicate NoSystem(ms: seq<Message>)
  {
    forall i :: 0 <= i < |ms| ==> !ms[i].SystemMsg?
  }
}
