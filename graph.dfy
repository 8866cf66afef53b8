/**
 * The control loop of sidekick.py as an explicit state machine: the two
 * routers, the edges wired in `build_graph`, one step per node, and the run
 * of the graph from its entry node until END or until the step budget of
 * the graph runtime is spent.
 */
module Graph {
  import opened Wrappers
  import opened Text
  import opened RoundState
  import Worker
  import Evaluator

  /** The nodes of the graph; `End` is the graph's END. */
  datatype Node = WorkerNode | ToolsNode | EvaluatorNode | End

  /** The edge from START. */
  const Entry: Node := WorkerNode

  /** The wording of both nodes' prompts. */
  datatype Prompts = Prompts(worker: Worker.Wording, evaluator: Evaluator.Wording)

  const SourcePrompts: Prompts := Prompts(Worker.SourceWording, Evaluator.SourceWording)

  /** After the worker: the tools node exactly when the last message asks for tools, else the evaluator. */
  function WorkerRouter(s: State): (n: Node)
    requires |s.messages| > 0
    ensures n == ToolsNode <==> HasToolCalls(s.messages[|s.messages| - 1])
    ensures n == EvaluatorNode <==> !HasToolCalls(s.messages[|s.messages| - 1])
  {
    if HasToolCalls(s.messages[|s.messages| - 1]) then ToolsNode else EvaluatorNode
  }

  /** After the evaluator: END exactly when the criteria are met or user input is needed, else the worker. */
  function RouteBasedOnEvaluation(s: State): (n: Node)
    ensures n == End <==> s.successCriteriaMet || s.userInputNeeded
    ensures n == WorkerNode <==> !s.successCriteriaMet && !s.userInputNeeded
  {
    if s.successCriteriaMet || s.userInputNeeded then End else WorkerNode
  }

  /**
   * The edge relation: END is entered only from the evaluator, the tools
   * node only from the worker, and the tools node always returns to the
   * worker; no node loops on itself.
   */
  function Next(at: Node, s: State): (n: Node)
    requires at != End
    requires at == WorkerNode ==> |s.messages| > 0
    ensures n == End ==> at == EvaluatorNode
    ensures n == ToolsNode ==> at == WorkerNode
    ensures at == ToolsNode ==> n == WorkerNode
    ensures at == WorkerNode ==> n == ToolsNode || n == EvaluatorNode
    ensures at == EvaluatorNode ==> n == WorkerNode || n == End
    ensures n != at
  {
    match at
    case WorkerNode => WorkerRouter(s)
    case ToolsNode => WorkerNode
    case EvaluatorNode => RouteBasedOnEvaluation(s)
  }

  /**
   * What a node expects of the state it runs on: the tools node a last
   * message that asks for tools, the evaluator a last message that is the
   * worker's textual reply.
   */
  predicate Ready(at: Node, s: State)
  {
    match at
    case ToolsNode => |s.messages| > 0 && HasToolCalls(s.messages[|s.messages| - 1])
    case EvaluatorNode =>
      |s.messages| > 0 && s.messages[|s.messages| - 1].AiMsg? && s.messages[|s.messages| - 1].toolCalls == []
    case _ => true
  }

  /** The tools node's results: one message per requested call, in request order, each answering its call. */
  function ToolResults(calls: seq<ToolCall>, run: ToolCall -> string): (rs: seq<Message>)
    ensures |rs| == |calls|
    ensures forall i :: 0 <= i < |calls| ==> rs[i] == ToolMsg(run(calls[i]), calls[i].id)
  {
    if calls == [] then []
    else [ToolMsg(run(calls[0]), calls[0].id)] + ToolResults(calls[1..], run)
  }

  /** One pass of the tools node: run what the last message asks for and append the results. */
  function ToolsStep(s: State, env: Env): State
    requires Ready(ToolsNode, s)
  {
    Apply(s, Delta(ToolResults(s.messages[|s.messages| - 1].toolCalls, env.runTool), None, None, None))
  }

  /**
   * One node's pass. The worker and tools nodes leave the criteria, the
   * feedback and both flags as they were; every pass leaves the state ready
   * for the node the edges lead to.
   */
  function Step(at: Node, s: State, env: Env, p: Prompts, now: string): (r: Result<State, RoundError>)
    requires at != End && Ready(at, s)
    ensures r.Success? ==> |r.value.messages| > |s.messages|
    ensures r.Success? ==> Ready(Next(at, r.value), r.value)
    ensures r.Success? ==> r.value.successCriteria == s.successCriteria
    ensures r.Success? && at != EvaluatorNode ==>
      && r.value.feedbackOnWork == s.feedbackOnWork
      && r.value.successCriteriaMet == s.successCriteriaMet
      && r.value.userInputNeeded == s.userInputNeeded
  {
    match at
    case WorkerNode => Worker.WorkerStep(s, env, p.worker, now)
    case ToolsNode => Success(ToolsStep(s, env))
    case EvaluatorNode => Evaluator.EvaluatorStep(s, env, p.evaluator)
  }

  /**
   * The run of the graph from node `at`. Each pass uses up one step of the
   * runtime's budget `fuel`; a run that has not reached END when it is spent
   * fails, as does a run whose model call fails. The worker pass that runs
   * with `k` steps left reads the timestamp `env.clock(k)`.
   */
  function Run(at: Node, s: State, env: Env, p: Prompts, fuel: nat): Result<State, RoundError>
    requires Ready(at, s)
    decreases fuel
  {
    if at == End then Success(s)
    else if fuel == 0 then Failure(StepLimitReached)
    else
      match Step(at, s, env, p, env.clock(fuel))
      case Failure(e) => Failure(e)
      case Success(t) => Run(Next(at, t), t, env, p, fuel - 1)
  }

  /**
   * How a finished round's state relates to the state it started from: it
   * ends with the evaluator's note for the recorded feedback, that note
   * follows the worker's textual reply, one of the two flags is set, and the
   * criteria never changed.
   */
  ghost predicate Settled(at: Node, s: State, r: State)
  {
    && |r.messages| >= 2
    && |r.messages| > |s.messages|
    && (at != EvaluatorNode ==> |r.messages| >= |s.messages| + 2)
    && r.feedbackOnWork.Some?
    && r.messages[|r.messages| - 1] == Evaluator.FeedbackNote(r.feedbackOnWork.value)
    && r.messages[|r.messages| - 2].AiMsg?
    && r.messages[|r.messages| - 2].toolCalls == []
    && (r.successCriteriaMet || r.userInputNeeded)
    && r.successCriteria == s.successCriteria
  }

  /** A run that reaches END from a node other than END has settled in the sense above. */
  lemma {:induction false} RunSettles(at: Node, s: State, env: Env, p: Prompts, fuel: nat)
    requires at != End && Ready(at, s)
    requires Run(at, s, env, p, fuel).Success?
    ensures Settled(at, s, Run(at, s, env, p, fuel).value)
    decreases fuel
  {
    var t := Step(at, s, env, p, env.clock(fuel)).value;
    var next := Next(at, t);
    if next == End {
      assert at == EvaluatorNode;
      assert Run(at, s, env, p, fuel).value == t;
    } else {
      RunSettles(next, t, env, p, fuel - 1);
    }
  }

  /** One pass adds no system message and leaves the earlier messages in place, when there were none before. */
  lemma StepKeepsSystemMessagesOut(at: Node, s: State, env: Env, p: Prompts, now: string)
    requires at != End && Ready(at, s) && NoSystem(s.messages)
    requires Step(at, s, env, p, now).Success?
    ensures NoSystem(Step(at, s, env, p, now).value.messages)
    ensures Step(at, s, env, p, now).value.messages[..|s.messages|] == s.messages
  {
    var t := Step(at, s, env, p, now).value;
    match at {
      case WorkerNode =>
        Worker.WorkerAddsOnlyTheReply(s, env, p.worker, now);
      case ToolsNode =>
        var calls := s.messages[|s.messages| - 1].toolCalls;
        assert t.messages == s.messages + ToolResults(calls, env.runTool);
      case EvaluatorNode =>
    }
  }

  /**
   * A round that starts without system messages never gains one: the
   * worker's instruction goes only to the model, never into the state. The
   * messages it started with stay where they were.
   */
  lemma {:induction false} RunKeepsSystemMessagesOut(at: Node, s: State, env: Env, p: Prompts, fuel: nat)
    requires Ready(at, s) && NoSystem(s.messages)
    requires Run(at, s, env, p, fuel).Success?
    ensures |Run(at, s, env, p, fuel).value.messages| >= |s.messages|
    ensures NoSystem(Run(at, s, env, p, fuel).value.messages)
    ensures Run(at, s, env, p, fuel).value.messages[..|s.messages|] == s.messages
    decreases fuel
  {
    if at == End {
      assert s.messages[..|s.messages|] == s.messages;
    } else {
      var now := env.clock(fuel);
      var t := Step(at, s, env, p, now).value;
      var next := Next(at, t);
      StepKeepsSystemMessagesOut(at, s, env, p, now);
      RunKeepsSystemMessagesOut(next, t, env, p, fuel - 1);
      PrefixOfPrefix(Run(next, t, env, p, fuel - 1).value.messages, t.messages, s.messages);
    }
  }

  lemma PrefixOfPrefix(a: seq<Message>, b: seq<Message>, c: seq<Message>)
    requires |c| <= |b| <= |a| && a[..|b|] == b && b[..|c|] == c
    ensures a[..|c|] == c
  {
    assert a[..|c|] == a[..|b|][..|c|];
  }

  /**
   * A tools pass appends exactly one result per requested call, in request
   * order, changes nothing else, and hands control back to the worker.
   */
  lemma ToolRoundTrip(s: State, env: Env, p: Prompts, now: string)
    requires Ready(ToolsNode, s)
    ensures var calls := s.messages[|s.messages| - 1].toolCalls;
      var t := Step(ToolsNode, s, env, p, now).value;
      && Step(ToolsNode, s, env, p, now).Success?
      && |t.messages| == |s.messages| + |calls|
      && t.messages[..|s.messages|] == s.messages
      && (forall i :: 0 <= i < |calls| ==> t.messages[|s.messages| + i] == ToolMsg(env.runTool(calls[i]), calls[i].id))
      && t.feedbackOnWork == s.feedbackOnWork
      && Next(ToolsNode, t) == WorkerNode
  {
    var calls := s.messages[|s.messages| - 1].toolCalls;
    var t := Step(ToolsNode, s, env, p, now).value;
    assert t.messages == s.messages + ToolResults(calls, env.runTool);
  }

  /**
   * A rejection reaches the next worker pass: when the evaluator sends the
   * round back to the worker with non-empty feedback, the instruction of
   * that pass quotes the feedback, and every system message the worker
   * model is shown carries that instruction.
   */
  lemma RejectionReachesNextWorker(s: State, env: Env, p: Prompts, now: string)
    requires Ready(EvaluatorNode, s)
    requires Step(EvaluatorNode, s, env, p, now).Success?
    requires Next(EvaluatorNode, Step(EvaluatorNode, s, env, p, now).value) == WorkerNode
    requires Step(EvaluatorNode, s, env, p, now).value.feedbackOnWork.Some?
    requires Step(EvaluatorNode, s, env, p, now).value.feedbackOnWork.value != ""
    ensures var t := Step(EvaluatorNode, s, env, p, now).value;
      var instruction := Worker.Instruction(p.worker, now, t.successCriteria, t.feedbackOnWork);
      && IsInfix(t.feedbackOnWork.value, instruction)
      && !t.successCriteriaMet && !t.userInputNeeded
      && CountSystem(Worker.Sent(t.messages, instruction)) >= 1
      && forall i :: 0 <= i < |Worker.Sent(t.messages, instruction)| && Worker.Sent(t.messages, instruction)[i].SystemMsg? ==>
           Worker.Sent(t.messages, instruction)[i] == SystemMsg(instruction)
  {
    var t := Step(EvaluatorNode, s, env, p, now).value;
    var instruction := Worker.Instruction(p.worker, now, t.successCriteria, t.feedbackOnWork);
    Worker.InstructionQuotesFeedback(p.worker, now, t.successCriteria, t.feedbackOnWork);
    Worker.SentSystemMessages(t.messages, instruction);
  }

  /**
   * Reaching END: when the worker model always answers without asking for
   * tools and the evaluator always accepts or asks for the user, a run from
   * the worker with at least two steps of budget ends after one worker pass
   * and one evaluator pass, with the reply and the note appended.
   */
  lemma SettledModelsReachEnd(s: State, env: Env, p: Prompts, fuel: nat)
    requires fuel >= 2 && NoSystem(s.messages)
    requires forall ms :: env.worker(ms).Success? && env.worker(ms).value.toolCalls == []
    requires forall ms :: env.evaluator(ms).Success? &&
               (env.evaluator(ms).value.successCriteriaMet || env.evaluator(ms).value.userInputNeeded)
    ensures Run(WorkerNode, s, env, p, fuel).Success?
    ensures var r := Run(WorkerNode, s, env, p, fuel).value;
      && |r.messages| == |s.messages| + 2
      && r.messages[..|s.messages|] == s.messages
      && r.messages[|s.messages|].AiMsg?
      && r.feedbackOnWork.Some?
      && r.messages[|s.messages| + 1] == Evaluator.FeedbackNote(r.feedbackOnWork.value)
  {
    var now := env.clock(fuel);
    Worker.WorkerAddsOnlyTheReply(s, env, p.worker, now);
    var t := Step(WorkerNode, s, env, p, now).value;
    assert Next(WorkerNode, t) == EvaluatorNode;
    var u := Step(EvaluatorNode, t, env, p, env.clock(fuel - 1)).value;
    assert Next(EvaluatorNode, u) == End;
    assert Run(WorkerNode, s, env, p, fuel) == Run(EvaluatorNode, t, env, p, fuel - 1);
    assert Run(EvaluatorNode, t, env, p, fuel - 1) == Success(u);
  }
  /**
   * The worker model's reply to `ms` asks for exactly one tool while `ms`
   * holds fewer than `quota` tool results, and for none from then on.
   */
  predicate RepliesUntil(env: Env, quota: nat, ms: seq<Message>)
  {
    env.worker(ms).Success? &&
    |env.worker(ms).value.toolCalls| == if ToolResultCount(ms) < quota then 1 else 0
  }

  /** A worker model that replies as `RepliesUntil` says to every list of messages. */
  ghost predicate ToolsUntil(env: Env, quota: nat)
  {
    forall ms :: RepliesUntil(env, quota, ms)
  }

  /** The evaluator model's verdict on `ms` ends the round: it accepts, or asks for the user. */
  predicate Ends(env: Env, ms: seq<Message>)
  {
    env.evaluator(ms).Success? &&
    (env.evaluator(ms).value.successCriteriaMet || env.evaluator(ms).value.userInputNeeded)
  }

  /** An evaluator model that always ends the round. */
  ghost predicate EvaluatorEnds(env: Env)
  {
    forall ms :: Ends(env, ms)
  }

  /** A worker pass under `ToolsUntil`: one message more, no tool result more, and tools exactly below the quota. */
  lemma WorkerPassCounts(s: State, env: Env, p: Prompts, quota: nat, now: string)
    requires ToolsUntil(env, quota)
    ensures Step(WorkerNode, s, env, p, now).Success?
    ensures var t := Step(WorkerNode, s, env, p, now).value;
      && |t.messages| == |s.messages| + 1
      && ToolResultCount(t.messages) == ToolResultCount(s.messages)
      && (Next(WorkerNode, t) == ToolsNode <==> ToolResultCount(s.messages) < quota)
      && (ToolResultCount(s.messages) < quota ==> |t.messages[|t.messages| - 1].toolCalls| == 1)
  {
    var instruction := Worker.Instruction(p.worker, now, s.successCriteria, s.feedbackOnWork);
    var sent := Worker.Sent(s.messages, instruction);
    Worker.SentKeepsToolResults(s.messages, instruction);
    assert RepliesUntil(env, quota, sent);
    var reply := env.worker(sent).value;
    var t := Step(WorkerNode, s, env, p, now).value;
    assert t.messages == Worker.Overwritten(s.messages, instruction) + [AiMsg(reply.content, reply.toolCalls)];
    assert t.messages[..|t.messages| - 1] == Worker.Overwritten(s.messages, instruction);
  }

  /** A tools pass on a single request: one message more, and it is a tool result. */
  lemma ToolsPassCounts(t: State, env: Env, p: Prompts, now: string)
    requires Ready(ToolsNode, t) && |t.messages[|t.messages| - 1].toolCalls| == 1
    ensures var u := Step(ToolsNode, t, env, p, now).value;
      && |u.messages| == |t.messages| + 1
      && ToolResultCount(u.messages) == ToolResultCount(t.messages) + 1
  {
    var u := Step(ToolsNode, t, env, p, now).value;
    var results := ToolResults(t.messages[|t.messages| - 1].toolCalls, env.runTool);
    assert u.messages == t.messages + results;
    assert u.messages[..|u.messages| - 1] == t.messages;
  }

  /** An evaluator pass under `EvaluatorEnds`: one message more, and the round goes to END. */
  lemma EvaluatorPassEnds(t: State, env: Env, p: Prompts, now: string)
    requires Ready(EvaluatorNode, t) && EvaluatorEnds(env)
    ensures Step(EvaluatorNode, t, env, p, now).Success?
    ensures |Step(EvaluatorNode, t, env, p, now).value.messages| == |t.messages| + 1
    ensures Next(EvaluatorNode, Step(EvaluatorNode, t, env, p, now).value) == End
  {
    assert Ends(env, Evaluator.EvaluatorMessages(p.evaluator, t));
  }

  /** The state after one worker pass and one tools pass, below the quota. */
  ghost function AfterToolRound(s: State, env: Env, p: Prompts, quota: nat, fuel: nat): (u: State)
    requires ToolsUntil(env, quota) && ToolResultCount(s.messages) < quota && fuel >= 2
    ensures |u.messages| == |s.messages| + 2
    ensures ToolResultCount(u.messages) == ToolResultCount(s.messages) + 1
  {
    WorkerPassCounts(s, env, p, quota, env.clock(fuel));
    var t := Step(WorkerNode, s, env, p, env.clock(fuel)).value;
    ToolsPassCounts(t, env, p, env.clock(fuel - 1));
    Step(ToolsNode, t, env, p, env.clock(fuel - 1)).value
  }

  /** Below the quota, a run from the worker spends two passes on one tool round and goes on from the worker. */
  lemma ToolRoundUnfolds(s: State, env: Env, p: Prompts, quota: nat, fuel: nat)
    requires ToolsUntil(env, quota) && ToolResultCount(s.messages) < quota && fuel >= 1
    ensures fuel == 1 ==> Run(WorkerNode, s, env, p, fuel) == Failure(StepLimitReached)
    ensures fuel >= 2 ==>
      Run(WorkerNode, s, env, p, fuel) == Run(WorkerNode, AfterToolRound(s, env, p, quota, fuel), env, p, fuel - 2)
  {
    WorkerPassCounts(s, env, p, quota, env.clock(fuel));
    var t := Step(WorkerNode, s, env, p, env.clock(fuel)).value;
    assert Run(WorkerNode, s, env, p, fuel) == Run(ToolsNode, t, env, p, fuel - 1);
  }

  /** At the quota, a run from the worker ends after the answer and the evaluator's pass, when it has two passes. */
  lemma AnswerUnfolds(s: State, env: Env, p: Prompts, quota: nat, fuel: nat)
    requires ToolsUntil(env, quota) && EvaluatorEnds(env) && ToolResultCount(s.messages) == quota && fuel >= 1
    ensures fuel == 1 ==> Run(WorkerNode, s, env, p, fuel) == Failure(StepLimitReached)
    ensures fuel >= 2 ==>
      && Run(WorkerNode, s, env, p, fuel).Success?
      && |Run(WorkerNode, s, env, p, fuel).value.messages| == |s.messages| + 2
  {
    WorkerPassCounts(s, env, p, quota, env.clock(fuel));
    var t := Step(WorkerNode, s, env, p, env.clock(fuel)).value;
    assert Next(WorkerNode, t) == EvaluatorNode;
    assert Run(WorkerNode, s, env, p, fuel) == Run(EvaluatorNode, t, env, p, fuel - 1);
    if fuel >= 2 {
      EvaluatorPassEnds(t, env, p, env.clock(fuel - 1));
    }
  }

  /**
   * The outcome of a run with budget `fuel` from a state of `n` messages
   * that needs `k` tool rounds: END exactly when the budget covers the
   * 2k + 2 passes, with the 2k + 2 new messages; otherwise the step limit.
   */
  predicate EndsWithin(r: Result<State, RoundError>, n: nat, k: nat, fuel: nat)
  {
    && (r.Success? <==> fuel >= 2 * k + 2)
    && (r.Failure? ==> r == Failure(StepLimitReached))
    && (r.Success? ==> |r.value.messages| == n + 2 * k + 2)
  }

  /**
   * Reaching END through the tool loop. When `k` more tool rounds come
   * before the worker answers and the evaluator then ends the round, a run
   * from the worker reaches END exactly when its budget covers the 2k + 2
   * passes (worker and tools k times, then worker and evaluator). Otherwise
   * it stops with the step limit. A finished run holds the k tool requests,
   * their results, the answer and the note.
   */
  lemma {:induction false} ToolLoopReachesEnd(s: State, env: Env, p: Prompts, quota: nat, fuel: nat)
    requires ToolResultCount(s.messages) <= quota
    requires ToolsUntil(env, quota) && EvaluatorEnds(env)
    ensures EndsWithin(Run(WorkerNode, s, env, p, fuel), |s.messages|, quota - ToolResultCount(s.messages), fuel)
    decreases quota - ToolResultCount(s.messages), 1
  {
    if fuel > 0 {
      if ToolResultCount(s.messages) < quota {
        ToolRoundReachesEnd(s, env, p, quota, fuel);
      } else {
        AnswerUnfolds(s, env, p, quota, fuel);
      }
    }
  }

  /** The inductive step of `ToolLoopReachesEnd`: one tool round, then the rest of the loop. */
  lemma {:induction false} ToolRoundReachesEnd(s: State, env: Env, p: Prompts, quota: nat, fuel: nat)
    requires ToolResultCount(s.messages) < quota && fuel >= 1
    requires ToolsUntil(env, quota) && EvaluatorEnds(env)
    ensures EndsWithin(Run(WorkerNode, s, env, p, fuel), |s.messages|, quota - ToolResultCount(s.messages), fuel)
    decreases quota - ToolResultCount(s.messages), 0
  {
    var k := quota - ToolResultCount(s.messages);
    if fuel >= 2 {
      var u := AfterToolRound(s, env, p, quota, fuel);
      var r := Run(WorkerNode, u, env, p, fuel - 2);
      assert EndsWithin(r, |s.messages|, k, fuel) by {
        ToolLoopReachesEnd(u, env, p, quota, fuel - 2);
        EndsWithinShift(r, |s.messages|, k, fuel);
      }
      assert Run(WorkerNode, s, env, p, fuel) == r by {
        ToolRoundUnfolds(s, env, p, quota, fuel);
      }
    } else {
      assert Run(WorkerNode, s, env, p, fuel) == Failure(StepLimitReached) by {
        ToolRoundUnfolds(s, env, p, quota, fuel);
      }
    }
  }

  /** Two passes and one tool round more: the outcome bound shifts accordingly. */
  lemma EndsWithinShift(r: Result<State, RoundError>, n: nat, k: nat, fuel: nat)
    requires k >= 1 && fuel >= 2 && EndsWithin(r, n + 2, k - 1, fuel - 2)
    ensures EndsWithin(r, n, k, fuel)
  {
  }
  /** The worker model answers `ms` without asking for tools. */
  predicate AnswersDirectly(env: Env, ms: seq<Message>)
  {
    env.worker(ms).Success? && env.worker(ms).value.toolCalls == []
  }

  /**
   * A worker pass when the model answers directly: it succeeds and leads to
   * the evaluator; on a state without system messages its only addition is
   * the reply to that state with the new instruction prepended.
   */
  lemma DirectAnswerPass(s: State, env: Env, p: Prompts, now: string)
    requires forall ms :: AnswersDirectly(env, ms)
    ensures Step(WorkerNode, s, env, p, now).Success?
    ensures Next(WorkerNode, Step(WorkerNode, s, env, p, now).value) == EvaluatorNode
    ensures NoSystem(s.messages) ==>
      var instruction := Worker.Instruction(p.worker, now, s.successCriteria, s.feedbackOnWork);
      && NoSystem(Step(WorkerNode, s, env, p, now).value.messages)
      && Step(WorkerNode, s, env, p, now).value
         == s.(messages := s.messages + [AiMsg(env.worker([SystemMsg(instruction)] + s.messages).value.content, [])])
  {
    var instruction := Worker.Instruction(p.worker, now, s.successCriteria, s.feedbackOnWork);
    var sent := Worker.Sent(s.messages, instruction);
    assert AnswersDirectly(env, sent);
    if NoSystem(s.messages) {
      assert !Worker.HasSystem(s.messages);
      Worker.WorkerAddsOnlyTheReply(s, env, p.worker, now);
      StepKeepsSystemMessagesOut(WorkerNode, s, env, p, now);
    }
  }

  /** The state after the first worker pass of a round whose worker answers directly. */
  ghost function FirstAnswer(s: State, env: Env, p: Prompts, fuel: nat): (t: State)
    requires forall ms :: AnswersDirectly(env, ms)
    ensures Ready(EvaluatorNode, t)
  {
    DirectAnswerPass(s, env, p, env.clock(fuel));
    Step(WorkerNode, s, env, p, env.clock(fuel)).value
  }

  /** The state after the first answer was rejected with `feedback`: the note appended, both flags down. */
  ghost function Rejected(s: State, env: Env, p: Prompts, fuel: nat, feedback: string): State
    requires forall ms :: AnswersDirectly(env, ms)
  {
    Apply(FirstAnswer(s, env, p, fuel), Evaluator.EvaluatorDelta(EvaluatorOutput(feedback, false, false)))
  }

  /** The state after the second worker pass, once the first answer was rejected with `feedback`. */
  ghost function SecondAnswer(s: State, env: Env, p: Prompts, fuel: nat, feedback: string): (t: State)
    requires fuel >= 2 && forall ms :: AnswersDirectly(env, ms)
    ensures Ready(EvaluatorNode, t)
  {
    DirectAnswerPass(Rejected(s, env, p, fuel, feedback), env, p, env.clock(fuel - 2));
    Step(WorkerNode, Rejected(s, env, p, fuel, feedback), env, p, env.clock(fuel - 2)).value
  }

  /** A rejected first answer: the run goes on from the worker, two passes later, on the rejected state. */
  lemma FirstAnswerRejected(s: State, env: Env, p: Prompts, fuel: nat, feedback: string)
    requires fuel >= 2 && forall ms :: AnswersDirectly(env, ms)
    requires env.evaluator(Evaluator.EvaluatorMessages(p.evaluator, FirstAnswer(s, env, p, fuel)))
             == Success(EvaluatorOutput(feedback, false, false))
    ensures Run(WorkerNode, s, env, p, fuel) == Run(WorkerNode, Rejected(s, env, p, fuel, feedback), env, p, fuel - 2)
  {
    DirectAnswerPass(s, env, p, env.clock(fuel));
    var t1 := FirstAnswer(s, env, p, fuel);
    var u1 := Rejected(s, env, p, fuel, feedback);
    assert Step(EvaluatorNode, t1, env, p, env.clock(fuel - 1)) == Success(u1);
    assert Next(EvaluatorNode, u1) == WorkerNode;
  }

  /** An accepted second answer: the run from the rejected state ends after the second evaluation. */
  lemma SecondAnswerAccepted(s: State, env: Env, p: Prompts, fuel: nat, feedback: string)
    requires fuel >= 4 && forall ms :: AnswersDirectly(env, ms)
    requires var second := env.evaluator(Evaluator.EvaluatorMessages(p.evaluator, SecondAnswer(s, env, p, fuel, feedback)));
      second.Success? && second.value.successCriteriaMet
    ensures var second := env.evaluator(Evaluator.EvaluatorMessages(p.evaluator, SecondAnswer(s, env, p, fuel, feedback)));
      Run(WorkerNode, Rejected(s, env, p, fuel, feedback), env, p, fuel - 2)
      == Success(Apply(SecondAnswer(s, env, p, fuel, feedback), Evaluator.EvaluatorDelta(second.value)))
  {
    var u1 := Rejected(s, env, p, fuel, feedback);
    DirectAnswerPass(u1, env, p, env.clock(fuel - 2));
    var t2 := SecondAnswer(s, env, p, fuel, feedback);
    assert Step(WorkerNode, u1, env, p, env.clock(fuel - 2)) == Success(t2);
    assert Run(WorkerNode, u1, env, p, fuel - 2) == Run(EvaluatorNode, t2, env, p, fuel - 3);
    var v := env.evaluator(Evaluator.EvaluatorMessages(p.evaluator, t2)).value;
    var u2 := Apply(t2, Evaluator.EvaluatorDelta(v));
    assert Step(EvaluatorNode, t2, env, p, env.clock(fuel - 3)) == Success(u2);
    assert Next(EvaluatorNode, u2) == End;
  }

  /**
   * The messages of the rejection loop on a state without system messages:
   * the first answer and its rejection note, then the second answer, which
   * replies to the instruction quoting the feedback ahead of all of them.
   */
  lemma RejectionLoopMessages(s: State, env: Env, p: Prompts, fuel: nat, feedback: string)
    requires fuel >= 2 && NoSystem(s.messages) && forall ms :: AnswersDirectly(env, ms)
    ensures var u1 := Rejected(s, env, p, fuel, feedback);
      var instruction := Worker.Instruction(p.worker, env.clock(fuel - 2), s.successCriteria, Some(feedback));
      && |u1.messages| == |s.messages| + 2
      && u1.messages[..|s.messages|] == s.messages
      && u1.messages[|s.messages| + 1] == Evaluator.FeedbackNote(feedback)
      && u1.successCriteria == s.successCriteria
      && env.worker([SystemMsg(instruction)] + u1.messages).Success?
      && SecondAnswer(s, env, p, fuel, feedback).messages
         == u1.messages + [AiMsg(env.worker([SystemMsg(instruction)] + u1.messages).value.content, [])]
  {
    DirectAnswerPass(s, env, p, env.clock(fuel));
    var t1 := FirstAnswer(s, env, p, fuel);
    var u1 := Rejected(s, env, p, fuel, feedback);
    assert u1.messages == t1.messages + [Evaluator.FeedbackNote(feedback)];
    assert NoSystem(u1.messages);
    DirectAnswerPass(u1, env, p, env.clock(fuel - 2));
  }

  /**
   * The rejection loop. The worker answers directly; the evaluator rejects
   * the first answer with non-empty feedback and accepts the second. Then a
   * run with four passes or more ends after the second evaluation. The
   * second worker pass is shown an instruction quoting the feedback, ahead
   * of the conversation so far, and the round ends with four new messages:
   * answer, rejection note, revised answer, closing note.
   */
  lemma RejectionLoopScenario(s: State, env: Env, p: Prompts, fuel: nat, feedback: string)
    requires fuel >= 4 && NoSystem(s.messages) && feedback != ""
    requires forall ms :: AnswersDirectly(env, ms)
    requires env.evaluator(Evaluator.EvaluatorMessages(p.evaluator, FirstAnswer(s, env, p, fuel)))
             == Success(EvaluatorOutput(feedback, false, false))
    requires var second := env.evaluator(Evaluator.EvaluatorMessages(p.evaluator, SecondAnswer(s, env, p, fuel, feedback)));
      second.Success? && second.value.successCriteriaMet
    ensures Run(WorkerNode, s, env, p, fuel).Success?
    ensures var r := Run(WorkerNode, s, env, p, fuel).value;
      var instruction := Worker.Instruction(p.worker, env.clock(fuel - 2), s.successCriteria, Some(feedback));
      && |r.messages| == |s.messages| + 4
      && r.messages[..|s.messages|] == s.messages
      && r.messages[|s.messages| + 1] == Evaluator.FeedbackNote(feedback)
      && IsInfix(feedback, instruction)
      && r.successCriteriaMet
      && var shown := [SystemMsg(instruction)] + r.messages[..|s.messages| + 2];
      && env.worker(shown).Success?
      && r.messages[|s.messages| + 2] == AiMsg(env.worker(shown).value.content, [])
  {
    FirstAnswerRejected(s, env, p, fuel, feedback);
    SecondAnswerAccepted(s, env, p, fuel, feedback);
    RejectionLoopMessages(s, env, p, fuel, feedback);
    Worker.InstructionQuotesFeedback(p.worker, env.clock(fuel - 2), s.successCriteria, Some(feedback));
    var u1 := Rejected(s, env, p, fuel, feedback);
    var r := Run(WorkerNode, s, env, p, fuel).value;
    assert r.messages[..|s.messages| + 2] == u1.messages;
  }
}
