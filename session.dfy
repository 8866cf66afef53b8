/**
 * One conversation session of sidekick.py: the persisted chat memory, the
 * seeding of a round from it, the bookkeeping after a round (memory and
 * visible history), and the object that owns the tools, the browser handles
 * and the compiled graph.
 */
module Session {
  import opened Wrappers
  import opened Text
  import opened RoundState
  import Tools
  import Graph
  import Evaluator

  /** The criteria a round is judged by when the user gives none. */
  const DefaultCriteria: string := "The answer should be clear and accurate"

  /** The graph runtime's default budget of node passes for one invocation. */
  const RecursionLimit: nat := 25

  datatype Role = User | Assistant

  /** One entry of the persisted memory or of the visible history: who spoke, and the text. */
  datatype Turn = Turn(role: Role, content: string)

  /** How a persisted entry comes back as a message: user text, or assistant text without tool calls. */
  function AsMessage(t: Turn): Message
  {
    match t.role
    case User => HumanMsg(t.content)
    case Assistant => AiMsg(t.content, [])
  }

  /** The persisted memory loaded as messages, entry by entry, keeping role and text. */
  function Loaded(memory: seq<Turn>): (ms: seq<Message>)
    ensures |ms| == |memory|
    ensures forall i :: 0 <= i < |memory| ==>
      && ms[i].content == memory[i].content
      && (ms[i].HumanMsg? <==> memory[i].role == User)
      && (ms[i].AiMsg? <==> memory[i].role == Assistant)
      && (ms[i].AiMsg? ==> ms[i].toolCalls == [])
    ensures NoSystem(ms)
  {
    seq(|memory|, i requires 0 <= i < |memory| => AsMessage(memory[i]))
  }

  /** Loading distributes over appending entries. */
  lemma LoadedAppend(memory: seq<Turn>, more: seq<Turn>)
    ensures Loaded(memory + more) == Loaded(memory) + Loaded(more)
  {
    assert forall i :: 0 <= i < |memory| + |more| ==>
      Loaded(memory + more)[i] == (Loaded(memory) + Loaded(more))[i] by {
      forall i | 0 <= i < |memory| + |more|
        ensures Loaded(memory + more)[i] == (Loaded(memory) + Loaded(more))[i]
      {
        if i < |memory| {
          assert (memory + more)[i] == memory[i];
        } else {
          assert (memory + more)[i] == more[i - |memory|];
        }
      }
    }
  }

  /** The criteria of a round: the given text, or the default when it is empty; never empty. */
  function Criteria(given: string): (c: string)
    ensures c != ""
    ensures given != "" ==> c == given
    ensures given == "" ==> c == DefaultCriteria
  {
    if given != "" then given else DefaultCriteria
  }

  /**
   * The state a round starts from: the persisted memory, then the new user
   * message; no feedback yet, both flags down. It holds no system message.
   */
  function Seed(memory: seq<Turn>, message: string, criteria: string): (s: State)
    ensures |s.messages| == |memory| + 1
    ensures s.messages[..|memory|] == Loaded(memory)
    ensures s.messages[|memory|] == HumanMsg(message)
    ensures s.successCriteria != ""
    ensures s.feedbackOnWork == None && !s.successCriteriaMet && !s.userInputNeeded
    ensures NoSystem(s.messages)
  {
    var s := State(Loaded(memory) + [HumanMsg(message)], Criteria(criteria), None, false, false);
    assert s.messages[..|memory|] == Loaded(memory);
    s
  }

  /** What a round leaves behind: the persisted memory and the visible history. */
  datatype Outcome = Outcome(memory: seq<Turn>, history: seq<Turn>)

  /**
   * One round: run the graph from its entry on the seeded state; then
   * persist the user message and the reply (the message before the
   * evaluator's closing note), and extend the visible history by the user
   * message, the reply and the note. A failing graph run leaves nothing
   * behind.
   */
  function Superstep(memory: seq<Turn>, message: string, criteria: string, history: seq<Turn>,
                     env: Env, p: Graph.Prompts, limit: nat): Result<Outcome, RoundError>
  {
    var s := Seed(memory, message, criteria);
    match Graph.Run(Graph.Entry, s, env, p, limit)
    case Failure(e) => Failure(e)
    case Success(t) =>
      Graph.RunSettles(Graph.Entry, s, env, p, limit);
      Success(Record(memory, message, history, t))
  }

  /**
   * What a round leaves behind once the graph has reached END with state
   * `t`: the memory extended by the user message and the reply, the history
   * by the user message, the reply and the closing note.
   */
  function Record(memory: seq<Turn>, message: string, history: seq<Turn>, t: State): Outcome
    requires |t.messages| >= 2
  {
    var reply := t.messages[|t.messages| - 2].content;
    var note := t.messages[|t.messages| - 1].content;
    Outcome(
      memory + [Turn(User, message), Turn(Assistant, reply)],
      history + [Turn(User, message), Turn(Assistant, reply), Turn(Assistant, note)])
  }

  /** A round whose graph run succeeds is recorded from that run's final state. */
  lemma SuperstepOfRun(memory: seq<Turn>, message: string, criteria: string, history: seq<Turn>,
                       env: Env, p: Graph.Prompts, limit: nat)
    requires Graph.Run(Graph.Entry, Seed(memory, message, criteria), env, p, limit).Success?
    ensures var t := Graph.Run(Graph.Entry, Seed(memory, message, criteria), env, p, limit).value;
      && |t.messages| >= 2
      && Superstep(memory, message, criteria, history, env, p, limit) == Success(Record(memory, message, history, t))
  {
    Graph.RunSettles(Graph.Entry, Seed(memory, message, criteria), env, p, limit);
  }

  /**
   * The bookkeeping of a finished round. The history grows by exactly three
   * entries after the old ones: the user message, then the reply, then the
   * evaluator's note with its fixed prefix. The memory grows by the user
   * message and then the same reply. The reply is the final assistant text
   * of the run, which asks for no tools, and the run kept the seeded
   * messages in front without ever holding a system message.
   */
  lemma SuperstepBookkeeping(memory: seq<Turn>, message: string, criteria: string, history: seq<Turn>,
                             env: Env, p: Graph.Prompts, limit: nat)
    requires Superstep(memory, message, criteria, history, env, p, limit).Success?
    ensures Graph.Run(Graph.Entry, Seed(memory, message, criteria), env, p, limit).Success?
    ensures var o := Superstep(memory, message, criteria, history, env, p, limit).value;
      var s := Seed(memory, message, criteria);
      var t := Graph.Run(Graph.Entry, s, env, p, limit).value;
      && |o.history| == |history| + 3
      && o.history[..|history|] == history
      && o.history[|history|] == Turn(User, message)
      && o.history[|history| + 1].role == Assistant
      && o.memory == memory + [Turn(User, message), o.history[|history| + 1]]
      && |t.messages| >= |s.messages| + 2
      && t.messages[..|s.messages|] == s.messages
      && NoSystem(t.messages)
      && t.messages[|t.messages| - 2] == AiMsg(o.history[|history| + 1].content, [])
      && t.feedbackOnWork.Some?
      && o.history[|history| + 2] == Turn(Assistant, Evaluator.FeedbackNotePrefix + t.feedbackOnWork.value)
      && IsPrefix(Evaluator.FeedbackNotePrefix, o.history[|history| + 2].content)
  {
    var s := Seed(memory, message, criteria);
    Graph.RunSettles(Graph.Entry, s, env, p, limit);
    Graph.RunKeepsSystemMessagesOut(Graph.Entry, s, env, p, limit);
    var t := Graph.Run(Graph.Entry, s, env, p, limit).value;
    var o := Superstep(memory, message, criteria, history, env, p, limit).value;
    var note := Evaluator.FeedbackNotePrefix + t.feedbackOnWork.value;
    assert o.history == history + [Turn(User, message), o.history[|history| + 1], Turn(Assistant, note)];
    PrefixOfConcat(Evaluator.FeedbackNotePrefix, t.feedbackOnWork.value);
  }

  /**
   * Rounds chain through the memory: the next round's seed is this round's
   * seed followed by the reply and the next user message.
   */
  lemma NextRoundSeesThisRound(memory: seq<Turn>, message: string, criteria: string, history: seq<Turn>,
                               env: Env, p: Graph.Prompts, limit: nat, nextMessage: string, nextCriteria: string)
    requires Superstep(memory, message, criteria, history, env, p, limit).Success?
    ensures var o := Superstep(memory, message, criteria, history, env, p, limit).value;
      var reply := o.history[|history| + 1].content;
      Seed(o.memory, nextMessage, nextCriteria).messages ==
        Seed(memory, message, criteria).messages + [AiMsg(reply, []), HumanMsg(nextMessage)]
  {
    SuperstepBookkeeping(memory, message, criteria, history, env, p, limit);
    var o := Superstep(memory, message, criteria, history, env, p, limit).value;
    var reply := o.history[|history| + 1];
    LoadedAppend(memory, [Turn(User, message), reply]);
    assert Loaded([Turn(User, message), reply]) == [HumanMsg(message), AiMsg(reply.content, [])];
  }

  /**
   * A simple question: when the worker model answers without tools and the
   * evaluator accepts (or asks the user), every budget of two passes or more
   * completes the round, and what is persisted is the user message and the
   * worker's answer, the message right after the seed.
   */
  lemma SimpleQuestionScenario(memory: seq<Turn>, message: string, criteria: string, history: seq<Turn>,
                               env: Env, p: Graph.Prompts, limit: nat)
    requires limit >= 2
    requires forall ms :: env.worker(ms).Success? && env.worker(ms).value.toolCalls == []
    requires forall ms :: env.evaluator(ms).Success? &&
               (env.evaluator(ms).value.successCriteriaMet || env.evaluator(ms).value.userInputNeeded)
    ensures Superstep(memory, message, criteria, history, env, p, limit).Success?
    ensures var s := Seed(memory, message, criteria);
      var t := Graph.Run(Graph.Entry, s, env, p, limit).value;
      var o := Superstep(memory, message, criteria, history, env, p, limit).value;
      && |t.messages| == |s.messages| + 2
      && o.memory == memory + [Turn(User, message), Turn(Assistant, t.messages[|s.messages|].content)]
      && |o.history| == |history| + 3
  {
    var s := Seed(memory, message, criteria);
    Graph.SettledModelsReachEnd(s, env, p, limit);
    SuperstepBookkeeping(memory, message, criteria, history, env, p, limit);
  }

  /**
   * The runtime's budget bounds the tool loop. When the worker asks for one
   * tool at a time, `quota` times in all, and the evaluator then ends the
   * round, the round completes within the default budget of 25 passes
   * exactly when there are at most 11 tool rounds; with more, it stops at
   * the step limit and nothing is recorded.
   */
  lemma ToolRoundsWithinRecursionLimit(memory: seq<Turn>, message: string, criteria: string, history: seq<Turn>,
                                       env: Env, p: Graph.Prompts, quota: nat)
    requires Graph.ToolsUntil(env, quota) && Graph.EvaluatorEnds(env)
    ensures Superstep(memory, message, criteria, history, env, p, RecursionLimit).Success? <==> quota <= 11
    ensures quota > 11 ==> Superstep(memory, message, criteria, history, env, p, RecursionLimit) == Failure(StepLimitReached)
  {
    var s := Seed(memory, message, criteria);
    assert forall i :: 0 <= i < |s.messages| ==> !s.messages[i].ToolMsg? by {
      forall i | 0 <= i < |s.messages|
        ensures !s.messages[i].ToolMsg?
      {
        if i < |memory| {
          assert s.messages[i] == s.messages[..|memory|][i];
        }
      }
    }
    NoToolResults(s.messages);
    Graph.ToolLoopReachesEnd(s, env, p, quota, RecursionLimit);
  }

  /** A request the session makes to the browser automation library when it releases its resources. */
  datatype Teardown = CloseBrowser(browser: Tools.Handle) | StopPlaywright(playwright: Tools.Handle)

  /**
   * What releasing asks for: nothing without a browser; otherwise closing
   * the browser, then stopping the driver when there is one.
   */
  function TeardownRequests(browser: Option<Tools.Handle>, playwright: Option<Tools.Handle>): (rs: seq<Teardown>)
    ensures browser.None? ==> rs == []
    ensures browser.Some? ==> |rs| >= 1 && rs[0] == CloseBrowser(browser.value)
    ensures (exists h :: StopPlaywright(h) in rs) <==> browser.Some? && playwright.Some?
    ensures playwright.Some? && browser.Some? ==> rs == [CloseBrowser(browser.value), StopPlaywright(playwright.value)]
    ensures |rs| <= 2 && forall i :: 1 <= i < |rs| ==> rs[i].StopPlaywright?
  {
    if browser.None? then []
    else [CloseBrowser(browser.value)] + (if playwright.Some? then [StopPlaywright(playwright.value)] else [])
  }

  /** The session object: its persisted memory, its tools, the two browser handles and the compiled graph. */
  class Sidekick {
    var chatMemory: seq<Turn>
    var tools: Option<seq<Tools.Tool>>
    var browser: Option<Tools.Handle>
    var playwright: Option<Tools.Handle>
    var graph: Option<Env>
    /** The wording of the worker's and the evaluator's prompts. */
    const prompts: Graph.Prompts

    /** The browser and the driver are held together or not at all. */
    predicate HandlesPaired()
      reads this
    {
      browser.Some? <==> playwright.Some?
    }

    /**
     * A new session over the memory already persisted in its store; nothing
     * is set up yet. `wording` is the prompt text the session's worker and
     * evaluator use (the source's own is `Graph.SourcePrompts`).
     */
    constructor(memory: seq<Turn>, wording: Graph.Prompts)
      ensures chatMemory == memory
      ensures tools == None && browser == None && playwright == None && graph == None
      ensures prompts == wording
      ensures HandlesPaired()
    {
      prompts := wording;
      chatMemory := memory;
      tools := None;
      browser := None;
      playwright := None;
      graph := None;
    }

    /**
     * Acquire the tools (file tools in the default sandbox directory) and
     * the browser handles, bind the tools to the models and compile the
     * graph; `bind` stands for binding the tool list to the worker model and
     * the tools node. The memory is untouched.
     */
    method Setup(b: Tools.Backends, bind: seq<Tools.Tool> -> Env)
      modifies this`tools, this`browser, this`playwright, this`graph
      ensures var all := Tools.AllToolsWithBrowser(b, Tools.DefaultSandboxDir);
        && tools == Some(all.0) && browser == all.1 && playwright == all.2
        && graph == Some(bind(all.0))
      ensures HandlesPaired()
    {
      var ts, br, pw := Tools.GetAllToolsWithBrowser(b, Tools.DefaultSandboxDir);
      tools, browser, playwright := Some(ts), br, pw;
      graph := Some(bind(ts));
    }

    /**
     * One round for a user submission. Without a compiled graph the round
     * fails and nothing changes; a failing run changes nothing either;
     * otherwise the memory and the returned history are the round's
     * outcome, with the session's prompts and the runtime's default budget.
     */
    method RunSuperstep(message: string, criteria: string, history: seq<Turn>)
      returns (r: Result<seq<Turn>, RoundError>)
      modifies this`chatMemory
      ensures graph.None? ==> r == Failure(NotSetUp) && chatMemory == old(chatMemory)
      ensures graph.Some? ==>
        var round := Superstep(old(chatMemory), message, criteria, history, graph.value, prompts, RecursionLimit);
        && (round.Failure? ==> r == Failure(round.error) && chatMemory == old(chatMemory))
        && (round.Success? ==> r == Success(round.value.history) && chatMemory == round.value.memory)
    {
      if graph.None? {
        return Failure(NotSetUp);
      }
      var env := graph.value;
      var memory := chatMemory;
      var state := Seed(memory, message, criteria);
      var result := Graph.Run(Graph.Entry, state, env, prompts, RecursionLimit);
      if result.Failure? {
        assert Superstep(memory, message, criteria, history, env, prompts, RecursionLimit) == Failure(result.error);
        return Failure(result.error);
      }
      var t := result.value;
      SuperstepOfRun(memory, message, criteria, history, env, prompts, RecursionLimit);
      var entries := Persist(message, history, t);
      r := Success(entries);
    }

    /**
     * The bookkeeping after the graph has returned `t`: persist the user
     * message, then the reply (the message before the closing note), and
     * return the history extended by the user message, the reply and the note.
     */
    method Persist(message: string, history: seq<Turn>, t: State) returns (entries: seq<Turn>)
      requires |t.messages| >= 2
      modifies this`chatMemory
      ensures Outcome(chatMemory, entries) == Record(old(chatMemory), message, history, t)
    {
      chatMemory := chatMemory + [Turn(User, message)];
      var reply := t.messages[|t.messages| - 2].content;
      chatMemory := chatMemory + [Turn(Assistant, reply)];
      var user := Turn(User, message);
      var answer := Turn(Assistant, reply);
      var feedback := Turn(Assistant, t.messages[|t.messages| - 1].content);
      entries := history + [user, answer, feedback];
    }

    /**
     * Release the browser resources: the requests of `TeardownRequests`; the
     * handles are kept. Since setup acquires both handles or neither, a set-up
     * session asks for both teardowns or none.
     */
    method Cleanup() returns (requests: seq<Teardown>)
      ensures requests == TeardownRequests(browser, playwright)
      ensures HandlesPaired() ==> |requests| == if browser.Some? then 2 else 0
    {
      requests := [];
      if browser.Some? {
        requests := requests + [CloseBrowser(browser.value)];
        if playwright.Some? {
          requests := requests + [StopPlaywright(playwright.value)];
        }
      }
    }

    /** The public name for releasing: the same requests as `Cleanup`. */
    method FreeResources() returns (requests: seq<Teardown>)
      ensures requests == TeardownRequests(browser, playwright)
      ensures HandlesPaired() ==> |requests| == if browser.Some? then 2 else 0
    {
      requests := Cleanup();
    }
  }
}
