/**
 * The worker node of sidekick.py: the system instruction it builds, the
 * rule that overwrites existing system messages in place or prepends a new
 * one, and the state delta it returns.
 */
module Worker {
  import opened Wrappers
  import opened Text
  import opened RoundState

  /**
   * The fixed wording of the worker's instruction, cut where the timestamp,
   * the success criteria and the feedback are spliced in. The proofs hold
   * for any wording; `SourceWording` is the text sidekick.py uses.
   */
  datatype Wording = Wording(
    intro: string,
    criteriaHeading: string,
    closing: string,
    rejectionHeading: string,
    rejectionClosing: string)

  const SourceWording: Wording := Wording(
    "You are a helpful assistant that can use tools to complete tasks.\n" +
    "    You keep working on a task until either you have a question or clarification for the user, or the success criteria is met.\n" +
    "    You have many tools to help you, including tools to browse the internet, navigating and retrieving web pages.\n" +
    "    You have a tool to run python code, but note that you would need to include a print() statement if you wanted to receive output.\n" +
    "    The current date and time is ",
    "\n\n    This is the success criteria:\n    ",
    "\n    You should reply either with a question for the user about this assignment, or with your final response.\n" +
    "    If you have a question for the user, you need to reply by clearly stating your question. An example might be:\n\n" +
    "    Question: please clarify whether you want a summary or a detailed answer\n\n" +
    "    If you've finished, reply with the final answer, and don't ask a question; simply reply with the answer.\n    ",
    "\n    Previously you thought you completed the assignment, but your reply was rejected because the success criteria was not met.\n" +
    "    Here is the feedback on why this was rejected:\n    ",
    "\n    With this feedback, please continue the assignment, ensuring that you meet the success criteria or have a question for the user.")

  /** The instruction without the rejection paragraph. */
  function BaseInstruction(w: Wording, now: string, criteria: string): string
  {
    w.intro + now + w.criteriaHeading + criteria + w.closing
  }

  /**
   * The worker's system instruction. It always embeds the timestamp and the
   * success criteria; the rejection paragraph, which quotes the feedback,
   * follows exactly when the feedback is truthy.
   */
  function Instruction(w: Wording, now: string, criteria: string, feedback: Option<string>): (r: string)
    ensures IsPrefix(BaseInstruction(w, now, criteria), r)
    ensures IsInfix(now, r) && IsInfix(criteria, r)
    ensures !Truthy(feedback) ==> r == BaseInstruction(w, now, criteria)
    ensures Truthy(feedback) ==>
      && IsPrefix(w.rejectionHeading, r[|BaseInstruction(w, now, criteria)|..])
      && IsInfix(feedback.value, r[|BaseInstruction(w, now, criteria)|..])
  {
    var base := BaseInstruction(w, now, criteria);
    InfixAtEnd(w.intro, now);
    InfixExtend(now, w.intro + now, w.criteriaHeading);
    InfixExtend(now, w.intro + now + w.criteriaHeading, criteria);
    InfixExtend(now, w.intro + now + w.criteriaHeading + criteria, w.closing);
    InfixAtEnd(w.intro + now + w.criteriaHeading, criteria);
    InfixExtend(criteria, w.intro + now + w.criteriaHeading + criteria, w.closing);
    var quoted := if Truthy(feedback) then feedback.value else "";
    var extra := if Truthy(feedback) then w.rejectionHeading + quoted + w.rejectionClosing else "";
    InfixAtEnd(w.rejectionHeading, quoted);
    InfixExtend(quoted, w.rejectionHeading + quoted, w.rejectionClosing);
    PrefixOfConcat(w.rejectionHeading, quoted + w.rejectionClosing);
    assert w.rejectionHeading + quoted + w.rejectionClosing == w.rejectionHeading + (quoted + w.rejectionClosing);
    InfixExtend(now, base, extra);
    InfixExtend(criteria, base, extra);
    PrefixOfConcat(base, extra);
    assert base + "" == base;
    base + extra
  }

  /** A truthy feedback is quoted somewhere in the instruction. */
  lemma InstructionQuotesFeedback(w: Wording, now: string, criteria: string, feedback: Option<string>)
    requires Truthy(feedback)
    ensures IsInfix(feedback.value, Instruction(w, now, criteria, feedback))
  {
    InfixOfSuffix(feedback.value, Instruction(w, now, criteria, feedback), |BaseInstruction(w, now, criteria)|);
  }

  /** One message after the overwrite: a system message takes the new content. */
  function Overwrite(m: Message, instruction: string): Message
  {
    if m.SystemMsg? then SystemMsg(instruction) else m
  }

  /** The list after every system message in it has been overwritten in place. */
  function Overwritten(ms: seq<Message>, instruction: string): (r: seq<Message>)
    ensures |r| == |ms|
  {
    seq(|ms|, i requires 0 <= i < |ms| => Overwrite(ms[i], instruction))
  }

  /** Some message of the list is a system message. */
  predicate HasSystem(ms: seq<Message>)
  {
    exists i :: 0 <= i < |ms| && ms[i].SystemMsg?
  }

  /**
   * The messages handed to the worker model: the overwritten list when it
   * already held a system message, else a fresh system message prepended.
   */
  function Sent(ms: seq<Message>, instruction: string): seq<Message>
  {
    if HasSystem(ms) then Overwritten(ms, instruction)
    else [SystemMsg(instruction)] + ms
  }

  /**
   * The loop of the worker step over the state's own message list: every
   * system message is overwritten in place (so the state sees the change),
   * and the list for the model gets a prepended system message only when
   * none was found.
   */
  method PrepareMessages(messages: array<Message>, instruction: string) returns (sent: seq<Message>)
    modifies messages
    ensures messages[..] == Overwritten(old(messages[..]), instruction)
    ensures sent == Sent(old(messages[..]), instruction)
  {
    var found := false;
    var i := 0;
    while i < messages.Length
      invariant 0 <= i <= messages.Length
      invariant found <==> exists j :: 0 <= j < i && old(messages[j]).SystemMsg?
      invariant forall j :: 0 <= j < i ==> messages[j] == Overwrite(old(messages[j]), instruction)
      invariant forall j :: i <= j < messages.Length ==> messages[j] == old(messages[j])
    {
      if messages[i].SystemMsg? {
        messages[i] := SystemMsg(instruction);
        found := true;
      }
      i := i + 1;
    }
    assert found <==> HasSystem(old(messages[..])) by {
      if found {
        var j :| 0 <= j < messages.Length && old(messages[j]).SystemMsg?;
        assert old(messages[..])[j].SystemMsg?;
      }
    }
    if !found {
      assert messages[..] == old(messages[..]);
      sent := [SystemMsg(instruction)] + messages[..];
    } else {
      sent := messages[..];
    }
  }

  /** The worker's delta: the model's reply as one assistant message, nothing else. */
  function WorkerDelta(reply: Reply): Delta
  {
    Delta([AiMsg(reply.content, reply.toolCalls)], None, None, None)
  }

  /**
   * One worker pass: the instruction is built from the state, the system
   * messages in the state are overwritten (they are the same objects), the
   * model is called on the sent list and its reply is appended.
   */
  function WorkerStep(s: State, env: Env, w: Wording, now: string): (r: Result<State, RoundError>)
    ensures r.Success? ==>
      && |r.value.messages| == |s.messages| + 1
      && r.value.messages[|s.messages|].AiMsg?
      && r.value.successCriteria == s.successCriteria
      && r.value.feedbackOnWork == s.feedbackOnWork
      && r.value.successCriteriaMet == s.successCriteriaMet
      && r.value.userInputNeeded == s.userInputNeeded
  {
    var instruction := Instruction(w, now, s.successCriteria, s.feedbackOnWork);
    match env.worker(Sent(s.messages, instruction))
    case Failure(e) => Failure(WorkerFailed(e))
    case Success(reply) => Success(Apply(s.(messages := Overwritten(s.messages, instruction)), WorkerDelta(reply)))
  }

  /** The messages of a list that are not system messages, in order. */
  function Dialogue(ms: seq<Message>): seq<Message>
  {
    if ms == [] then []
    else Dialogue(ms[..|ms| - 1]) + (if ms[|ms| - 1].SystemMsg? then [] else [ms[|ms| - 1]])
  }

  lemma {:induction false} DialogueOverwritten(ms: seq<Message>, instruction: string)
    ensures Dialogue(Overwritten(ms, instruction)) == Dialogue(ms)
    ensures CountSystem(Overwritten(ms, instruction)) == CountSystem(ms)
    ensures ToolResultCount(Overwritten(ms, instruction)) == ToolResultCount(ms)
    decreases |ms|
  {
    if ms != [] {
      var n := |ms| - 1;
      assert Overwritten(ms, instruction)[..n] == Overwritten(ms[..n], instruction);
      DialogueOverwritten(ms[..n], instruction);
    }
  }

  lemma {:induction false} DialoguePrepend(m: Message, ms: seq<Message>)
    requires m.SystemMsg?
    ensures Dialogue([m] + ms) == Dialogue(ms)
    ensures CountSystem([m] + ms) == CountSystem(ms) + 1
    ensures ToolResultCount([m] + ms) == ToolResultCount(ms)
    decreases |ms|
  {
    if ms == [] {
      assert Dialogue([m]) == Dialogue([]) + [];
    } else {
      var n := |ms| - 1;
      assert ([m] + ms)[..n + 1] == [m] + ms[..n];
      DialoguePrepend(m, ms[..n]);
    }
  }

  lemma {:induction false} CountSystemPositive(ms: seq<Message>)
    ensures CountSystem(ms) > 0 <==> HasSystem(ms)
    decreases |ms|
  {
    if ms != [] {
      var n := |ms| - 1;
      CountSystemPositive(ms[..n]);
      if HasSystem(ms[..n]) {
        var j :| 0 <= j < n && ms[..n][j].SystemMsg?;
        assert ms[j].SystemMsg?;
      }
      if HasSystem(ms) && !ms[n].SystemMsg? {
        var j :| 0 <= j < |ms| && ms[j].SystemMsg?;
        assert ms[..n][j].SystemMsg?;
      }
    }
  }

  /**
   * The system-message rule: the list sent to the model keeps every other
   * message in order, every system message in it carries the new
   * instruction, and it holds exactly one system message when the state held
   * none, otherwise as many as the state held.
   */
  lemma SentSystemMessages(ms: seq<Message>, instruction: string)
    ensures Dialogue(Sent(ms, instruction)) == Dialogue(ms)
    ensures forall i :: 0 <= i < |Sent(ms, instruction)| && Sent(ms, instruction)[i].SystemMsg? ==>
              Sent(ms, instruction)[i] == SystemMsg(instruction)
    ensures CountSystem(Sent(ms, instruction)) == if CountSystem(ms) == 0 then 1 else CountSystem(ms)
  {
    CountSystemPositive(ms);
    if HasSystem(ms) {
      DialogueOverwritten(ms, instruction);
    } else {
      DialoguePrepend(SystemMsg(instruction), ms);
    }
  }

  /** Neither the overwrite nor the list sent to the model adds or drops a tool result. */
  lemma SentKeepsToolResults(ms: seq<Message>, instruction: string)
    ensures ToolResultCount(Overwritten(ms, instruction)) == ToolResultCount(ms)
    ensures ToolResultCount(Sent(ms, instruction)) == ToolResultCount(ms)
  {
    DialogueOverwritten(ms, instruction);
    if !HasSystem(ms) {
      DialoguePrepend(SystemMsg(instruction), ms);
    }
  }

  /**
   * The worker's contribution to the state is the model's reply alone: the
   * prepended system message never enters the state, and a state without
   * system messages gains none.
   */
  lemma WorkerAddsOnlyTheReply(s: State, env: Env, w: Wording, now: string)
    requires env.worker(Sent(s.messages, Instruction(w, now, s.successCriteria, s.feedbackOnWork))).Success?
    ensures var reply := env.worker(Sent(s.messages, Instruction(w, now, s.successCriteria, s.feedbackOnWork))).value;
      && WorkerStep(s, env, w, now).Success?
      && WorkerStep(s, env, w, now).value.messages
         == Overwritten(s.messages, Instruction(w, now, s.successCriteria, s.feedbackOnWork)) + [AiMsg(reply.content, reply.toolCalls)]
      && (NoSystem(s.messages) ==> WorkerStep(s, env, w, now).value.messages == s.messages + [AiMsg(reply.content, reply.toolCalls)])
  {
    var instruction := Instruction(w, now, s.successCriteria, s.feedbackOnWork);
    if NoSystem(s.messages) {
      assert Overwritten(s.messages, instruction) == s.messages;
    }
  }
}
