/**
 * The evaluator node of sidekick.py: the conversation rendering, the
 * prompt built around it, and the state delta made from the verdict.
 */
module Evaluator {
  import opened Wrappers
  import opened Text
  import opened RoundState

  const Header: string := "Conversation history:\n\n"
  const ToolsUse: string := "[Tools use]"
  const UserTag: string := "User: "
  const AssistantTag: string := "Assistant: "
  const Newline: string := "\n"
  const FeedbackNotePrefix: string := "Evaluator Feedback on this answer: "

  /** The line one message contributes; messages other than user and assistant ones add nothing. */
  function Line(m: Message): string
  {
    match m
    case HumanMsg(c) => UserTag + c + Newline
    case AiMsg(c, _) => AssistantTag + (if c == "" then ToolsUse else c) + Newline
    case _ => ""
  }

  /** The concatenation of the text `f` gives each message, in order. */
  function Joined(ms: seq<Message>, f: Message -> string): string
  {
    if ms == [] then "" else Joined(ms[..|ms| - 1], f) + f(ms[|ms| - 1])
  }

  /** The lines of a list of messages, in order. */
  function Lines(ms: seq<Message>): string
  {
    Joined(ms, Line)
  }

  /** The rendering of a conversation. */
  function Conversation(ms: seq<Message>): string
  {
    Header + Lines(ms)
  }

  /** The conversation renderer: a loop accumulating one line per user or assistant message. */
  method FormatConversation(messages: seq<Message>) returns (conversation: string)
    ensures conversation == Conversation(messages)
  {
    conversation := Header;
    for i := 0 to |messages|
      invariant conversation == Header + Lines(messages[..i])
    {
      var line: string;
      match messages[i] {
        case HumanMsg(c) =>
          line := UserTag + c + Newline;
        case AiMsg(c, _) =>
          var text := if c == "" then ToolsUse else c;
          line := AssistantTag + text + Newline;
        case _ =>
          line := "";
      }
      assert line == Line(messages[i]);
      assert messages[..i + 1][..i] == messages[..i];
      assert messages[..i + 1][i] == messages[i];
      assert Lines(messages[..i + 1]) == Lines(messages[..i]) + line;
      assert Header + Lines(messages[..i]) + line == Header + (Lines(messages[..i]) + line);
      conversation := conversation + line;
    }
    assert messages[..|messages|] == messages;
  }

  lemma {:induction false} JoinedAppend(a: seq<Message>, b: seq<Message>, f: Message -> string)
    ensures Joined(a + b, f) == Joined(a, f) + Joined(b, f)
    decreases |b|
  {
    if b == [] {
      assert a + b == a;
    } else {
      var n := |b| - 1;
      assert (a + b)[..|a + b| - 1] == a + b[..n];
      JoinedAppend(a, b[..n], f);
    }
  }

  /** Rendering distributes over concatenation: lines come out in message order. */
  lemma LinesAppend(a: seq<Message>, b: seq<Message>)
    ensures Lines(a + b) == Lines(a) + Lines(b)
  {
    JoinedAppend(a, b, Line);
  }

  /** The user and assistant messages of a list, in order. */
  function Chat(ms: seq<Message>): (r: seq<Message>)
    ensures forall i :: 0 <= i < |r| ==> r[i].HumanMsg? || r[i].AiMsg?
  {
    if ms == [] then []
    else Chat(ms[..|ms| - 1]) + (if ms[|ms| - 1].HumanMsg? || ms[|ms| - 1].AiMsg? then [ms[|ms| - 1]] else [])
  }

  /**
   * Every message kind other than user and assistant is skipped, and each
   * of the remaining messages contributes exactly one line.
   */
  lemma {:induction false} RenderingSkipsOtherKinds(ms: seq<Message>)
    ensures Lines(ms) == Lines(Chat(ms))
    decreases |ms|
  {
    if ms != [] {
      var n := |ms| - 1;
      RenderingSkipsOtherKinds(ms[..n]);
      var tail := if ms[n].HumanMsg? || ms[n].AiMsg? then [ms[n]] else [];
      LinesAppend(Chat(ms[..n]), tail);
      if tail == [] {
        assert Lines(tail) == "";
      } else {
        assert tail[..0] == [];
      }
    }
  }

  /**
   * Every user and assistant message is quoted in the rendering, at the
   * position right after the rendering of the messages before it: user text
   * behind "User: ", assistant text behind "Assistant: " (with "[Tools use]"
   * for an empty reply), each on a line of its own.
   */
  lemma ConversationQuotesMessage(ms: seq<Message>, i: nat)
    requires i < |ms|
    ensures OccursAt(Line(ms[i]), Conversation(ms), |Conversation(ms[..i])|)
    ensures ms[i].HumanMsg? ==>
      OccursAt(UserTag + ms[i].content + Newline, Conversation(ms), |Conversation(ms[..i])|)
    ensures ms[i].AiMsg? ==>
      OccursAt(AssistantTag + (if ms[i].content == "" then ToolsUse else ms[i].content) + Newline,
               Conversation(ms), |Conversation(ms[..i])|)
  {
    var before := ms[..i];
    var rest := ms[i + 1..];
    assert ms == before + [ms[i]] + rest;
    LinesAppend(before + [ms[i]], rest);
    LinesAppend(before, [ms[i]]);
    assert [ms[i]][..0] == [];
    assert Lines([ms[i]]) == Line(ms[i]);
    Regroup(Header, Lines(before), Line(ms[i]), Lines(rest));
    OccursBetween(Conversation(before), Line(ms[i]), Lines(rest));
  }

  lemma Regroup(h: string, a: string, l: string, r: string)
    ensures h + (a + l + r) == (h + a) + l + r
  {
  }

  /**
   * The fixed wording of the evaluator's two prompts, cut where the
   * conversation, the criteria, the last response and the earlier feedback
   * are spliced in. The proofs hold for any wording; `SourceWording` is the
   * text sidekick.py uses.
   */
  datatype Wording = Wording(
    system: string,
    intro: string,
    criteriaHeading: string,
    responseHeading: string,
    closing: string,
    reminderIntro: string,
    reminderClosing: string)

  const SourceWording: Wording := Wording(
    "You are an evaluator that determines if a task has been completed successfully by an Assistant.\n" +
    "    Assess the Assistant's last response based on the given criteria. Respond with your feedback, and with your decision on whether the success criteria has been met,\n" +
    "    and whether more input is needed from the user.",
    "You are evaluating a conversation between the User and Assistant. You decide what action to take based on the last response from the Assistant.\n\n" +
    "    The entire conversation with the assistant, with the user's original request and all replies, is:\n    ",
    "\n\n    The success criteria for this assignment is:\n    ",
    "\n\n    And the final response from the Assistant that you are evaluating is:\n    ",
    "\n\n    Respond with your feedback, and decide if the success criteria is met by this response.\n" +
    "    Also, decide if more user input is required, either because the assistant has a question, needs clarification, or seems to be stuck and unable to answer without help.\n\n" +
    "    The Assistant has access to a tool to write files. If the Assistant says they have written a file, then you can assume they have done so.\n" +
    "    Overall you should give the Assistant the benefit of the doubt if they say they've done something. But you should reject if you feel that more work should go into this.\n\n    ",
    "Also, note that in a prior attempt from the Assistant, you provided this feedback: ",
    "\n\nIf you're seeing the Assistant repeating the same mistakes, then consider responding that user input is required.")

  /** The user prompt without the reminder of earlier feedback. */
  function BasePrompt(w: Wording, s: State): string
    requires |s.messages| > 0
  {
    w.intro + Conversation(s.messages) + w.criteriaHeading + s.successCriteria
    + w.responseHeading + s.messages[|s.messages| - 1].content + w.closing
  }

  /**
   * The evaluator's user prompt. It always quotes the rendered conversation,
   * the success criteria and the last message's content; a reminder quoting
   * the earlier feedback follows exactly when that feedback is truthy.
   */
  function UserPrompt(w: Wording, s: State): (r: string)
    requires |s.messages| > 0
    ensures IsPrefix(BasePrompt(w, s), r)
    ensures IsInfix(Conversation(s.messages), r)
    ensures IsInfix(s.successCriteria, r)
    ensures IsInfix(s.messages[|s.messages| - 1].content, r)
    ensures !Truthy(s.feedbackOnWork) ==> r == BasePrompt(w, s)
    ensures Truthy(s.feedbackOnWork) ==>
      && IsPrefix(w.reminderIntro, r[|BasePrompt(w, s)|..])
      && IsInfix(s.feedbackOnWork.value, r[|BasePrompt(w, s)|..])
  {
    var base := BasePrompt(w, s);
    var last := s.messages[|s.messages| - 1].content;
    var conv := Conversation(s.messages);
    var quoted := if Truthy(s.feedbackOnWork) then s.feedbackOnWork.value else "";
    var extra := if Truthy(s.feedbackOnWork) then w.reminderIntro + quoted + w.reminderClosing else "";
    var p1 := w.intro + conv;
    var p2 := p1 + w.criteriaHeading + s.successCriteria;
    var p3 := p2 + w.responseHeading + last;
    assert base == p3 + w.closing;
    InfixAtEnd(w.intro, conv);
    InfixExtend(conv, p1, w.criteriaHeading);
    InfixExtend(conv, p1 + w.criteriaHeading, s.successCriteria);
    InfixAtEnd(p1 + w.criteriaHeading, s.successCriteria);
    InfixExtend(conv, p2, w.responseHeading);
    InfixExtend(conv, p2 + w.responseHeading, last);
    InfixExtend(s.successCriteria, p2, w.responseHeading);
    InfixExtend(s.successCriteria, p2 + w.responseHeading, last);
    InfixAtEnd(p2 + w.responseHeading, last);
    InfixExtend(conv, p3, w.closing);
    InfixExtend(s.successCriteria, p3, w.closing);
    InfixExtend(last, p3, w.closing);
    InfixExtend(conv, base, extra);
    InfixExtend(s.successCriteria, base, extra);
    InfixExtend(last, base, extra);
    InfixAtEnd(w.reminderIntro, quoted);
    InfixExtend(quoted, w.reminderIntro + quoted, w.reminderClosing);
    PrefixOfConcat(w.reminderIntro, quoted + w.reminderClosing);
    assert w.reminderIntro + quoted + w.reminderClosing == w.reminderIntro + (quoted + w.reminderClosing);
    PrefixOfConcat(base, extra);
    assert base + "" == base;
    base + extra
  }

  /** The two messages sent to the evaluator model. */
  function EvaluatorMessages(w: Wording, s: State): seq<Message>
    requires |s.messages| > 0
  {
    [SystemMsg(w.system), HumanMsg(UserPrompt(w, s))]
  }

  /** The note appended to the conversation for a given feedback. */
  function FeedbackNote(feedback: string): Message
  {
    AiMsg(FeedbackNotePrefix + feedback, [])
  }

  /** The evaluator's delta, built from its verdict. */
  function EvaluatorDelta(v: EvaluatorOutput): Delta
  {
    Delta([FeedbackNote(v.feedback)], Some(v.feedback), Some(v.successCriteriaMet), Some(v.userInputNeeded))
  }

  /**
   * Merging the evaluator's delta appends exactly one assistant note that
   * quotes the feedback, and copies the feedback and both flags from the
   * verdict unchanged; the criteria and earlier messages stay as they were.
   */
  lemma EvaluatorDeltaEffect(s: State, v: EvaluatorOutput)
    ensures var t := Apply(s, EvaluatorDelta(v));
      && t.messages == s.messages + [AiMsg(FeedbackNotePrefix + v.feedback, [])]
      && t.feedbackOnWork == Some(v.feedback)
      && t.successCriteriaMet == v.successCriteriaMet
      && t.userInputNeeded == v.userInputNeeded
      && t.successCriteria == s.successCriteria
      && IsPrefix(FeedbackNotePrefix, t.messages[|s.messages|].content)
  {
    PrefixOfConcat(FeedbackNotePrefix, v.feedback);
  }

  /** One evaluator pass: prompt the model, then merge the delta built from its verdict. */
  function EvaluatorStep(s: State, env: Env, w: Wording): (r: Result<State, RoundError>)
    requires |s.messages| > 0
    ensures r.Success? ==>
      && |r.value.messages| == |s.messages| + 1
      && r.value.messages[..|s.messages|] == s.messages
      && r.value.feedbackOnWork.Some?
      && r.value.messages[|s.messages|] == FeedbackNote(r.value.feedbackOnWork.value)
      && r.value.successCriteria == s.successCriteria
  {
    match env.evaluator(EvaluatorMessages(w, s))
    case Failure(e) => Failure(EvaluatorFailed(e))
    case Success(v) => Success(Apply(s, EvaluatorDelta(v)))
  }
}
