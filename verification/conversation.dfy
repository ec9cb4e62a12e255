/**
 The turn handler of the chat page as a pure state transition.

 A session state is the latched escalation flag and the append-only message
 log. One run of the handler first appends the user's prompt (when the chat
 input holds one) and then, when the last entry is not from the assistant,
 screens the prompt while the flag is still false, picks the reply (the fixed
 referral text once the flag is set, the generator's output otherwise) and
 appends it as an assistant entry.
 */
module Conversation {
  import opened SafetyScreen

  datatype Role = User | Assistant

  /** One entry of the message log. */
  datatype Message = Message(role: Role, content: string)

  /** The text generator: (prompt, context) to reply; nothing is known about it. */
  type Generator = (string, string) -> string

  const Greeting: string :=
    "Hello, I'm Arpi, your AI therapist! " +
    "I'm here to support you on your journey on " +
    "mental well-being. How are you feeling today? "

  /** The referral sent instead of a generated reply once the flag is set. */
  const SpeakToHumanText: string :=
    "It appears you are discussing a very serious topic (i.e., suicide, inflict harm on your self and others, violence) and I recommend reaching out to a human therapist."

  /** The context string handed to the generator. */
  const Context: string := ""

  /** The placeholder generator, not yet connected to a model. */
  function AssistantStub(prompt: string, context: string := "You are a helpful assistant."): string
  {
    "Not Programmed Yet!"
  }

  datatype State = State(escalated: bool, messages: seq<Message>)

  /** A fresh session: flag down, the log holding the greeting only. */
  function Initial(): State
  {
    State(false, [Message(Assistant, Greeting)])
  }

  /** The role every entry at index `i` has: assistant and user alternate. */
  function RoleAt(i: nat): Role
  {
    if i % 2 == 0 then Assistant else User
  }

  /** The greeting first, then roles alternating, every user entry non-empty. */
  ghost predicate WellFormed(log: seq<Message>)
  {
    && |log| >= 1
    && log[0] == Message(Assistant, Greeting)
    && (forall i :: 0 <= i < |log| ==> log[i].role == RoleAt(i))
    && (forall i :: 0 <= i < |log| && log[i].role == User ==> log[i].content != "")
  }

  /** A well-formed log that ends with an assistant entry: no reply is pending. */
  ghost predicate Settled(log: seq<Message>)
  {
    WellFormed(log) && |log| % 2 == 1
  }

  /** The state between turns: settled log, and a set flag means the latest reply was the referral. */
  ghost predicate Consistent(s: State)
  {
    Settled(s.messages) && (s.escalated ==> s.messages[|s.messages| - 1].content == SpeakToHumanText)
  }

  /** The chat input: a non-empty prompt is appended as a user entry, an empty one is ignored. */
  function Submitted(s: State, prompt: string): State
  {
    if prompt == "" then s
    else s.(messages := s.messages + [Message(User, prompt)])
  }

  /** The flag after screening: the screen runs only while the flag is false. */
  ghost function Screened(escalated: bool, prompt: string): bool
  {
    if !escalated then Serious(prompt) else escalated
  }

  /** The reply chosen for the flag after screening. */
  function Reply(escalated: bool, prompt: string, generate: Generator): string
  {
    if escalated then SpeakToHumanText else generate(prompt, Context)
  }

  /** Reply generation: only when the last entry is not from the assistant. */
  ghost function Responded(s: State, prompt: string, generate: Generator): State
    requires |s.messages| > 0
  {
    if s.messages[|s.messages| - 1].role != Assistant then
      var flag := Screened(s.escalated, prompt);
      State(flag, s.messages + [Message(Assistant, Reply(flag, prompt, generate))])
    else
      s
  }

  /** One run of the turn handler. */
  ghost function Step(s: State, prompt: string, generate: Generator): (t: State)
    requires |s.messages| > 0
    ensures s.messages <= t.messages
  {
    Responded(Submitted(s, prompt), prompt, generate)
  }

  /** A sequence of runs, one per chat input. */
  ghost function Run(s: State, prompts: seq<string>, generate: Generator): State
    requires |s.messages| > 0
    decreases |prompts|
  {
    if prompts == [] then s
    else Run(Step(s, prompts[0], generate), prompts[1..], generate)
  }

  /** The number of inputs that carry a prompt. */
  function Submissions(prompts: seq<string>): nat
  {
    if prompts == [] then 0
    else (if prompts[0] == "" then 0 else 1) + Submissions(prompts[1..])
  }

  // ---------------------------------------------------------------------------
  // Properties of one run

  /** The initial log is the greeting alone, and the initial state is consistent. */
  lemma InitialConsistent()
    ensures Consistent(Initial()) && !Initial().escalated
    ensures Initial().messages == [Message(Assistant, Greeting)]
  {
  }

  /** A reply is produced exactly when the last entry is not from the assistant, and then exactly one. */
  lemma RespondedOnlyAfterUser(s: State, prompt: string, generate: Generator)
    requires |s.messages| > 0
    ensures s.messages[|s.messages| - 1].role == Assistant ==> Responded(s, prompt, generate) == s
    ensures s.messages[|s.messages| - 1].role != Assistant ==>
      var t := Responded(s, prompt, generate);
      && t.messages[..|s.messages|] == s.messages
      && |t.messages| == |s.messages| + 1
      && t.messages[|s.messages|].role == Assistant
  {
  }

  /**
   One run from a settled state: an empty input changes nothing; a prompt adds
   one user entry holding it and one assistant entry holding the reply, which
   is the referral exactly when the flag was set or the prompt is serious, and
   the generator's answer to (prompt, context) otherwise.
   */
  lemma StepAppendsTurn(s: State, prompt: string, generate: Generator)
    requires Settled(s.messages)
    ensures prompt == "" ==> Step(s, prompt, generate) == s
    ensures prompt != "" ==>
      var t := Step(s, prompt, generate);
      && t.escalated == (s.escalated || Serious(prompt))
      && t.messages == s.messages + [Message(User, prompt), Message(Assistant,
           if t.escalated then SpeakToHumanText else generate(prompt, Context))]
  {
    assert s.messages[|s.messages| - 1].role == RoleAt(|s.messages| - 1);
  }

  /** A run keeps the state consistent. */
  lemma StepConsistent(s: State, prompt: string, generate: Generator)
    requires Consistent(s)
    ensures Consistent(Step(s, prompt, generate))
  {
    StepAppendsTurn(s, prompt, generate);
    if prompt != "" {
      var t := Step(s, prompt, generate);
      var n := |s.messages|;
      assert t.messages[n].role == User && t.messages[n + 1].role == Assistant;
      forall i | 0 <= i < |t.messages|
        ensures t.messages[i].role == RoleAt(i)
        ensures t.messages[i].role == User ==> t.messages[i].content != ""
      {
        if i < n {
          assert t.messages[i] == s.messages[i];
        }
      }
    }
  }

  /** Once set, the flag stays set, the reply is the referral and the generator plays no part. */
  lemma EscalatedStepIgnoresGenerator(s: State, prompt: string, g1: Generator, g2: Generator)
    requires Settled(s.messages) && s.escalated
    ensures Step(s, prompt, g1) == Step(s, prompt, g2)
    ensures Step(s, prompt, g1).escalated
    ensures prompt != "" ==> Step(s, prompt, g1).messages[|s.messages| + 1] == Message(Assistant, SpeakToHumanText)
  {
    StepAppendsTurn(s, prompt, g1);
    StepAppendsTurn(s, prompt, g2);
  }

  /** While the flag is down and the prompt passes the screen, the reply is the generator's output. */
  lemma CalmStepUsesGenerator(s: State, prompt: string, generate: Generator)
    requires Settled(s.messages) && !s.escalated
    requires prompt != "" && !Serious(prompt)
    ensures !Step(s, prompt, generate).escalated
    ensures Step(s, prompt, generate).messages[|s.messages| + 1] == Message(Assistant, generate(prompt, Context))
  {
    StepAppendsTurn(s, prompt, generate);
  }

  /** With the placeholder generator a calm turn answers "Not Programmed Yet!". */
  lemma StubStepReply(s: State, prompt: string)
    requires Settled(s.messages) && !s.escalated
    requires prompt != "" && !Serious(prompt)
    ensures Step(s, prompt, AssistantStub).messages[|s.messages| + 1].content == "Not Programmed Yet!"
  {
    CalmStepUsesGenerator(s, prompt, AssistantStub);
  }

  // ---------------------------------------------------------------------------
  // Properties of a whole conversation

  /** The log is append-only: earlier entries are never changed or removed. */
  lemma {:induction false} RunAppendOnly(s: State, prompts: seq<string>, generate: Generator)
    requires |s.messages| > 0
    ensures s.messages <= Run(s, prompts, generate).messages
    decreases |prompts|
  {
    if prompts != [] {
      var t := Step(s, prompts[0], generate);
      RunAppendOnly(t, prompts[1..], generate);
    }
  }

  /** Consistency holds after any number of runs. */
  lemma {:induction false} RunConsistent(s: State, prompts: seq<string>, generate: Generator)
    requires Consistent(s)
    ensures Consistent(Run(s, prompts, generate))
    decreases |prompts|
  {
    if prompts != [] {
      StepConsistent(s, prompts[0], generate);
      RunConsistent(Step(s, prompts[0], generate), prompts[1..], generate);
    }
  }

  /** Each input with a prompt adds exactly two entries. */
  lemma {:induction false} RunLength(s: State, prompts: seq<string>, generate: Generator)
    requires Consistent(s)
    ensures |Run(s, prompts, generate).messages| == |s.messages| + 2 * Submissions(prompts)
    decreases |prompts|
  {
    if prompts != [] {
      StepAppendsTurn(s, prompts[0], generate);
      StepConsistent(s, prompts[0], generate);
      RunLength(Step(s, prompts[0], generate), prompts[1..], generate);
    }
  }

  /** After N prompts the log of a fresh session holds 1 + 2N entries. */
  lemma SessionLength(prompts: seq<string>, generate: Generator)
    requires forall i :: 0 <= i < |prompts| ==> prompts[i] != ""
    ensures |Run(Initial(), prompts, generate).messages| == 1 + 2 * |prompts|
  {
    InitialConsistent();
    RunLength(Initial(), prompts, generate);
    AllSubmitted(prompts);
  }

  lemma {:induction false} AllSubmitted(prompts: seq<string>)
    requires forall i :: 0 <= i < |prompts| ==> prompts[i] != ""
    ensures Submissions(prompts) == |prompts|
  {
    if prompts != [] {
      AllSubmitted(prompts[1..]);
    }
  }

  /** The flag is set after a conversation exactly when it was set before or some prompt was serious. */
  lemma {:induction false} RunLatch(s: State, prompts: seq<string>, generate: Generator)
    requires Consistent(s)
    ensures Run(s, prompts, generate).escalated <==>
      s.escalated || exists i :: 0 <= i < |prompts| && Serious(prompts[i])
    decreases |prompts|
  {
    if prompts != [] {
      var t := Step(s, prompts[0], generate);
      StepAppendsTurn(s, prompts[0], generate);
      StepConsistent(s, prompts[0], generate);
      RunLatch(t, prompts[1..], generate);
      if prompts[0] == "" {
        EmptyPromptPasses();
      }
      if exists i :: 0 <= i < |prompts| && Serious(prompts[i]) {
        var i :| 0 <= i < |prompts| && Serious(prompts[i]);
        if i > 0 {
          assert prompts[1..][i - 1] == prompts[i];
        }
      }
      if exists i :: 0 <= i < |prompts[1..]| && Serious(prompts[1..][i]) {
        var i :| 0 <= i < |prompts[1..]| && Serious(prompts[1..][i]);
        assert prompts[i + 1] == prompts[1..][i];
      }
    }
  }

  /**
   Once the flag is set, every later assistant entry is the referral text and
   the conversation does not depend on the generator.
   */
  lemma {:induction false} EscalatedRunIsReferral(s: State, prompts: seq<string>, g1: Generator, g2: Generator)
    requires Consistent(s) && s.escalated
    ensures Run(s, prompts, g1) == Run(s, prompts, g2)
    ensures Run(s, prompts, g1).escalated
    ensures var log := Run(s, prompts, g1).messages;
      forall i :: |s.messages| <= i < |log| && log[i].role == Assistant ==> log[i].content == SpeakToHumanText
    decreases |prompts|
  {
    if prompts != [] {
      var t := Step(s, prompts[0], g1);
      EscalatedStepIgnoresGenerator(s, prompts[0], g1, g2);
      StepAppendsTurn(s, prompts[0], g1);
      StepConsistent(s, prompts[0], g1);
      EscalatedRunIsReferral(t, prompts[1..], g1, g2);
      RunAppendOnly(t, prompts[1..], g1);
      var log := Run(s, prompts, g1).messages;
      forall i | |s.messages| <= i < |log| && log[i].role == Assistant
        ensures log[i].content == SpeakToHumanText
      {
        if i < |t.messages| {
          assert log[i] == t.messages[i];
        }
      }
    }
  }
}
