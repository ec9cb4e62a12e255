/**
 The chat session as an object: the escalation flag and the message log are
 fields that each run of the turn handler updates in place. The flag belongs
 to the session, so once set it stays set for the rest of the conversation.
 */
module ChatSession {
  import opened SafetyScreen
  import opened Conversation

  class Session {
    var escalated: bool
    var messages: seq<Message>

    /** The session's current value. */
    function Snapshot(): State
      reads this
    {
      State(escalated, messages)
    }

    ghost predicate Valid()
      reads this
    {
      Consistent(Snapshot())
    }

    /** A new session holds the greeting only, with the flag down. */
    constructor ()
      ensures Valid()
      ensures Snapshot() == Initial()
    {
      escalated := false;
      messages := [Message(Assistant, Greeting)];
    }

    /** The chat input: append a non-empty prompt as a user entry. */
    method Submit(prompt: string)
      requires Valid()
      modifies this
      ensures WellFormed(messages)
      ensures Snapshot() == Submitted(old(Snapshot()), prompt)
    {
      if prompt != "" {
        messages := messages + [Message(User, prompt)];
        assert messages[|messages| - 2].role == RoleAt(|messages| - 2);
      }
    }

    /**
     Reply generation: when the last entry is not from the assistant, screen the
     prompt if the flag is still down, then append the referral text or the
     generator's reply.
     */
    method Respond(prompt: string, generate: Generator)
      requires WellFormed(messages)
      modifies this
      ensures Snapshot() == Responded(old(Snapshot()), prompt, generate)
    {
      if messages[|messages| - 1].role != Assistant {
        if !escalated {
          escalated := ExtremeSeriousInput(prompt);
        }
        var response := Reply(escalated, prompt, generate);
        messages := messages + [Message(Assistant, response)];
      }
    }

    /** One run of the turn handler: submit the prompt, then respond to it. */
    method Turn(prompt: string, generate: Generator)
      requires Valid()
      modifies this
      ensures Valid()
      ensures Snapshot() == Step(old(Snapshot()), prompt, generate)
      ensures old(escalated) ==> escalated
      ensures old(messages) <= messages
    {
      ghost var before := Snapshot();
      Submit(prompt);
      Respond(prompt, generate);
      StepConsistent(before, prompt, generate);
    }
  }
}
