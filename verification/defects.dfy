/**
 The turn handler's code as written, where it departs from its evident intent.

 1. The screen's loop tests `keywords in prompt`, which asks whether the whole
    keyword list is contained in a string. Python refuses that containment
    test with a TypeError, so the screen raises on its first iteration for
    every prompt instead of answering.
 2. The generator call names `custom_assistant`, which is defined nowhere, so
    every turn that reaches it raises a NameError.
 The rest of the model uses the intended behaviour: SafetyScreen.ExtremeSeriousInput
 and a generator passed in as a parameter.
 */
module AsWritten {
  import opened SafetyScreen
  import opened Conversation

  datatype PyError = TypeError | NameError

  datatype Outcome<T> = Ok(value: T) | Raised(error: PyError)

  /** The left operand of Python's `in` here: a string or a list of strings. */
  datatype PyValue = PyStr(s: string) | PyList(items: seq<string>)

  /** Python's `needle in haystack` for a string haystack: only a string needle is accepted. */
  function PyIn(needle: PyValue, haystack: string): (r: Outcome<bool>)
    ensures needle.PyStr? ==> r == Ok(Occurs(needle.s, haystack))
    ensures needle.PyList? ==> r == Raised(TypeError)
  {
    match needle
    case PyStr(k) => Ok(Contains(haystack, k))
    case PyList(_) => Raised(TypeError)
  }

  /**
   The keyword loop from index `j` on. Each iteration evaluates
   `operand(keyword) in prompt`: as written the operand is the whole list,
   as intended it is the loop variable.
   */
  function ScreenLoop(prompt: string, operand: string -> PyValue, j: nat): Outcome<bool>
    decreases |Keywords| - j
  {
    if j >= |Keywords| then Ok(false)
    else
      match PyIn(operand(Keywords[j]), prompt)
      case Raised(e) => Raised(e)
      case Ok(true) => Ok(true)
      case Ok(false) => ScreenLoop(prompt, operand, j + 1)
  }

  function ExtremeSeriousInputAsWritten(prompt: string): Outcome<bool>
  {
    ScreenLoop(prompt, _ => PyList(Keywords), 0)
  }

  /** With the loop variable as operand, the loop from `j` answers whether a later keyword occurs. */
  lemma {:induction false} IntendedLoopFrom(prompt: string, j: nat)
    requires j <= |Keywords|
    ensures ScreenLoop(prompt, keyword => PyStr(keyword), j) ==
      Ok(exists m :: j <= m < |Keywords| && Occurs(Keywords[m], prompt))
    decreases |Keywords| - j
  {
    if j < |Keywords| {
      IntendedLoopFrom(prompt, j + 1);
    }
  }

  /**
   Corrected by one token (the loop variable as operand), the loop never
   raises and answers exactly the specification `Serious` that
   SafetyScreen.ExtremeSeriousInput meets.
   */
  lemma IntendedScreenAnswers(prompt: string)
    ensures ScreenLoop(prompt, keyword => PyStr(keyword), 0) == Ok(Serious(prompt))
  {
    IntendedLoopFrom(prompt, 0);
    if Serious(prompt) {
      var k :| k in Keywords && Occurs(k, prompt);
      var m :| 0 <= m < |Keywords| && Keywords[m] == k;
    }
  }

  /** As written, the screen raises TypeError whatever the prompt. */
  lemma AsWrittenScreenAlwaysRaises(prompt: string)
    ensures ExtremeSeriousInputAsWritten(prompt) == Raised(TypeError)
  {
  }

  /** A crisis prompt the intended screen catches, on which the written one raises. */
  lemma AsWrittenScreenMissesCrisis()
    ensures Serious("I want to kill myself")
    ensures ExtremeSeriousInputAsWritten("I want to kill myself") == Raised(TypeError)
  {
    KeywordAnywhereTrips("I want to ", "kill", " myself");
    assert "I want to " + "kill" + " myself" == "I want to kill myself";
  }

  /** The reply selection as written: the generator branch calls an undefined name. */
  function ReplyAsWritten(escalated: bool, prompt: string): Outcome<string>
  {
    if escalated then Ok(SpeakToHumanText) else Raised(NameError)
  }

  /** A calm turn raises as written; the corrected selection returns the generator's reply. */
  lemma AsWrittenReplyRaisesWhenCalm(prompt: string, generate: Generator)
    ensures ReplyAsWritten(false, prompt) == Raised(NameError)
    ensures Reply(false, prompt, generate) == generate(prompt, Context)
    ensures ReplyAsWritten(true, prompt) == Ok(Reply(true, prompt, generate))
  {
  }
}
