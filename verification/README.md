# Arpi Therapy: the per-turn safety pipeline

This project models the core of the Arpi Therapy chat page (`app.py`). The core is the pipeline that sits between the user's chat message and the text generator. It has three parts.

- **Keyword safety screen** (`extreme_serious_input`). A prompt is serious when one of `death`, `suicide`, `harm`, `kill` or `attack` occurs in it as a raw, case-sensitive substring. Module `SafetyScreen` holds the declarative predicate `Serious` and Python's string containment as a search function, `Contains`. It also holds the screen itself as a loop method, `ExtremeSeriousInput`, proved equal to `Serious`.
- **Latched escalation flag and reply selection.** The flag is screened again only while it is still false. Once it is true, the reply is the fixed referral text and the generator plays no part. Otherwise the reply is the generator's output for `(prompt, context)`, where the context is the empty string.
- **Append-only message log.** The log starts as the assistant greeting alone. A non-empty chat input appends a user entry. A reply is produced only when the last entry is not from the assistant, and it is appended as an assistant entry.

Module `Conversation` gives one run of the turn handler as a pure transition, `Step`, on a `State` value holding the flag and the log. It also gives a whole conversation, `Run`. The lemmas there prove the properties listed below. Module `ChatSession` holds class `Session`, with the two fields `escalated` and `messages` that each run updates in place. Its methods `Submit`, `Respond` and `Turn` are proved against `Submitted`, `Responded` and `Step`. Module `AsWritten` models the two departures of the code as written from its evident intent that "## Findings" lists. A third departure, the rerun reset of the flag, is described under "## Left out".

The generator is an opaque function parameter of type `(string, string) -> string`. The stub `assistant` is modelled as `Conversation.AssistantStub`. A missing chat input (`None`) and an empty one are both falsy for the walrus test at app.py:68, so both are modelled as the empty string. Elsewhere they differ (see the line on `Conversation.RespondedOnlyAfterUser` under "## Left out").

## Model

| member | source | states |
|---|---|---|
| SafetyScreen.Contains | app.py:35 | Python's `k in s` on strings: true exactly when `k` occurs in `s` at some index |
| SafetyScreen.ContainsFrom | app.py:35 | the search from index `i` is true exactly when `k` occurs at some index at or after `i` |
| SafetyScreen.ExtremeSeriousInput | app.py:23-37 | the keyword loop with early return gives true exactly when some keyword is a substring of the prompt, and false when none is (the intended per-keyword test) |
| SafetyScreen.KeywordAnywhereTrips | app.py:27-35 | a keyword trips the screen wherever it stands, whatever text surrounds it (no tokenising) |
| SafetyScreen.NoLowerCaseNeverSerious | app.py:27-35 | matching is case-sensitive: a prompt with no lower-case letter never trips the screen |
| SafetyScreen.NoHarmDoneTrips | app.py:27-35 | "no harm done" trips the screen |
| SafetyScreen.UpperCaseSuicidePasses | app.py:27-35 | "SUICIDE" in upper case does not trip the screen |
| SafetyScreen.EmptyPromptPasses | app.py:27-37 | the empty prompt never trips the screen |
| Conversation.Step | app.py:68-90 | a run of the turn handler only appends to the log: the old log is a prefix of the new one |
| Conversation.InitialConsistent | app.py:50-60 | a new session's log is exactly the assistant greeting, with the flag down, and the state is consistent |
| Conversation.RespondedOnlyAfterUser | app.py:74-90 | a reply is produced exactly when the last entry is not from the assistant; it then adds one assistant entry and keeps every earlier entry |
| Conversation.StepAppendsTurn | app.py:68-90 | an empty input changes nothing; a prompt adds one user entry holding it, then one assistant entry; the flag becomes "set before, or the prompt is serious"; the reply is the referral when the flag is set and the generator's output for (prompt, context) otherwise |
| Conversation.StepConsistent | app.py:68-90 | a run keeps the log well formed: greeting first, roles alternating, no pending reply, non-empty user entries; a set flag means the latest reply is the referral |
| Conversation.EscalatedStepIgnoresGenerator | app.py:77-85 | once the flag is set it stays set, the reply is exactly the referral text, and the result does not depend on the generator |
| Conversation.CalmStepUsesGenerator | app.py:84-85 | with the flag down and a prompt that passes the screen, the reply is exactly the generator's output for (prompt, context) and the flag stays down |
| Conversation.StubStepReply | app.py:40-41 | with the stub generator, a calm turn replies "Not Programmed Yet!" |
| Conversation.RunAppendOnly | app.py:69-90 | over any conversation, earlier log entries are never changed or removed |
| Conversation.RunConsistent | app.py:50-90 | the log stays well formed after any number of runs |
| Conversation.RunLength | app.py:68-90 | each input that holds a prompt adds exactly two entries to the log |
| Conversation.SessionLength | app.py:50-90 | after N prompts the log of a new session holds 1 + 2N entries |
| Conversation.RunLatch | app.py:77-79 | after a conversation the flag is set exactly when it was set before or one of the prompts was serious (false to true only) |
| Conversation.EscalatedRunIsReferral | app.py:77-83 | once the flag is set, every later assistant entry is the referral text, the flag stays set, and the conversation does not depend on the generator |
| ChatSession.Session.constructor | app.py:50-60 | a new session holds the greeting only, with the flag down |
| ChatSession.Session.Submit | app.py:68-69 | a non-empty prompt is appended as a user entry; nothing else changes |
| ChatSession.Session.Respond | app.py:74-90 | the in-place update equals `Responded`: screen only while the flag is down, then append the referral or the generated reply |
| ChatSession.Session.Turn | app.py:68-90 | the in-place update equals `Step`; the session stays consistent, the flag never goes back down, and the old log is a prefix of the new one |
| AsWritten.PyIn | app.py:35 | Python's `in` with a string haystack: a string needle gives substring containment, a list needle raises TypeError |
| AsWritten.AsWrittenScreenAlwaysRaises | app.py:34-37 | as written, the screen raises TypeError for every prompt |
| AsWritten.AsWrittenScreenMissesCrisis | app.py:23-37 | "I want to kill myself" is serious, yet the screen as written raises on it |
| AsWritten.IntendedLoopFrom | app.py:34-37 | with the loop variable as the operand, the loop from keyword j answers whether keyword j or a later one occurs |
| AsWritten.IntendedScreenAnswers | app.py:34-37 | corrected by one token, the loop never raises and answers exactly `Serious` |
| AsWritten.AsWrittenReplyRaisesWhenCalm | app.py:82-85 | as written, a calm turn raises NameError; the corrected selection returns the generator's output, and both agree on the referral |

## Left out

- Page setup, chat rendering, the spinner and the `st.write` calls (app.py:1-8, 62-66, 70-71, 75-76, 88) are display only.
- Loading the TOML configuration and looking up the avatar (app.py:14-15, 64, 75) are file I/O and presentation assets.
- Streamlit runs the whole script again on every interaction. That would set the module global `SPEAK_TO_HUMAN` (app.py:21) back to false on every run, so the flag would never latch. The comment at app.py:77 says the flag should hold "for every conversation afterwards". The model keeps it as a field of the session, so it does latch.
- The generator's behaviour, and any failure it might raise, are not modelled. The generator is a total opaque function, and only the stub's constant reply is used.
- When the screen raises as written (app.py:79), the user entry from app.py:69 is already in the log and no reply follows. The model uses the corrected screen, so that half-finished turn does not occur.
- Onboarding, identity extraction, issue classification and persona instructions are not in app.py, so they are not part of this model.
- Conversation.RespondedOnlyAfterUser: a missing chat input is modelled as the empty prompt, which matches the source only at the test on app.py:68. If the log ends with a user entry (after an interrupted turn) and a run brings no new input, the source passes `None` to the screen at app.py:79 and raises a TypeError while the flag is down. The model instead screens "" and appends the generator's reply to "". From a consistent state (every state a session reaches through `Turn`) this case does not arise.
- Concurrency and several sessions are not modelled. The handler runs one turn at a time for one session.

## Findings

| source | as written | input that shows it | evidently intended | confidence | as-written member | corrected member |
|---|---|---|---|---|---|---|
| app.py:35 | `keywords in prompt` tests the whole keyword list against the prompt string, which Python refuses with a TypeError on the first iteration | any prompt, e.g. "I want to kill myself" | test each `keyword` against the prompt, as the docstring (app.py:24-26) and the comment (app.py:20) describe | high (not executed) | AsWritten.AsWrittenScreenMissesCrisis | SafetyScreen.ExtremeSeriousInput |
| app.py:85 | `custom_assistant` is defined nowhere, so the call raises NameError | none as written (the TypeError at app.py:79 comes first); once app.py:35 is corrected, any prompt that passes the screen while the flag is down | call the text generator with (prompt, context); only the stub `assistant` (app.py:40-41) exists | high (not executed) | AsWritten.AsWrittenReplyRaisesWhenCalm | Conversation.CalmStepUsesGenerator |
