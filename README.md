# Cymbal Direct chatbot: the chat transcript

A verified Dafny model of the chat-transcript update rule of the Cymbal
Direct chatbot page (`Cymbal.py`), a Streamlit script that re-runs from top
to bottom on every interaction.

The page keeps two keys in Streamlit's per-session state: `messages`, the
chat history as a list of `{role, content}` records, and `last_input`, the
last text it processed. Each run of the script:

1. creates each key that is missing (`[]` and `""`);
2. reads the text box; if the value is non-empty and differs from
   `last_input`, appends the user message, asks the generative model for a
   reply, appends the assistant message with the reply, and stores the value
   as `last_input`; then asks Streamlit to run the script again, where the
   text box still holds the same value and the guard stops a second append.

The reply is the response's text, or the fixed string
`"Sorry, I couldn't generate a response."` when there is no response.

Files:

- `chat.dfy`, module `Chat`: the messages, the reply choice (`Reply`), the
  transcript as a value and one page run as a function (`Step`), the shape
  of every reachable transcript (`WellFormed`), a sequence of runs
  (`Replay`) with a reference for which inputs get processed (`Processed`),
  and the lemmas about them.
- `session.dfy`, module `Session`: the session state as a class whose two
  fields are the two keys (`None` while a key is absent), with the key
  initialisation, the guarded update and one whole page run as methods (the
  guarded update proved equal to `Chat.Step` of the old state, a page run to
  `Chat.Step` of the state the initialisation leaves); and a client that
  submits and re-runs.

The generative model is a parameter of type `string -> Option<string>`:
`Some(text)` for a response, `None` for none. Every processed input calls
the model afresh, so a sequence of runs takes one such parameter per run
(`Replay(t, inputs, models)`), and the answers to a repeated question may
differ.

Two consequences of the code worth stating:

- Input made only of blanks is processed: the guard at `Cymbal.py:45` tests
  only that the string is non-empty and differs from `last_input`
  (`Chat.BlankInputIsProcessed`).
- The fallback reply is used only when there is no response: for any
  response, `Cymbal.py:22` returns its `.text`, even when that is empty.

## Model

| member | source | states |
|---|---|---|
| `Chat.Reply` | Cymbal.py:19-22 | the reply is the response's text when the model gave a response, and the fixed fallback "Sorry, I couldn't generate a response." when it gave none |
| `Chat.Step` | Cymbal.py:45-55 | one page run only extends the history (the old history is a prefix of the new one); it grows by two messages when the input is non-empty and differs from the last input, by none otherwise; the last input becomes the input exactly when it is processed |
| `Chat.EmptyInputIsIgnored` | Cymbal.py:45 | an empty text box leaves the history and the last input unchanged |
| `Chat.RepeatedInputIsIgnored` | Cymbal.py:45 | an input equal to the last processed input leaves the whole state unchanged (the duplicate-submission guard) |
| `Chat.NewInputAppendsPair` | Cymbal.py:45-55 | a non-empty input that differs from the last input appends exactly a user message holding the input, then an assistant message holding the reply to it, and becomes the last input |
| `Chat.BlankInputIsProcessed` | Cymbal.py:45-55 | a non-empty input made only of spaces, tabs and line breaks that differs from the last input passes the guard: it is appended as a user message followed by the reply, and becomes the last input |
| `Chat.StepIsIdempotent` | Cymbal.py:45-58 | running the page again with the same text box value (the re-run requested after processing) changes nothing, whatever the model would answer on that run |
| `Chat.InitialIsWellFormed` | Cymbal.py:29-34 | the fresh state, an empty history and an empty last input, is well formed |
| `Chat.StepPreservesWellFormed` | Cymbal.py:45-55 | every page run, whatever the model answers, keeps the history well formed: roles alternate user/assistant starting with the user, no user message is empty or equal to the one before it, and the last input is the latest user message |
| `Chat.FreshSessionStaysWellFormed` | Cymbal.py:29-55 | from a fresh session, any sequence of runs, with any answers from the model on each run, gives a well-formed history: even length, user at even and assistant at odd positions (for runs that do not raise) |
| `Chat.ReplayKeepsPrefix` | Cymbal.py:46-52 | any sequence of runs, with any answers on each run, never alters or removes an existing message: the old history is a prefix of the new one |
| `Chat.ReplayPreservesWellFormed` | Cymbal.py:45-55 | any sequence of runs from a well-formed state, with any answers on each run, keeps it well formed |
| `Chat.ReplayAppendsProcessed` | Cymbal.py:45-55 | a sequence of runs, with any answers on each run, appends two messages per processed input and nothing more, and the user messages it appends are exactly the processed inputs in order |
| `Chat.GuardRemembersOnlyLastInput` | Cymbal.py:45-55 | the guard remembers only the input processed last: A, B, A processes A twice, while A, A and A, "", A process it once |
| `Chat.ThreeRunsAppendThreePairs` | Cymbal.py:45-55 | from a fresh session the runs A, B, A give the history A, B, A, each followed by the reply the model gave on that run (the two replies to A may differ) |
| `Session.SessionState.constructor` | Cymbal.py:29-34 | a new browser session holds neither key |
| `Session.SessionState.Initialise` | Cymbal.py:29-34 | each absent key is created (an empty history, an empty last input) and a key that exists keeps its value, so re-initialising changes nothing |
| `Session.SessionState.Submit` | Cymbal.py:45-55 | the in-place update (two appends and the assignment of the last input) leaves exactly the state `Chat.Step` gives |
| `Session.SessionState.RunPage` | Cymbal.py:28-55 | one script run leaves both keys present and the state `Chat.Step` gives from the history and last input the keys held, each absent key read as its initial value (empty history, empty last input), so also when exactly one key exists |
| `Session.SubmitThenRerun` | Cymbal.py:42-58 | submitting in a new session shows one question and its reply, and the re-run that follows shows the same history whatever the model would answer on it |

## Left out

- Rendering: the title, the history display and the text box widget
  (`Cymbal.py:25-26`, `36-42`). The text box value is the `input` parameter.
- Loading the API key from the environment, the missing-key error and
  `genai.configure` (`Cymbal.py:6-16`): startup is taken to have succeeded.
- The call to the Gemini model (`Cymbal.py:20-21`): a network call, given as
  a `Generator` parameter (`generate` for one run, `models` for a sequence
  of runs). Whether a response object is truthy is that
  parameter's `Some`/`None`.
- Exceptions from `generate_content` or `.text`: the code does not catch
  them. A run that raises keeps the user message appended at `Cymbal.py:46`
  but appends no reply and leaves `last_input` as it was (`Cymbal.py:55` is
  not reached), so the next run appends the same question again and the
  user/assistant alternation breaks. The model has no such path: `Step`
  always completes.
- FreshSessionStaysWellFormed, and with it `WellFormed`, holds only for
  sessions in which no run raised, for the reason above.
- ReplayPreservesWellFormed, ReplayAppendsProcessed and ReplayKeepsPrefix
  likewise describe only sequences of runs none of which raised.
- `st.rerun()` (`Cymbal.py:58`) is host control flow; its effect is a further
  call of `RunPage` with the same input.
- A timer, task list, sticky notes or session summary are not part of this
  model: `Cymbal.py` has none of them.
