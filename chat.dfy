/** The chat transcript of the Cymbal Direct chatbot page, as values.

    One run of the page reads the text box and applies at most one
    transition to the pair (messages, last_input): a non-empty input that
    differs from the last processed one appends a user message and the
    assistant's reply and becomes the new last input; anything else leaves
    the pair as it is. This module states that transition as a function,
    the shape every transcript reachable from a fresh session has, and what
    a sequence of page runs does.
 */
module Chat {

  datatype Option<T> = None | Some(value: T)

  datatype Role = User | Assistant

  /** One entry of the chat history: a `{role, content}` record. */
  datatype Message = Message(role: Role, content: string)

  /** The generative model, which lies outside this model: given the prompt,
      it answers with a response, or with nothing. */
  type Generator = string -> Option<string>

  /** The reply shown when the model gave no response. */
  const Fallback: string := "Sorry, I couldn't generate a response."

  /** The text of the assistant's reply: the response's text when there is a
      response, the fixed fallback otherwise. */
  function Reply(response: Option<string>): (r: string)
    ensures response.Some? ==> r == response.value
    ensures response.None? ==> r == Fallback
  {
    match response
    case Some(text) => text
    case None => Fallback
  }

  /** The two session keys once they exist: the chat history and the last
      processed input. */
  datatype Transcript = Transcript(messages: seq<Message>, lastInput: string)

  /** The state of a fresh session right after its keys are created. */
  const Initial: Transcript := Transcript([], "")

  /** The guard of a page run: the input is processed only when it is
      non-empty and not the input processed last. Truthiness only, so an
      input made of blanks passes. */
  predicate Accepts(lastInput: string, input: string)
  {
    input != "" && input != lastInput
  }

  /** One page run with the text box holding `input`. */
  function Step(t: Transcript, input: string, generate: Generator): (r: Transcript)
    ensures t.messages <= r.messages
    ensures |r.messages| == |t.messages| + (if Accepts(t.lastInput, input) then 2 else 0)
    ensures r.lastInput == (if Accepts(t.lastInput, input) then input else t.lastInput)
  {
    if Accepts(t.lastInput, input) then
      Transcript(t.messages + [Message(User, input), Message(Assistant, Reply(generate(input)))], input)
    else
      t
  }

  /** An empty text box changes nothing. */
  lemma EmptyInputIsIgnored(t: Transcript, generate: Generator)
    ensures Step(t, "", generate) == t
  {
  }

  /** Re-submitting the input processed last changes nothing. */
  lemma RepeatedInputIsIgnored(t: Transcript, generate: Generator)
    ensures Step(t, t.lastInput, generate) == t
  {
  }

  /** A new input appends exactly the user message and the reply to it, in
      that order, and becomes the last processed input. */
  lemma NewInputAppendsPair(t: Transcript, input: string, generate: Generator)
    requires input != "" && input != t.lastInput
    ensures Step(t, input, generate).messages
         == t.messages + [Message(User, input), Message(Assistant, Reply(generate(input)))]
    ensures Step(t, input, generate).lastInput == input
  {
  }

  /** Whitespace characters. */
  predicate IsBlank(s: string)
  {
    forall i :: 0 <= i < |s| ==> s[i] in {' ', '\t', '\n', '\r'}
  }

  /** The guard tests truthiness only: a non-empty input made of blanks
      that differs from the last input is processed like any other text. */
  lemma BlankInputIsProcessed(t: Transcript, input: string, generate: Generator)
    requires input != "" && input != t.lastInput && IsBlank(input)
    ensures Accepts(t.lastInput, input)
    ensures Step(t, input, generate).messages
         == t.messages + [Message(User, input), Message(Assistant, Reply(generate(input)))]
    ensures Step(t, input, generate).lastInput == input
  {
  }

  /** Running the page again with the same text box content is a no-op,
      whatever the model would answer on the second run. */
  lemma StepIsIdempotent(t: Transcript, input: string, generate: Generator, generateAgain: Generator)
    ensures Step(Step(t, input, generate), input, generateAgain) == Step(t, input, generate)
  {
  }

  /** The shape of every transcript reachable from a fresh session: user and
      assistant messages alternate, starting with the user; no user message
      is empty or equal to the user message before it; and the last
      processed input is the latest user message, or "" when there is none. */
  ghost predicate WellFormed(t: Transcript)
  {
    var ms := t.messages;
    && |ms| % 2 == 0
    && (forall i :: 0 <= i < |ms| ==> ms[i].role == (if i % 2 == 0 then User else Assistant))
    && (forall i :: 0 <= i < |ms| && i % 2 == 0 ==> ms[i].content != "")
    && (forall i :: 2 <= i < |ms| && i % 2 == 0 ==> ms[i].content != ms[i - 2].content)
    && t.lastInput == (if ms == [] then "" else ms[|ms| - 2].content)
  }

  lemma InitialIsWellFormed()
    ensures WellFormed(Initial)
  {
  }

  /** Every page run keeps the transcript well formed, whatever the model
      answers. */
  lemma StepPreservesWellFormed(t: Transcript, input: string, generate: Generator)
    requires WellFormed(t)
    ensures WellFormed(Step(t, input, generate))
  {
    if Accepts(t.lastInput, input) {
      var ms, ms' := t.messages, Step(t, input, generate).messages;
      var n := |ms|;
      assert ms'[n] == Message(User, input) && ms'[n + 1].role == Assistant;
      assert forall i :: 0 <= i < n ==> ms'[i] == ms[i];
      assert n > 0 ==> ms[n - 2].content == t.lastInput;
    }
  }

  /** The page run once per element of `inputs`, the text box holding
      `inputs[k]` on run k and the model answering through `models[k]`:
      every run calls the model afresh, so the answers to one question may
      differ from run to run. */
  function Replay(t: Transcript, inputs: seq<string>, models: seq<Generator>): (r: Transcript)
    requires |models| == |inputs|
    decreases |inputs|
  {
    if inputs == [] then t
    else Replay(Step(t, inputs[0], models[0]), inputs[1..], models[1..])
  }

  /** The inputs a sequence of runs processes, in order: each one that is
      non-empty and differs from the input processed before it. */
  function Processed(lastInput: string, inputs: seq<string>): (r: seq<string>)
    decreases |inputs|
  {
    if inputs == [] then []
    else if Accepts(lastInput, inputs[0]) then [inputs[0]] + Processed(inputs[0], inputs[1..])
    else Processed(lastInput, inputs[1..])
  }

  /** The user messages of a transcript, in order. */
  function UserInputs(ms: seq<Message>): (r: seq<string>)
  {
    seq(|ms| / 2, k requires 0 <= k < |ms| / 2 => ms[2 * k].content)
  }

  lemma UserInputsAppend(ms: seq<Message>, u: Message, a: Message)
    requires |ms| % 2 == 0
    ensures UserInputs(ms + [u, a]) == UserInputs(ms) + [u.content]
  {
  }

  /** A sequence of runs never alters or removes a message already shown. */
  lemma {:induction false} ReplayKeepsPrefix(t: Transcript, inputs: seq<string>, models: seq<Generator>)
    requires |models| == |inputs|
    ensures t.messages <= Replay(t, inputs, models).messages
    decreases |inputs|
  {
    if inputs != [] {
      ReplayKeepsPrefix(Step(t, inputs[0], models[0]), inputs[1..], models[1..]);
    }
  }

  /** A sequence of runs keeps the transcript well formed. */
  lemma {:induction false} ReplayPreservesWellFormed(t: Transcript, inputs: seq<string>, models: seq<Generator>)
    requires |models| == |inputs|
    requires WellFormed(t)
    ensures WellFormed(Replay(t, inputs, models))
    decreases |inputs|
  {
    if inputs != [] {
      StepPreservesWellFormed(t, inputs[0], models[0]);
      ReplayPreservesWellFormed(Step(t, inputs[0], models[0]), inputs[1..], models[1..]);
    }
  }

  /** From a fresh session, whatever the inputs and the model's answers, the
      history has even length, with the user at even and the assistant at
      odd positions, and the rest of `WellFormed` holds. */
  lemma FreshSessionStaysWellFormed(inputs: seq<string>, models: seq<Generator>)
    requires |models| == |inputs|
    ensures WellFormed(Replay(Initial, inputs, models))
  {
    InitialIsWellFormed();
    ReplayPreservesWellFormed(Initial, inputs, models);
  }

  /** A sequence of runs appends two messages per processed input and
      nothing else, the user messages being exactly the processed inputs. */
  lemma {:induction false} ReplayAppendsProcessed(t: Transcript, inputs: seq<string>, models: seq<Generator>)
    requires |models| == |inputs|
    requires |t.messages| % 2 == 0
    ensures |Replay(t, inputs, models).messages| == |t.messages| + 2 * |Processed(t.lastInput, inputs)|
    ensures UserInputs(Replay(t, inputs, models).messages)
         == UserInputs(t.messages) + Processed(t.lastInput, inputs)
    decreases |inputs|
  {
    if inputs != [] {
      var t' := Step(t, inputs[0], models[0]);
      ReplayAppendsProcessed(t', inputs[1..], models[1..]);
      if Accepts(t.lastInput, inputs[0]) {
        UserInputsAppend(t.messages, Message(User, inputs[0]), Message(Assistant, Reply(models[0](inputs[0]))));
      }
    }
  }

  /** The guard remembers only the input processed last: A, B, A processes
      A twice, while A, A and A, "", A process it once. */
  lemma GuardRemembersOnlyLastInput(last: string, a: string, b: string)
    requires a != "" && b != "" && a != b && a != last
    ensures Processed(last, [a, b, a]) == [a, b, a]
    ensures Processed(last, [a, a]) == [a]
    ensures Processed(last, [a, "", a]) == [a]
  {
    assert [a, b, a][1..] == [b, a] && [b, a][1..] == [a] && [a][1..] == [];
    assert Processed(b, [a]) == [a];
    assert Processed(a, [b, a]) == [b, a];
    assert Processed(a, [a]) == [];
    assert [a, a][1..] == [a];
    assert [a, "", a][1..] == ["", a];
    assert Processed(a, ["", a]) == [];
  }

  /** From a fresh session, the runs A, B, A append three question/reply
      pairs, the first and the last for A, each reply being what the model
      answered on that run. */
  lemma ThreeRunsAppendThreePairs(a: string, b: string, first: Generator, second: Generator, third: Generator)
    requires a != "" && b != "" && a != b
    ensures Replay(Initial, [a, b, a], [first, second, third]).messages
         == [Message(User, a), Message(Assistant, Reply(first(a))),
             Message(User, b), Message(Assistant, Reply(second(b))),
             Message(User, a), Message(Assistant, Reply(third(a)))]
  {
    var inputs, models := [a, b, a], [first, second, third];
    assert inputs[1..] == [b, a] && inputs[1..][1..] == [a] && inputs[1..][1..][1..] == [];
    assert models[1..] == [second, third] && models[1..][1..] == [third] && models[1..][1..][1..] == [];
    var t1 := Step(Initial, a, first);
    var t2 := Step(t1, b, second);
    var t3 := Step(t2, a, third);
    assert Replay(t2, [a], [third]) == Replay(t3, [], []) == t3;
    assert Replay(t1, [b, a], [second, third]) == t3;
  }
}
