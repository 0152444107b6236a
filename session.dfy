/** The session state of the chatbot page, updated in place.

    Streamlit keeps a dictionary per browser session that survives the
    re-runs of the page script. The chat page uses two of its keys,
    "messages" and "last_input"; each field below is one key, `None` while
    the key is absent. A page run first creates the keys that are missing,
    then applies the guarded update for the value of the text box.
 */
module Session {

  import opened Chat

  class SessionState {
    /** The chat history, `None` while the key "messages" is absent. */
    var messages: Option<seq<Message>>
    /** The last processed input, `None` while the key "last_input" is absent. */
    var lastInput: Option<string>

    /** Both keys exist. */
    predicate Initialised()
      reads this
    {
      messages.Some? && lastInput.Some?
    }

    /** The transcript the two keys hold. */
    function Current(): Transcript
      reads this
      requires Initialised()
    {
      Transcript(messages.value, lastInput.value)
    }

    /** A new browser session: neither key exists yet. */
    constructor ()
      ensures messages == None && lastInput == None
    {
      messages := None;
      lastInput := None;
    }

    /** Creates each key that is absent, with an empty history and an empty
        last input; a key that exists keeps its value. */
    method Initialise()
      modifies this
      ensures Initialised()
      ensures old(messages).Some? ==> messages == old(messages)
      ensures old(messages).None? ==> messages == Some([])
      ensures old(lastInput).Some? ==> lastInput == old(lastInput)
      ensures old(lastInput).None? ==> lastInput == Some("")
    {
      if messages.None? {
        messages := Some([]);
      }
      if lastInput.None? {
        lastInput := Some("");
      }
    }

    /** Processes the text box value: when it is non-empty and differs from
        the last processed input, appends the user message, asks the model,
        appends the reply and records the input as processed. */
    method Submit(input: string, generate: Generator)
      requires Initialised()
      modifies this
      ensures Initialised()
      ensures Current() == Step(old(Current()), input, generate)
    {
      if input != "" && input != lastInput.value {
        messages := Some(messages.value + [Message(User, input)]);
        var reply := Reply(generate(input));
        messages := Some(messages.value + [Message(Assistant, reply)]);
        lastInput := Some(input);
      }
    }

    /** One run of the page script with the text box holding `input`. */
    method RunPage(input: string, generate: Generator)
      modifies this
      ensures Initialised()
      ensures Current()
           == Step(Transcript(if old(messages).Some? then old(messages).value else [],
                              if old(lastInput).Some? then old(lastInput).value else ""),
                   input, generate)
    {
      Initialise();
      Submit(input, generate);
    }
  }

  /** A fresh session submits `input`, and the page re-runs itself with the
      text box still holding it: whatever the model would answer on the
      re-run, it shows the same history, one question and its reply. */
  method SubmitThenRerun(input: string, generate: Generator, generateAgain: Generator)
    returns (afterSubmit: seq<Message>, afterRerun: seq<Message>)
    requires input != ""
    ensures afterSubmit == [Message(User, input), Message(Assistant, Reply(generate(input)))]
    ensures afterRerun == afterSubmit
  {
    var session := new SessionState();
    session.RunPage(input, generate);
    afterSubmit := session.messages.value;
    session.RunPage(input, generateAgain);
    afterRerun := session.messages.value;
  }
}
