/** The session state of the chat component: the five pieces of React state
    (`messages`, `input`, `instructions`, `showInstructions`, `loading`) and
    the handlers that change them. Each of `sendMessage` and
    `sendInstructions` is split at its `await` into a submit event (the guard,
    the immediate updates and the request it issues) and a completion event
    (the reply or the failure, and the `finally` that clears `loading`). The
    network is not modelled: a completion receives its outcome as a parameter,
    and so do the clock readings that stamp messages. */
module ChatSession {
  import opened Optional
  import opened JsText

  datatype Role = User | Assistant

  /** A clock reading (`new Date()`); the model only carries it. */
  type Timestamp = int

  datatype Message = Message(role: Role, content: string, timestamp: Timestamp)

  /** The request a submit issues: `POST /api/prompt` with `{ prompt }` or
      `POST /api/instructions` with `{ instructions }`. */
  datatype Request = PromptRequest(prompt: string) | InstructionsRequest(instructions: string)

  /** How a request ends, everything after the first `await` included: a
      reply with status `ok` whose decoded body has optional `response` and
      `message` fields, or a failure. A failure is a transport error, a status
      that is not `ok`, a body that does not decode, or a body that decodes
      to `null`, on which reading `data.response` throws; the `catch` handles
      each of these alike. */
  datatype Completion = Replied(response: Option<string>, message: Option<string>) | Failed

  /** Which request is in flight, if any (the suspended `async` handler). */
  datatype Pending = NoRequest | AwaitingPrompt | AwaitingInstructions

  const NoResponseText: string := "No response received"
  const InstructionsUpdatedText: string := "Instructions updated successfully"
  const ChatErrorText: string := "Sorry, I encountered an error. Please try again."
  const InstructionsErrorText: string := "Failed to update instructions. Please try again."

  /** A string field is truthy under JavaScript's `||` unless it is absent
      (`undefined`) or the empty string. */
  predicate Truthy(field: Option<string>): (r: bool)
    ensures r <==> field != None && field != Some("")
  {
    field.Some? && field.value != ""
  }

  /** `response || message || fallback`: the first truthy of the two fields,
      else the fallback. */
  function FirstTruthy(response: Option<string>, message: Option<string>, fallback: string): (r: string)
    ensures Truthy(response) ==> r == response.value
    ensures !Truthy(response) && Truthy(message) ==> r == message.value
    ensures !Truthy(response) && !Truthy(message) ==> r == fallback
    ensures fallback != "" ==> r != ""
  {
    if Truthy(response) then response.value
    else if Truthy(message) then message.value
    else fallback
  }

  /** The assistant text a chat completion appends. */
  function ChatReply(c: Completion): (r: string)
    ensures r != ""
    ensures c.Failed? ==> r == ChatErrorText
    ensures c.Replied? && !Truthy(c.response) && !Truthy(c.message) ==> r == NoResponseText
    ensures c.Replied? && Truthy(c.response) ==> r == c.response.value
    ensures c.Replied? && !Truthy(c.response) && Truthy(c.message) ==> r == c.message.value
  {
    match c
    case Replied(response, message) => FirstTruthy(response, message, NoResponseText)
    case Failed => ChatErrorText
  }

  /** The assistant text an instructions completion appends. */
  function InstructionsReply(c: Completion): (r: string)
    ensures r != ""
    ensures c.Failed? ==> r == InstructionsErrorText
    ensures c.Replied? && !Truthy(c.response) && !Truthy(c.message) ==> r == InstructionsUpdatedText
    ensures c.Replied? && Truthy(c.response) ==> r == c.response.value
    ensures c.Replied? && !Truthy(c.response) && Truthy(c.message) ==> r == c.message.value
  {
    match c
    case Replied(response, message) => FirstTruthy(response, message, InstructionsUpdatedText)
    case Failed => InstructionsErrorText
  }

  class Chatbot {
    var messages: seq<Message>
    var input: string
    var instructions: string
    var showInstructions: bool
    var loading: bool
    ghost var pending: Pending

    /** `loading` is set exactly while a request is in flight. */
    ghost predicate Valid()
      reads this
    {
      loading <==> pending != NoRequest
    }

    /** The initial values of the five `useState` calls. */
    constructor ()
      ensures Valid()
      ensures messages == [] && input == "" && instructions == ""
      ensures !showInstructions && !loading && pending == NoRequest
    {
      messages, input, instructions := [], "", "";
      showInstructions, loading := false, false;
      pending := NoRequest;
    }

    /** The part of `sendMessage` before its `await`. Blank input or a request
        in flight changes nothing and sends nothing; otherwise one user
        message with the trimmed input is appended, the input is cleared,
        `loading` is set and the trimmed input is sent as the prompt. */
    method SubmitMessage(now: Timestamp) returns (request: Option<Request>)
      requires Valid()
      modifies this
      ensures Valid()
      ensures request.None? <==> IsBlank(old(input)) || old(loading)
      ensures request.None? ==> unchanged(this)
      ensures request.Some? ==>
        && request.value == PromptRequest(Trim(old(input)))
        && messages == old(messages) + [Message(User, Trim(old(input)), now)]
        && input == "" && loading && pending == AwaitingPrompt
        && instructions == old(instructions) && showInstructions == old(showInstructions)
      ensures request.Some? ==> !IsBlank(request.value.prompt) && Trim(request.value.prompt) == request.value.prompt
    {
      if IsBlank(input) || loading {
        return None;
      }
      var prompt := Trim(input);
      TrimIdempotent(input);
      TrimKeepsNonBlank(input);
      messages := messages + [Message(User, prompt, now)];
      input := "";
      loading := true;
      pending := AwaitingPrompt;
      request := Some(PromptRequest(prompt));
    }

    /** The part of `sendMessage` after its `await`, `catch` and `finally`
        included: exactly one assistant message is appended, earlier messages
        stay as they were, and `loading` is cleared. */
    method CompleteMessage(outcome: Completion, now: Timestamp)
      requires Valid() && pending == AwaitingPrompt
      modifies this
      ensures Valid() && !loading && pending == NoRequest
      ensures messages == old(messages) + [Message(Assistant, ChatReply(outcome), now)]
      ensures input == old(input) && instructions == old(instructions)
      ensures showInstructions == old(showInstructions)
    {
      messages := messages + [Message(Assistant, ChatReply(outcome), now)];
      loading := false;
      pending := NoRequest;
    }

    /** The part of `sendInstructions` before its `await`: blank instructions
        or a request in flight changes nothing and sends nothing; otherwise
        only `loading` is set and the trimmed instructions are sent. */
    method SubmitInstructions() returns (request: Option<Request>)
      requires Valid()
      modifies this
      ensures Valid()
      ensures request.None? <==> IsBlank(old(instructions)) || old(loading)
      ensures request.None? ==> unchanged(this)
      ensures request.Some? ==>
        && request.value == InstructionsRequest(Trim(old(instructions)))
        && loading && pending == AwaitingInstructions
        && messages == old(messages) && input == old(input)
        && instructions == old(instructions) && showInstructions == old(showInstructions)
    {
      var text := instructions;
      if IsBlank(text) || loading {
        return None;
      }
      var sent := Trim(text);
      loading := true;
      pending := AwaitingInstructions;
      request := Some(InstructionsRequest(sent));
    }

    /** The part of `sendInstructions` after its `await`: exactly one
        assistant message is appended and `loading` is cleared; a reply also
        clears the instructions and hides their panel, a failure leaves both
        as they were. */
    method CompleteInstructions(outcome: Completion, now: Timestamp)
      requires Valid() && pending == AwaitingInstructions
      modifies this
      ensures Valid() && !loading && pending == NoRequest
      ensures messages == old(messages) + [Message(Assistant, InstructionsReply(outcome), now)]
      ensures input == old(input)
      ensures outcome.Replied? ==> instructions == "" && !showInstructions
      ensures outcome.Failed? ==>
        instructions == old(instructions) && showInstructions == old(showInstructions)
    {
      messages := messages + [Message(Assistant, InstructionsReply(outcome), now)];
      if outcome.Replied? {
        instructions := "";
        showInstructions := false;
      }
      loading := false;
      pending := NoRequest;
    }

    /** The whole of `sendMessage` from an idle or busy state, with the
        network's outcome given: a rejected submit changes nothing, an
        accepted one leaves the user message and the reply at the end of the
        list and the session idle again. */
    method SendMessage(outcome: Completion, sentAt: Timestamp, repliedAt: Timestamp)
      requires Valid()
      modifies this
      ensures Valid()
      ensures IsBlank(old(input)) || old(loading) ==> unchanged(this)
      ensures !IsBlank(old(input)) && !old(loading) ==>
        && messages == old(messages) + [Message(User, Trim(old(input)), sentAt),
                                        Message(Assistant, ChatReply(outcome), repliedAt)]
        && input == "" && !loading
        && instructions == old(instructions) && showInstructions == old(showInstructions)
    {
      var request := SubmitMessage(sentAt);
      if request.Some? {
        CompleteMessage(outcome, repliedAt);
      }
    }

    /** The whole of `sendInstructions`, with the network's outcome given. */
    method SendInstructions(outcome: Completion, repliedAt: Timestamp)
      requires Valid()
      modifies this
      ensures Valid()
      ensures IsBlank(old(instructions)) || old(loading) ==> unchanged(this)
      ensures !IsBlank(old(instructions)) && !old(loading) ==>
        && messages == old(messages) + [Message(Assistant, InstructionsReply(outcome), repliedAt)]
        && input == old(input) && !loading
        && (outcome.Replied? ==> instructions == "" && !showInstructions)
        && (outcome.Failed? ==>
              instructions == old(instructions) && showInstructions == old(showInstructions))
    {
      var request := SubmitInstructions();
      if request.Some? {
        CompleteInstructions(outcome, repliedAt);
      }
    }

    /** The Instructions button: flips the panel's visibility. The button is
        disabled while a request is in flight, so a click then does nothing. */
    method ToggleInstructions()
      requires Valid()
      modifies this
      ensures Valid()
      ensures old(loading) ==> unchanged(this)
      ensures !old(loading) ==>
        && showInstructions == !old(showInstructions)
        && messages == old(messages) && input == old(input)
        && instructions == old(instructions) && loading == old(loading)
        && pending == old(pending)
    {
      if !loading {
        showInstructions := !showInstructions;
      }
    }

    /** The panel's Cancel button: hides the panel; disabled while busy. */
    method CancelInstructions()
      requires Valid()
      modifies this
      ensures Valid()
      ensures old(loading) ==> unchanged(this)
      ensures !old(loading) ==>
        && !showInstructions
        && messages == old(messages) && input == old(input)
        && instructions == old(instructions) && loading == old(loading)
        && pending == old(pending)
    {
      if !loading {
        showInstructions := false;
      }
    }

    /** Typing in the message box; the box is disabled while busy. */
    method EditInput(text: string)
      requires Valid()
      modifies this
      ensures Valid()
      ensures old(loading) ==> unchanged(this)
      ensures !old(loading) ==>
        && input == text
        && messages == old(messages) && instructions == old(instructions)
        && showInstructions == old(showInstructions) && loading == old(loading)
        && pending == old(pending)
    {
      if !loading {
        input := text;
      }
    }

    /** Typing in the instructions box; the box is disabled while busy. */
    method EditInstructions(text: string)
      requires Valid()
      modifies this
      ensures Valid()
      ensures old(loading) ==> unchanged(this)
      ensures !old(loading) ==>
        && instructions == text
        && messages == old(messages) && input == old(input)
        && showInstructions == old(showInstructions) && loading == old(loading)
        && pending == old(pending)
    {
      if !loading {
        instructions := text;
      }
    }
  }

  /** Typing `2+2` and sending it, with the backend replying
      `{ response: "4" }`, leaves the prompt and the answer in the list. */
  method PromptScenario() returns (shown: seq<Message>)
    ensures shown == [Message(User, "2+2", 1), Message(Assistant, "4", 2)]
  {
    var bot := new Chatbot();
    bot.EditInput("2+2");
    assert TrimsTo("2+2", 0, 3);
    TrimUnique("2+2", 0, 3);
    assert ChatReply(Replied(Some("4"), None)) == "4";
    assert bot.input == "2+2" && !bot.loading && bot.messages == [];
    assert !IsBlank(bot.input) && Trim(bot.input) == "2+2";
    bot.SendMessage(Replied(Some("4"), None), 1, 2);
    shown := bot.messages;
  }
}
