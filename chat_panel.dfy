/**
 * The chat panel beside a live call. Sending is split at its one await: the
 * first half checks the input and the session and shows the user's message;
 * the second half takes the outcome of the chat request.
 */
module ChatPanel {
  import opened Strings

  datatype Role = User | Assistant

  /** A chat message; its time-based id is not modelled. */
  datatype Message = Message(role: Role, content: string)

  /** What the chat request ended with: the reply, or an error and its message if it has one. */
  datatype Outcome = Reply(text: string) | Failed(message: Option<string>)

  const NoSessionError: string := "Please start listening to begin the call first."
  const GenericError: string := "Something went wrong"

  /** The send button's enabled condition: non-blank input, not loading, and listening. */
  predicate SendEnabled(input: string, isLoading: bool, isListening: bool) {
    !AllSpace(input, JavaScript) && !isLoading && isListening
  }

  /** An enabled send button passes the send handler's first guard: the trimmed input is not empty. */
  lemma SendEnabledPassesGuard(input: string, isLoading: bool, isListening: bool)
    requires SendEnabled(input, isLoading, isListening)
    ensures Trim(input, JavaScript) != "" && !isLoading
  {
  }

  /** A session id is present when it is neither null nor empty. */
  predicate HasSession(sessionId: Option<string>) {
    sessionId.Some? && sessionId.value != ""
  }

  class ChatPanelState {
    var messages: seq<Message>
    var inputValue: string
    var isLoading: bool
    var error: Option<string>

    /**
     * Every user message is non-empty, every assistant message answers the
     * user message just before it, and while a request is out the newest
     * message is the user's.
     */
    predicate Valid()
      reads this
    {
      && (forall i :: 0 <= i < |messages| && messages[i].role == User ==> messages[i].content != "")
      && (forall i :: 0 <= i < |messages| && messages[i].role == Assistant ==> 0 < i && messages[i - 1].role == User)
      && (isLoading ==> messages != [] && messages[|messages| - 1].role == User)
    }

    constructor ()
      ensures Valid()
      ensures messages == [] && inputValue == "" && !isLoading && error == None
    {
      messages := [];
      inputValue := "";
      isLoading := false;
      error := None;
    }

    /** Typing into the input. */
    method SetInput(value: string)
      modifies this`inputValue
      ensures inputValue == value
    {
      inputValue := value;
    }

    /**
     * handleSend up to its request. Blank input or a request already out:
     * nothing changes. No session: only the error is set. Otherwise the trimmed
     * input is shown as the user's message and returned as the query; the
     * input and the error are cleared and loading begins.
     */
    method BeginSend(sessionId: Option<string>) returns (query: Option<string>)
      requires Valid()
      modifies this`messages, this`inputValue, this`isLoading, this`error
      ensures Valid()
      ensures AllSpace(old(inputValue), JavaScript) || old(isLoading) ==>
        query == None && messages == old(messages) && inputValue == old(inputValue)
        && isLoading == old(isLoading) && error == old(error)
      ensures !AllSpace(old(inputValue), JavaScript) && !old(isLoading) && !HasSession(sessionId) ==>
        query == None && error == Some(NoSessionError) && messages == old(messages)
        && inputValue == old(inputValue) && !isLoading
      ensures !AllSpace(old(inputValue), JavaScript) && !old(isLoading) && HasSession(sessionId) ==>
        && query == Some(Trim(old(inputValue), JavaScript))
        && messages == old(messages) + [Message(User, Trim(old(inputValue), JavaScript))]
        && inputValue == "" && error == None && isLoading
    {
      var content := Trim(inputValue, JavaScript);
      if content == "" || isLoading {
        return None;
      }
      if !HasSession(sessionId) {
        error := Some(NoSessionError);
        return None;
      }
      messages := messages + [Message(User, content)];
      inputValue := "";
      error := None;
      isLoading := true;
      query := Some(content);
    }

    /**
     * handleSend after its request: a reply is appended as the assistant's
     * message; a failure sets the error (its message, or a generic one). Loading
     * ends either way.
     */
    method FinishSend(outcome: Outcome)
      requires Valid() && isLoading
      modifies this`messages, this`isLoading, this`error
      ensures Valid()
      ensures !isLoading
      ensures outcome.Reply? ==> messages == old(messages) + [Message(Assistant, outcome.text)] && error == old(error)
      ensures outcome.Failed? ==> messages == old(messages) && error == Some(outcome.message.GetOr(GenericError))
    {
      if outcome.Reply? {
        messages := messages + [Message(Assistant, outcome.text)];
      } else {
        error := Some(outcome.message.GetOr(GenericError));
      }
      isLoading := false;
    }

    /** handleKeyDown: Enter without Shift sends; anything else, Shift+Enter included, does nothing. */
    method HandleKeyDown(key: string, shiftKey: bool, sessionId: Option<string>) returns (query: Option<string>)
      requires Valid()
      modifies this`messages, this`inputValue, this`isLoading, this`error
      ensures Valid()
      ensures !(key == "Enter" && !shiftKey) ==>
        query == None && messages == old(messages) && inputValue == old(inputValue)
        && isLoading == old(isLoading) && error == old(error)
      ensures key == "Enter" && !shiftKey && (AllSpace(old(inputValue), JavaScript) || old(isLoading)) ==>
        query == None && messages == old(messages) && inputValue == old(inputValue)
        && isLoading == old(isLoading) && error == old(error)
      ensures key == "Enter" && !shiftKey && !AllSpace(old(inputValue), JavaScript) && !old(isLoading)
              && !HasSession(sessionId) ==>
        query == None && error == Some(NoSessionError) && messages == old(messages)
        && inputValue == old(inputValue) && !isLoading
      ensures key == "Enter" && !shiftKey && !AllSpace(old(inputValue), JavaScript) && !old(isLoading)
              && HasSession(sessionId) ==>
        && query == Some(Trim(old(inputValue), JavaScript))
        && messages == old(messages) + [Message(User, Trim(old(inputValue), JavaScript))]
        && inputValue == "" && error == None && isLoading
    {
      query := None;
      if key == "Enter" && !shiftKey {
        query := BeginSend(sessionId);
      }
    }
  }
}
