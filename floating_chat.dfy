/**
 * The floating chat widget (`FloatingChat`): a conversation that starts with a
 * greeting, an input line, a loading flag and an open/closed panel. Sending is
 * split at its `await`: `BeginSend` is what happens before the request leaves,
 * `FinishSend` what happens once its outcome (a parameter) is known.
 */
module FloatingChat {
  import opened Options
  import opened Text
  import opened ChatRoute

  const Greeting: string := "Olá! Como posso ajudar você hoje?"
  const Apology: string := "Desculpe, ocorreu um erro. Tente novamente mais tarde."

  datatype Sender = User | Bot

  datatype Message = Message(sender: Sender, text: string)

  /**
   * The outcome of `POST /api/chat` as the widget sees it: the request or the
   * JSON parsing threw, or a response with its `ok` flag, its `error` field and
   * its `reply` field.
   */
  datatype SendOutcome = FetchFailed | Responded(ok: bool, error: Option<string>, reply: string)

  /** The one bot message a send adds: the reply for an OK response without a truthy `error`, the apology otherwise. */
  function BotText(outcome: SendOutcome): (t: string)
    ensures outcome.FetchFailed? ==> t == Apology
    ensures outcome.Responded? && (!outcome.ok || Truthy(outcome.error)) ==> t == Apology
    ensures outcome.Responded? && outcome.ok && !Truthy(outcome.error) ==> t == outcome.reply
  {
    match outcome
    case FetchFailed => Apology
    case Responded(ok, error, reply) =>
      if !ok then Apology
      else if Truthy(error) then Apology
      else reply
  }

  /** How a response of the chat route reaches the widget: `{reply}` with status 200, or `{error}` with a failing status. */
  function OutcomeOf(resp: ChatResponse): SendOutcome {
    match resp
    case Reply(reply) => Responded(true, None, reply)
    case Failure(status, error) => Responded(200 <= status < 300, Some(error), "")
  }

  /** The widget shows exactly the route's reply, and the apology for every failure of the route. */
  lemma ShowsRouteReply(resp: ChatResponse)
    requires resp.Failure? ==> resp.error != ""
    ensures BotText(OutcomeOf(resp)) == if resp.Reply? then resp.reply else Apology
  {
  }

  class ChatWidget {
    var isOpen: bool
    var messages: seq<Message>
    var isLoading: bool
    var inputValue: string

    /** The conversation opens with the greeting. */
    ghost predicate Valid()
      reads this
    {
      |messages| >= 1 && messages[0] == Message(Bot, Greeting)
    }

    /** Closed, not loading, empty input, and only the greeting. */
    constructor()
      ensures Valid()
      ensures !isOpen && !isLoading && inputValue == ""
      ensures messages == [Message(Bot, Greeting)]
    {
      isOpen := false;
      messages := [Message(Bot, Greeting)];
      isLoading := false;
      inputValue := "";
    }

    /** The floating button. */
    method Open()
      requires Valid()
      modifies this
      ensures Valid()
      ensures isOpen
      ensures messages == old(messages) && isLoading == old(isLoading) && inputValue == old(inputValue)
    {
      isOpen := true;
    }

    /** The close button of the panel. */
    method Close()
      requires Valid()
      modifies this
      ensures Valid()
      ensures !isOpen
      ensures messages == old(messages) && isLoading == old(isLoading) && inputValue == old(inputValue)
    {
      isOpen := false;
    }

    /** Typing into the input. */
    method Type(text: string)
      requires Valid()
      modifies this
      ensures Valid()
      ensures inputValue == text
      ensures messages == old(messages) && isLoading == old(isLoading) && isOpen == old(isOpen)
    {
      inputValue := text;
    }

    /**
     * `handleSendMessage` up to its request: refused for white-space-only input
     * or while loading; otherwise the input text, untrimmed, is appended as the
     * user's message and is what is sent, the input is cleared and loading starts.
     */
    method BeginSend() returns (sent: Option<string>)
      requires Valid()
      modifies this
      ensures Valid()
      ensures IsBlank(old(inputValue)) || old(isLoading) ==>
        sent == None && messages == old(messages) && inputValue == old(inputValue) && isLoading == old(isLoading)
      ensures !IsBlank(old(inputValue)) && !old(isLoading) ==>
        sent == Some(old(inputValue)) && messages == old(messages) + [Message(User, old(inputValue))] &&
        inputValue == "" && isLoading
      ensures isOpen == old(isOpen)
    {
      TrimEmptyIffBlank(inputValue);
      if Trim(inputValue) == "" || isLoading {
        return None;
      }
      var userMessage := Message(User, inputValue);
      messages := messages + [userMessage];
      var currentMessage := inputValue;
      inputValue := "";
      isLoading := true;
      sent := Some(currentMessage);
    }

    /** `handleSendMessage` after its request: exactly one bot message is appended, and loading ends. */
    method FinishSend(outcome: SendOutcome)
      requires Valid()
      modifies this
      ensures Valid()
      ensures messages == old(messages) + [Message(Bot, BotText(outcome))]
      ensures !isLoading && inputValue == old(inputValue) && isOpen == old(isOpen)
    {
      if outcome.FetchFailed? || !outcome.ok || Truthy(outcome.error) {
        messages := messages + [Message(Bot, Apology)];
      } else {
        var botResponse := Message(Bot, outcome.reply);
        messages := messages + [botResponse];
      }
      isLoading := false;
    }

    /**
     * A whole send with no other event in between: nothing for a refused send;
     * otherwise the user's message then one bot message, earlier messages kept.
     */
    method SendMessage(outcome: SendOutcome) returns (sent: Option<string>)
      requires Valid()
      modifies this
      ensures Valid()
      ensures old(messages) <= messages
      ensures IsBlank(old(inputValue)) || old(isLoading) ==>
        sent == None && messages == old(messages) && inputValue == old(inputValue) && isLoading == old(isLoading)
      ensures !IsBlank(old(inputValue)) && !old(isLoading) ==>
        sent == Some(old(inputValue)) &&
        messages == old(messages) + [Message(User, old(inputValue)), Message(Bot, BotText(outcome))] &&
        inputValue == "" && !isLoading
      ensures isOpen == old(isOpen)
    {
      sent := BeginSend();
      if sent.Some? {
        FinishSend(outcome);
      }
    }
  }
}
