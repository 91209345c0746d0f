/** The reliability chat widget: an append-only message log, the input box,
    the typing indicator and the open/closed panel. `Date.now()` is an input
    to each handler; a chat request is split into its start and its reply. */
module ChatWidget {
  import opened Wrappers
  import opened Toasts
  import JsText

  datatype Sender = User | Agent

  datatype Message = Message(id: int, sender: Sender, text: string)

  const Greeting: Message := Message(1, Agent,
    "Hello! I'm your Reliability Chatbot. Ask me about system status, past incidents, or for remediation suggestions.")

  const Apology: string := "I'm sorry, I'm having trouble responding right now. Please try again soon."

  const FailureToast: Toast := Toast("Chat connection failed", Error)

  /** The message a settled chat request appends: the reply, or the apology. */
  function AgentReply(now: int, reply: Result<string, string>): (m: Message)
    ensures m.sender == Agent && m.id == now + 1
    ensures reply.Ok? ==> m.text == reply.value
    ensures reply.Err? ==> m.text == Apology
  {
    Message(now + 1, Agent, if reply.Ok? then reply.value else Apology)
  }

  class Widget {
    var isOpen: bool
    var messages: seq<Message>
    var inputValue: string
    var isTyping: bool
    var toasts: seq<Toast>
    /** Requests sent and not yet answered. */
    var pending: nat

    constructor ()
      ensures !isOpen && messages == [Greeting] && inputValue == "" && !isTyping
      ensures toasts == [] && pending == 0
    {
      isOpen := false;
      messages := [Greeting];
      inputValue := "";
      isTyping := false;
      toasts := [];
      pending := 0;
    }

    /** Cmd/Ctrl+K and the floating button both flip the panel. */
    method Toggle()
      modifies this`isOpen
      ensures isOpen == !old(isOpen)
    {
      isOpen := !isOpen;
    }

    /** The panel's close button. */
    method Close()
      modifies this`isOpen
      ensures !isOpen
    {
      isOpen := false;
    }

    method Type(value: string)
      modifies this`inputValue
      ensures inputValue == value
    {
      inputValue := value;
    }

    /** `handleSendMessage` up to its `await`. Whitespace-only input changes
        nothing; otherwise the untrimmed text is appended and sent. */
    method Send(now: int) returns (sent: Option<string>)
      modifies this
      ensures JsText.IsBlank(old(inputValue)) ==>
        sent.None? && messages == old(messages) && inputValue == old(inputValue)
      ensures JsText.IsBlank(old(inputValue)) ==> isTyping == old(isTyping) && pending == old(pending)
      ensures !JsText.IsBlank(old(inputValue)) ==>
        sent == Some(old(inputValue)) && messages == old(messages) + [Message(now, User, old(inputValue))]
      ensures !JsText.IsBlank(old(inputValue)) ==>
        inputValue == "" && isTyping && pending == old(pending) + 1
      ensures isOpen == old(isOpen) && toasts == old(toasts)
    {
      if JsText.IsBlank(inputValue) {
        sent := None;
      } else {
        sent := Some(inputValue);
        messages := messages + [Message(now, User, inputValue)];
        inputValue := "";
        isTyping := true;
        pending := pending + 1;
      }
    }

    /** A chat request settles: exactly one agent message is appended, an
        error toast accompanies a failure, and typing stops. */
    method ReplyArrived(now: int, reply: Result<string, string>)
      requires pending > 0
      modifies this
      ensures messages == old(messages) + [AgentReply(now, reply)]
      ensures toasts == old(toasts) + (if reply.Err? then [FailureToast] else [])
      ensures !isTyping && pending == old(pending) - 1
      ensures isOpen == old(isOpen) && inputValue == old(inputValue)
    {
      messages := messages + [AgentReply(now, reply)];
      if reply.Err? {
        toasts := toasts + [FailureToast];
      }
      isTyping := false;
      pending := pending - 1;
    }
  }

  /** One round trip from a fresh widget: greeting, the user's text as typed,
      then the agent's reply or the apology. */
  method Exchange(text: string, sentAt: int, repliedAt: int, reply: Result<string, string>)
    returns (messages: seq<Message>, toastCount: nat, typing: bool)
    requires !JsText.IsBlank(text)
    ensures |messages| == 3 && messages[0] == Greeting
    ensures messages[1] == Message(sentAt, User, text)
    ensures messages[2].sender == Agent
    ensures reply.Ok? ==> messages[2].text == reply.value && toastCount == 0
    ensures reply.Err? ==> messages[2].text == Apology && toastCount == 1
    ensures !typing
  {
    var w := new Widget();
    w.Type(text);
    var sent := w.Send(sentAt);
    w.ReplyArrived(repliedAt, reply);
    messages, toastCount, typing := w.messages, |w.toasts|, w.isTyping;
  }

  /** Sending whitespace leaves the log at the greeting and sends nothing. */
  method BlankSendIgnored(text: string) returns (messages: seq<Message>, sent: Option<string>, typing: bool)
    requires JsText.IsBlank(text)
    ensures messages == [Greeting] && sent.None? && !typing
  {
    var w := new Widget();
    w.Type(text);
    sent := w.Send(0);
    messages, typing := w.messages, w.isTyping;
  }

  /** Two sends before either reply: the log holds both user messages and
      then both agent messages, and nothing earlier is altered. */
  method OverlappingSends(a: string, b: string, r1: Result<string, string>, r2: Result<string, string>)
    returns (messages: seq<Message>)
    requires !JsText.IsBlank(a) && !JsText.IsBlank(b)
    ensures |messages| == 5 && messages[0] == Greeting
    ensures messages[1].text == a && messages[2].text == b
    ensures messages[3].sender == Agent && messages[4].sender == Agent
  {
    var w := new Widget();
    w.Type(a);
    var s := w.Send(10);
    w.Type(b);
    s := w.Send(20);
    w.ReplyArrived(30, r1);
    w.ReplyArrived(40, r2);
    messages := w.messages;
  }
}
