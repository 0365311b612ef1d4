/**
 * The live-chat modal: a message log that only grows at the end, an input
 * box, a typing indicator, and a canned bot reply after each sent message.
 */
module LiveChat {
  import opened Text

  datatype Sender = User | Bot

  /** A chat message (its timestamp left out). */
  datatype Message = Message(id: string, text: string, sender: Sender)

  const Greeting: string := "Hello! Welcome to Relieflink support. How can I help you today?"

  const BotResponses: seq<string> := [
    "Thank you for your question! Our team will get back to you shortly.",
    "I understand your concern. Let me connect you with a specialist who can help.",
    "That's a great question! You can find more information in our FAQ section.",
    "I'm here to help! Could you provide more details about your issue?",
    "For donation-related questions, I recommend checking your dashboard or contacting our finance team.",
    "Our platform uses blockchain technology to ensure transparency. Would you like to know more?",
    "Emergency support is available 24/7. If this is urgent, please call +91 9876543210.",
    "I can help you with account settings, donations, or general platform questions. What would you like to know?"
  ]

  /** The send button is disabled exactly when the trimmed input is empty. */
  predicate SendDisabled(input: string)
  {
    Trim(input) == ""
  }

  /** The send button is disabled exactly for all-white-space input. */
  lemma SendDisabledIffBlank(input: string)
    ensures SendDisabled(input) <==> IsBlank(input)
  {
    TrimEmptyIffBlank(input);
  }

  /** handleKeyPress sends on Enter without Shift, and on nothing else. */
  predicate KeySends(key: string, shiftKey: bool)
  {
    key == "Enter" && !shiftKey
  }

  /** LiveChatModal's state. */
  class ChatWindow {
    var messages: seq<Message>
    var inputMessage: string
    var isTyping: bool
    /** Reply callbacks scheduled and not yet run. */
    ghost var pendingReplies: nat

    constructor ()
      ensures messages == [Message("1", Greeting, Bot)]
      ensures inputMessage == "" && !isTyping && pendingReplies == 0
    {
      messages := [Message("1", Greeting, Bot)];
      inputMessage := "";
      isTyping := false;
      pendingReplies := 0;
    }

    /** The input box's onChange. */
    method InputChange(text: string)
      modifies this`inputMessage
      ensures inputMessage == text
    {
      inputMessage := text;
    }

    /**
     * handleSendMessage with a caller-chosen message id: blank input changes
     * nothing; otherwise the untrimmed input is appended as a user message,
     * the box is cleared, the typing indicator turns on and a reply is scheduled.
     */
    method SendMessage(id: string) returns (sent: bool)
      modifies this`messages, this`inputMessage, this`isTyping, this`pendingReplies
      ensures sent <==> !IsBlank(old(inputMessage))
      ensures !sent ==> (messages == old(messages) && inputMessage == old(inputMessage) &&
                         isTyping == old(isTyping) && pendingReplies == old(pendingReplies))
      ensures sent ==> (messages == old(messages) + [Message(id, old(inputMessage), User)] &&
                        inputMessage == "" && isTyping && pendingReplies == old(pendingReplies) + 1)
    {
      TrimEmptyIffBlank(inputMessage);
      if Trim(inputMessage) == "" {
        return false;
      }
      messages := messages + [Message(id, inputMessage, User)];
      inputMessage := "";
      isTyping := true;
      pendingReplies := pendingReplies + 1;
      sent := true;
    }

    /**
     * The reply timer: one bot message, the canned response at `choice`
     * (`Math.floor(Math.random() * 8)`), and the typing indicator off.
     */
    method ReceiveReply(id: string, choice: int)
      requires pendingReplies > 0
      requires 0 <= choice < |BotResponses|
      modifies this`messages, this`isTyping, this`pendingReplies
      ensures messages == old(messages) + [Message(id, BotResponses[choice], Bot)]
      ensures messages[|messages| - 1].text in BotResponses
      ensures !isTyping && pendingReplies == old(pendingReplies) - 1
    {
      messages := messages + [Message(id, BotResponses[choice], Bot)];
      isTyping := false;
      pendingReplies := pendingReplies - 1;
    }

    /**
     * handleKeyPress: Enter without Shift does what the send button does; any
     * other key, and Enter on blank input, changes nothing.
     */
    method KeyPress(key: string, shiftKey: bool, id: string) returns (sent: bool)
      modifies this`messages, this`inputMessage, this`isTyping, this`pendingReplies
      ensures sent <==> KeySends(key, shiftKey) && !IsBlank(old(inputMessage))
      ensures !sent ==> (messages == old(messages) && inputMessage == old(inputMessage) &&
                         isTyping == old(isTyping) && pendingReplies == old(pendingReplies))
      ensures sent ==> (messages == old(messages) + [Message(id, old(inputMessage), User)] &&
                        inputMessage == "" && isTyping && pendingReplies == old(pendingReplies) + 1)
    {
      sent := false;
      if KeySends(key, shiftKey) {
        sent := SendMessage(id);
      }
    }
  }

  /** A conversation: white space is not sent, a question gets one reply. */
  method ChatScenario()
  {
    var w := new ChatWindow();
    w.InputChange(" \t");
    var sent := w.SendMessage("2");
    assert IsWhitespace(" \t"[0]) && IsWhitespace(" \t"[1]);
    assert !sent && |w.messages| == 1;
    w.InputChange("help");
    assert !IsWhitespace("help"[0]);
    sent := w.SendMessage("3");
    assert sent && w.messages[1] == Message("3", "help", User) && w.isTyping;
    w.ReceiveReply("4", 2);
    assert |w.messages| == 3 && !w.isTyping && w.messages[0].text == Greeting;
  }
}
