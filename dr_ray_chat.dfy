/**
 * The chat window of the "chat with Dr. Ray" page
 * (frontend/app/chat-with-dr-ray/components/Chat.js): a message log that
 * only grows, a text input, and a canned bot reply that arrives after each
 * send. The one-second timer is modelled as a reply the window owes until
 * `BotReply` delivers it.
 */
module DrRayChat {
  import opened Text

  datatype Sender = User | Bot

  datatype ChatMessage = ChatMessage(id: int, message: string, sender: Sender)

  const BotText := "This is a bot response."

  /** `[...prev, { id: prev.length + 1, message, sender }]`. */
  function AppendMessage(log: seq<ChatMessage>, message: string, sender: Sender): seq<ChatMessage> {
    log + [ChatMessage(|log| + 1, message, sender)]
  }

  /** Every id is the message's 1-based position in the log. */
  predicate IdsArePositions(log: seq<ChatMessage>) {
    forall i | 0 <= i < |log| :: log[i].id == i + 1
  }

  /**
   * Appending keeps every earlier message as it was, adds exactly one at the
   * end, and keeps ids equal to positions when they were before.
   */
  lemma AppendMessageFacts(log: seq<ChatMessage>, message: string, sender: Sender)
    ensures var r := AppendMessage(log, message, sender);
      && |r| == |log| + 1 && r[..|log|] == log
      && r[|log|].message == message && r[|log|].sender == sender
      && (IdsArePositions(log) ==> IdsArePositions(r))
  {
    var r := AppendMessage(log, message, sender);
    assert r[..|log|] == log;
  }

  /** Ids stay unique when they start as positions: two messages with the same id are the same message. */
  lemma PositionIdsAreUnique(log: seq<ChatMessage>, i: int, j: int)
    requires IdsArePositions(log) && 0 <= i < |log| && 0 <= j < |log|
    ensures log[i].id == log[j].id <==> i == j
  {
  }

  class ChatWindow {
    var messages: seq<ChatMessage>
    var inputValue: string
    /** Bot replies scheduled by a send and not yet delivered. */
    var pendingReplies: nat

    constructor (initialMessages: seq<ChatMessage>)
      ensures messages == initialMessages && inputValue == "" && pendingReplies == 0
    {
      messages := initialMessages;
      inputValue := "";
      pendingReplies := 0;
    }

    /** The input's `onChange`. */
    method SetInput(value: string)
      modifies this
      ensures inputValue == value && messages == old(messages) && pendingReplies == old(pendingReplies)
    {
      inputValue := value;
    }

    /**
     * `handleSendMessage`: blank input (after `trim`) changes nothing;
     * otherwise the text is appended as a user message, a bot reply is
     * scheduled and the input is cleared.
     */
    method HandleSendMessage()
      modifies this
      ensures JsBlank(old(inputValue)) ==>
        messages == old(messages) && inputValue == old(inputValue) && pendingReplies == old(pendingReplies)
      ensures !JsBlank(old(inputValue)) ==>
        && messages == AppendMessage(old(messages), old(inputValue), User)
        && inputValue == ""
        && pendingReplies == old(pendingReplies) + 1
      ensures old(messages) <= messages
      ensures IdsArePositions(old(messages)) ==> IdsArePositions(messages)
    {
      if JsBlank(inputValue) {
        return;
      }
      AppendMessageFacts(messages, inputValue, User);
      messages := AppendMessage(messages, inputValue, User);
      pendingReplies := pendingReplies + 1;
      inputValue := "";
    }

    /** The scheduled timer fires: the canned bot message is appended, numbered after the log as it is then. */
    method BotReply()
      requires pendingReplies > 0
      modifies this
      ensures messages == AppendMessage(old(messages), BotText, Bot)
      ensures inputValue == old(inputValue) && pendingReplies == old(pendingReplies) - 1
      ensures old(messages) <= messages
      ensures IdsArePositions(old(messages)) ==> IdsArePositions(messages)
    {
      AppendMessageFacts(messages, BotText, Bot);
      messages := AppendMessage(messages, BotText, Bot);
      pendingReplies := pendingReplies - 1;
    }
  }

  /** Two sends and their replies, as a user would see them: the log alternates user, bot, user, bot. */
  method TwoExchanges()
  {
    var w := new ChatWindow([]);
    w.SetInput("Hello");
    assert !IsJsWhitespace("Hello"[0]);
    w.HandleSendMessage();
    w.BotReply();
    w.SetInput("   ");
    w.HandleSendMessage();
    assert |w.messages| == 2;
    w.SetInput("My back hurts");
    assert !IsJsWhitespace("My back hurts"[0]);
    w.HandleSendMessage();
    w.BotReply();
    assert w.messages == [
      ChatMessage(1, "Hello", User), ChatMessage(2, BotText, Bot),
      ChatMessage(3, "My back hurts", User), ChatMessage(4, BotText, Bot)];
  }
}
