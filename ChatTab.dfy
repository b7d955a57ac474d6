/** The chat tab: an append-only transcript that opens with the bot's greeting, the
    input box, and the `isSending` flag around one request to the chat endpoint. */
module Chat {
  import opened KotlinText
  import opened Models

  datatype ChatMessage = ChatMessage(text: string, isUser: bool)

  const Welcome := ChatMessage("Halo! Aku NYAM Bot. Ada yang bisa aku bantu seputar gizimu hari ini?", false)
  const Apology := ChatMessage("Maaf, koneksi terputus. Coba lagi ya!", false)

  /** The bot messages a finished request appends. */
  function BotAnswer(reply: Reply<ChatReply>): (added: seq<ChatMessage>)
    ensures reply.Threw? ==> added == [Apology]
    ensures reply.IsSuccessful() && reply.data.Some? ==> added == [ChatMessage(reply.data.value.reply, false)]
    ensures reply.Responded? && !(reply.IsSuccessful() && reply.data.Some?) ==> added == []
    ensures |added| <= 1 && forall m :: m in added ==> !m.isUser
  {
    match reply
    case Threw => [Apology]
    case Responded(_, data) =>
      if reply.IsSuccessful() && data.Some? then [ChatMessage(data.value.reply, false)] else []
  }

  class ChatState {
    var messages: seq<ChatMessage>
    var inputText: string
    var isSending: bool

    /** The transcript is never empty and always starts with the greeting. */
    ghost predicate Valid()
      reads this
    {
      |messages| > 0 && messages[0] == Welcome
    }

    constructor ()
      ensures Valid() && messages == [Welcome]
      ensures inputText == "" && !isSending
    {
      messages := [Welcome];
      inputText := "";
      isSending := false;
    }

    /** The send button is enabled only while idle with something to send. */
    predicate SendEnabled(): (enabled: bool)
      reads this
      ensures enabled <==> !isSending && exists i :: 0 <= i < |inputText| && !IsWhitespace(inputText[i])
    {
      !isSending && !IsBlank(inputText)
    }

    /** The text field, which is disabled while a message is being sent. */
    method EditInput(text: string)
      modifies this`inputText
      ensures inputText == (if old(isSending) then old(inputText) else text)
    {
      if !isSending {
        inputText := text;
      }
    }

    /** The click handler: blank input does nothing; otherwise the text becomes one user
        message, the field is cleared and `isSending` is raised. `sent` is the text of
        the request that is then launched. */
    method Send() returns (sent: Option<string>)
      requires Valid()
      modifies this`messages, this`inputText, this`isSending
      ensures Valid()
      ensures IsBlank(old(inputText)) ==>
                sent.None? && messages == old(messages) && inputText == old(inputText) && isSending == old(isSending)
      ensures !IsBlank(old(inputText)) ==>
                sent == Some(old(inputText)) && messages == old(messages) + [ChatMessage(old(inputText), true)]
                && inputText == "" && isSending
    {
      sent := None;
      if !IsBlank(inputText) {
        var userMsg := inputText;
        messages := messages + [ChatMessage(userMsg, true)];
        inputText := "";
        isSending := true;
        sent := Some(userMsg);
      }
    }

    /** The launched request's end: the bot's answer (if any) is appended, `isSending`
        drops, and the list scrolls to its last item. */
    method Finish(reply: Reply<ChatReply>) returns (scrollTo: nat)
      requires Valid()
      modifies this`messages, this`isSending
      ensures Valid()
      ensures messages == old(messages) + BotAnswer(reply)
      ensures !isSending
      ensures scrollTo == |messages| - 1
    {
      if reply.IsSuccessful() {
        if reply.data.Some? {
          messages := messages + [ChatMessage(reply.data.value.reply, false)];
        }
      } else if reply.Threw? {
        messages := messages + [Apology];
      }
      isSending := false;
      scrollTo := |messages| - 1;
    }
  }

  /** One exchange from an enabled send button: the transcript keeps its old messages,
      gains the user's message and at most one answer, and the tab is idle again. */
  method Exchange(c: ChatState, reply: Reply<ChatReply>) returns (scrollTo: nat)
    requires c.Valid() && c.SendEnabled()
    modifies c
    ensures c.Valid() && !c.isSending && c.inputText == ""
    ensures old(c.messages) < c.messages
    ensures c.messages[|old(c.messages)|] == ChatMessage(old(c.inputText), true)
    ensures |old(c.messages)| + 1 <= |c.messages| <= |old(c.messages)| + 2
    ensures scrollTo == |c.messages| - 1
  {
    var sent := c.Send();
    scrollTo := c.Finish(reply);
  }
}
