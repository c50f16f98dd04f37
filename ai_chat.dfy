/** The AI advice chat of AIChatPage.tsx. It opens with one system greeting. The
    advice service is called without a profile, so every answer it gives is its
    fixed warning text. */
module AIChat {
  import opened Types
  import opened Text
  import GeminiService

  const Greeting := "Muraho! Ndi umujyanama w'ubuzima wa AI. Vuga ku bimenyetso byawe cyangwa ubaze ikibazo kijyanye n'ubuzima."

  predicate SendIgnored(newMessage: string, isLoading: bool) {
    IsBlank(newMessage) || isLoading
  }

  class AIChatPage {
    var messages: seq<Message>
    var newMessage: string
    var isLoading: bool

    constructor()
      ensures messages == [Message(Greeting, System, None)]
      ensures newMessage == "" && !isLoading
    {
      messages := [Message(Greeting, System, None)];
      newMessage := "";
      isLoading := false;
    }

    method SetNewMessage(text: string)
      modifies this`newMessage
      ensures newMessage == text
    {
      newMessage := text;
    }

    /** Up to the request: the patient's untrimmed message is shown and kept for the
        answer (`updatedMessages`); the input is cleared. */
    method BeginSend() returns (updated: seq<Message>)
      requires !SendIgnored(newMessage, isLoading)
      modifies this`messages, this`newMessage, this`isLoading
      ensures updated == old(messages) + [Message(old(newMessage), User, None)]
      ensures messages == updated && newMessage == "" && isLoading
    {
      updated := messages + [Message(newMessage, User, None)];
      messages, newMessage, isLoading := updated, "", true;
    }

    /** After the answer: the kept list plus the answer, shown as the doctor's. */
    method FinishSend(updated: seq<Message>, answer: string)
      modifies this`messages, this`isLoading
      ensures messages == updated + [Message(answer, Sender.Doctor, None)]
      ensures !isLoading
    {
      messages := updated + [Message(answer, Sender.Doctor, None)];
      isLoading := false;
    }

    /** `handleSendMessage`, with the model's reply as an input. */
    method HandleSendMessage(reply: Option<string>)
      modifies this`messages, this`newMessage, this`isLoading
      ensures SendIgnored(old(newMessage), old(isLoading)) ==>
        messages == old(messages) && newMessage == old(newMessage) && isLoading == old(isLoading)
      ensures !SendIgnored(old(newMessage), old(isLoading)) ==>
        messages == old(messages) + [Message(old(newMessage), User, None),
                                     Message(GeminiService.AdviceFallback, Sender.Doctor, None)]
        && newMessage == "" && !isLoading
    {
      if SendIgnored(newMessage, isLoading) {
        return;
      }
      var updated := BeginSend();
      FinishSend(updated, GeminiService.AIHealthAdvice(None, reply));
    }
  }
}
