/** The doctor chat of ChatWindow.tsx. A send appends the patient's message and
    the doctor's answer to the list captured before the request, and the request
    is built from the list as it was before the new message. */
module ChatWindow {
  import opened Types
  import opened Text
  import GeminiService

  /** `handleSendMessage` does nothing in these cases. */
  predicate SendIgnored(newMessage: string, isLoading: bool, doctor: Option<Doctor>) {
    IsBlank(newMessage) || isLoading || doctor.None?
  }

  /** The request of a send: the service receives the list from before the new
      message and drops its last element, so with a non-empty list the message
      just before the new one is not part of the request. */
  lemma RequestMissesPreviousMessage(messages: seq<Message>, text: string)
    requires messages != []
    ensures var c := GeminiService.FullContents(messages, [GeminiService.TextPart(text)]);
      |c| == |messages|
      && (forall i :: 0 <= i < |messages| - 1 ==> c[i] == GeminiService.TurnOf(messages[i]))
      && c[|messages| - 1] == GeminiService.Content(GeminiService.UserRole, [GeminiService.TextPart(text)])
  {
    GeminiService.ContentsShape(messages, [GeminiService.TextPart(text)]);
  }

  class ChatWindow {
    const doctor: Option<Doctor>
    var messages: seq<Message>
    var newMessage: string
    var isLoading: bool

    constructor(doctor: Option<Doctor>, initialMessages: seq<Message>)
      ensures this.doctor == doctor && messages == initialMessages
      ensures newMessage == "" && !isLoading
    {
      this.doctor := doctor;
      messages := initialMessages;
      newMessage := "";
      isLoading := false;
    }

    method SetNewMessage(text: string)
      modifies this`newMessage
      ensures newMessage == text
    {
      newMessage := text;
    }

    /** Up to the request: the list with the patient's untrimmed message is shown,
        and kept for the answer (`updatedMessages`); the input is cleared. */
    method BeginSend() returns (updated: seq<Message>, contents: seq<GeminiService.Content>)
      requires !SendIgnored(newMessage, isLoading, doctor)
      modifies this`messages, this`newMessage, this`isLoading
      ensures updated == old(messages) + [Message(old(newMessage), User, None)]
      ensures contents == GeminiService.FullContents(old(messages), [GeminiService.TextPart(old(newMessage))])
      ensures messages == updated && newMessage == "" && isLoading
    {
      contents := GeminiService.FullContents(messages, [GeminiService.TextPart(newMessage)]);
      updated := messages + [Message(newMessage, User, None)];
      messages, newMessage, isLoading := updated, "", true;
    }

    /** After the answer: the kept list plus the doctor's message; loading ends. */
    method FinishSend(updated: seq<Message>, answer: string)
      modifies this`messages, this`isLoading
      ensures messages == updated + [Message(answer, Sender.Doctor, None)]
      ensures !isLoading
    {
      messages := updated + [Message(answer, Sender.Doctor, None)];
      isLoading := false;
    }

    /** `handleSendMessage`, with the model's reply as an input (`None` when the
        call failed). It returns the contents of the request. */
    method HandleSendMessage(reply: Option<string>) returns (contents: seq<GeminiService.Content>)
      modifies this`messages, this`newMessage, this`isLoading
      ensures SendIgnored(old(newMessage), old(isLoading), doctor) ==>
        messages == old(messages) && newMessage == old(newMessage) && isLoading == old(isLoading) && contents == []
      ensures !SendIgnored(old(newMessage), old(isLoading), doctor) ==>
        messages == old(messages) + [Message(old(newMessage), User, None),
                                     Message(GeminiService.SendSymptomDetails(reply), Sender.Doctor, None)]
        && newMessage == "" && !isLoading
        && contents == GeminiService.FullContents(old(messages), [GeminiService.TextPart(old(newMessage))])
    {
      if SendIgnored(newMessage, isLoading, doctor) {
        return [];
      }
      var updated;
      updated, contents := BeginSend();
      FinishSend(updated, GeminiService.SendSymptomDetails(reply));
    }

    /** "End the consultation": the list is handed over as it is. */
    method EndConsultation() returns (history: seq<Message>)
      ensures history == messages
    {
      history := messages;
    }
  }
}
