/** The AI triage chat of SymptomCheckerPage.tsx: it opens with one greeting,
    ignores a send while the input is blank, a reply is pending or the chat is
    missing, and splits a reply that carries the summary marker into the
    explanation shown in the chat and the summary handed on to the doctor. */
module SymptomChecker {
  import opened Types
  import opened Text

  const SummaryPrefix := "[SUMMARY]:"
  const Greeting := "Muraho, ndi umujyanama wa AI ushinzwe kwa kumenya amakuru y'ibanze ku bimenyetso byawe. Mbere y'uko tuvugana na muganga, mbwira muri make ikibazo cyawe nyamukuru."
  const ErrorText := "Habaye ikibazo cya tekiniki. Mwihangane musubiremo."

  /** A reply with the marker, split in two, or a plain reply. */
  datatype Reply = WithSummary(explanation: string, summary: string) | Plain(text: string)

  /** `responseText.split(SUMMARY_PREFIX)`, the first two pieces trimmed. */
  function ParseReply(text: string): (r: Reply)
    ensures r.WithSummary? <==> Contains(text, SummaryPrefix)
  {
    if Contains(text, SummaryPrefix) then
      SplitFirst(text, SummaryPrefix);
      var parts := Split(text, SummaryPrefix);
      WithSummary(Trim(parts[0]), Trim(parts[1]))
    else Plain(text)
  }

  /** The text before the first marker. */
  function BeforeMarker(text: string): string
    requires Contains(text, SummaryPrefix)
  {
    text[..IndexOf(text, SummaryPrefix).value]
  }

  /** The text after the first marker, up to the next marker or the end. */
  function AfterMarker(text: string): string
    requires Contains(text, SummaryPrefix)
  {
    var rest := text[IndexOf(text, SummaryPrefix).value + |SummaryPrefix|..];
    if Contains(rest, SummaryPrefix) then rest[..IndexOf(rest, SummaryPrefix).value] else rest
  }

  /** The explanation is the trimmed text before the first marker and the summary
      the trimmed text between the first marker and the next one, or the end. */
  lemma ParseReplyParts(text: string)
    requires Contains(text, SummaryPrefix)
    ensures ParseReply(text) == WithSummary(Trim(BeforeMarker(text)), Trim(AfterMarker(text)))
  {
    SplitFirst(text, SummaryPrefix);
    SecondPart(text, SummaryPrefix);
    var parts := Split(text, SummaryPrefix);
    assert parts[0] == BeforeMarker(text);
    assert SplitPart(text, SummaryPrefix, 1) == Some(parts[1]);
    assert parts[1] == AfterMarker(text);
  }

  /** The message the reply adds to the chat: the doctor's trimmed explanation
      before the marker, the doctor's whole reply when there is no marker, or the
      system's error text when the request threw. */
  function ReplyMessage(reply: Option<string>): (m: Message)
    ensures reply.None? ==> m == Message(ErrorText, System, None)
    ensures reply.Some? && !Contains(reply.value, SummaryPrefix) ==>
      m == Message(reply.value, Sender.Doctor, None)
    ensures reply.Some? && Contains(reply.value, SummaryPrefix) ==>
      m == Message(Trim(BeforeMarker(reply.value)), Sender.Doctor, None)
  {
    match reply
    case None => Message(ErrorText, System, None)
    case Some(text) =>
      if Contains(text, SummaryPrefix) then
        ParseReplyParts(text);
        Message(ParseReply(text).explanation, Sender.Doctor, None)
      else Message(text, Sender.Doctor, None)
  }

  /** The summary handed on after the reply: present exactly when the reply holds
      the marker, and then the trimmed text between the first marker and the next
      one, or the end. */
  function SummaryOf(reply: Option<string>): (s: Option<string>)
    ensures s.Some? <==> reply.Some? && Contains(reply.value, SummaryPrefix)
    ensures s.Some? ==> s.value == Trim(AfterMarker(reply.value))
  {
    match reply
    case None => None
    case Some(text) =>
      if Contains(text, SummaryPrefix) then
        ParseReplyParts(text);
        Some(ParseReply(text).summary)
      else None
  }

  /** The marker never shows in the chat: the explanation is cut before it and a
      plain reply does not hold it. */
  lemma ReplyMessageHidesMarker(text: string)
    ensures !Contains(ReplyMessage(Some(text)).text, SummaryPrefix)
  {
    if Contains(text, SummaryPrefix) {
      SplitFirst(text, SummaryPrefix);
      var first := Split(text, SummaryPrefix)[0];
      var e := Trim(first);
      var i, j :| 0 <= i <= j <= |first| && e == first[i..j];
      if Contains(e, SummaryPrefix) {
        ContainsInSlice(first, SummaryPrefix, i, j);
      }
    }
  }

  /** `handleSendMessage` does nothing in these cases. */
  predicate SendIgnored(input: string, isLoading: bool, hasChat: bool) {
    IsBlank(input) || isLoading || !hasChat
  }

  class SymptomCheckerPage {
    /** Whether the chat session exists. */
    var hasChat: bool
    var messages: seq<Message>
    var input: string
    var isLoading: bool

    /** The page after its mount effect: a chat session and the one greeting. */
    constructor()
      ensures hasChat && messages == [Message(Greeting, Sender.Doctor, None)]
      ensures input == "" && !isLoading
    {
      hasChat := true;
      messages := [Message(Greeting, Sender.Doctor, None)];
      input := "";
      isLoading := false;
    }

    /** Typing into the input. */
    method SetInput(text: string)
      modifies this`input
      ensures input == text
    {
      input := text;
    }

    /** Up to the request: the untrimmed input is appended as the patient's
        message, the input cleared and loading set. */
    method BeginSend() returns (sent: string)
      requires !SendIgnored(input, isLoading, hasChat)
      modifies this`messages, this`input, this`isLoading
      ensures sent == old(input)
      ensures messages == old(messages) + [Message(sent, User, None)]
      ensures input == "" && isLoading
    {
      sent := input;
      messages := messages + [Message(sent, User, None)];
      input := "";
      isLoading := true;
    }

    /** After the request settles: one message is appended, loading ends, and the
        summary, if any, is what the page hands on. */
    method FinishSend(reply: Option<string>) returns (summary: Option<string>)
      modifies this`messages, this`isLoading
      ensures messages == old(messages) + [ReplyMessage(reply)]
      ensures !isLoading
      ensures summary == SummaryOf(reply)
    {
      messages := messages + [ReplyMessage(reply)];
      isLoading := false;
      summary := SummaryOf(reply);
    }

    /** `handleSendMessage`, with the reply of the chat session as an input. */
    method HandleSendMessage(reply: Option<string>) returns (summary: Option<string>)
      modifies this`messages, this`input, this`isLoading
      ensures SendIgnored(old(input), old(isLoading), hasChat) ==>
        messages == old(messages) && input == old(input) && isLoading == old(isLoading) && summary.None?
      ensures !SendIgnored(old(input), old(isLoading), hasChat) ==>
        messages == old(messages) + [Message(old(input), User, None), ReplyMessage(reply)]
        && input == "" && !isLoading && summary == SummaryOf(reply)
    {
      if SendIgnored(input, isLoading, hasChat) {
        return None;
      }
      var _ := BeginSend();
      summary := FinishSend(reply);
    }
  }
}
