/** The requests geminiService.ts builds for the model and the answers it hands
    back: the chat history turned into model turns, the user turn with an
    optional file part, the consultation transcript, the profile context and the
    fixed texts returned when a call fails. The model's reply itself is an input:
    `Some(text)` for an answer, `None` for a call that threw. */
module GeminiService {
  import opened Types
  import opened Text
  import opened Seqs

  const SymptomFallback := "Tuvuganye n'ikibazo cya tekiniki. Mwihangane musubiremo nyuma."
  const AdviceFallback := "[ICON:warning] Tuvuganye n'ikibazo cya tekiniki. Mwihangane musubiremo nyuma."
  const SummaryFallback := "Ntibishoboye gukora incamake y'ikiganiro. Mwongere mugerageze."
  /** "None known", shown for an empty list of allergies or conditions. */
  const NoneKnown := "Nta zizwi"

  datatype Role = UserRole | ModelRole

  /** A part of a turn: text, or a file's base-64 payload; the payload is
      `undefined` when the data URL has no comma. */
  datatype Part = TextPart(text: string) | InlineData(data: Option<string>, mimeType: string)

  datatype Content = Content(role: Role, parts: seq<Part>)

  /** Only the patient speaks as the user; the doctor and the system messages are
      both given to the model as its own turns. */
  function RoleOf(sender: Sender): (r: Role)
    ensures r == UserRole <==> sender == User
  {
    if sender == User then UserRole else ModelRole
  }

  function TurnOf(m: Message): Content {
    Content(RoleOf(m.sender), [TextPart(m.text)])
  }

  /** `chatHistory.slice(0, -1).map(...)`: one turn per message but the last. */
  function History(chat: seq<Message>): (h: seq<Content>)
    ensures |h| == if chat == [] then 0 else |chat| - 1
    ensures forall i :: 0 <= i < |h| ==> h[i] == TurnOf(chat[i])
  {
    if |chat| <= 1 then [] else [TurnOf(chat[0])] + History(chat[1..])
  }

  /** The payload of a data URL: `url.split(",")[1]`. */
  function DataUrlPayload(url: string): Option<string> {
    SplitPart(url, ",", 1)
  }

  /** For `data:<type>;base64,<payload>` the payload is what follows the comma. */
  lemma DataUrlPayloadOf(header: string, payload: string)
    requires !Contains(header, ",") && !Contains(payload, ",")
    ensures DataUrlPayload(header + "," + payload) == Some(payload)
  {
    var url := header + "," + payload;
    IndexOfAfter(header, ',', payload);
    assert url == header + [','] + payload;
    SecondPart(url, ",");
    assert url[|header| + 1..] == payload;
  }

  /** A URL without a comma has no payload: the part is `undefined`. */
  lemma DataUrlWithoutComma(url: string)
    requires !Contains(url, ",")
    ensures DataUrlPayload(url).None?
  {
    SplitFirst(url, ",");
  }

  /** `fileToGenerativePart`; the data URL the browser's reader produced is an
      input. */
  function FilePart(file: UploadedFile, dataUrl: string): (p: Part)
    ensures p.InlineData? && p.mimeType == file.mimeType
  {
    InlineData(DataUrlPayload(dataUrl), file.mimeType)
  }

  /** `userParts`: the text part, with the file part put in front of it
      (`unshift`) when there is a file. */
  method UserParts(text: string, filePart: Option<Part>) returns (parts: seq<Part>)
    ensures |parts| >= 1 && parts[|parts| - 1] == TextPart(text)
    ensures |parts| == 2 <==> filePart.Some?
    ensures filePart.Some? ==> parts[0] == filePart.value
    ensures |parts| <= 2
  {
    parts := [TextPart(text)];
    if filePart.Some? {
      parts := [filePart.value] + parts;
    }
  }

  /** `[...history, { role: 'user', parts: userParts }]`. */
  function FullContents(chat: seq<Message>, parts: seq<Part>): seq<Content> {
    History(chat) + [Content(UserRole, parts)]
  }

  /** The contents sent: every message of the chat but the last, in order, and
      then exactly one user turn. */
  lemma ContentsShape(chat: seq<Message>, parts: seq<Part>)
    ensures var c := FullContents(chat, parts);
      |c| == (if chat == [] then 1 else |chat|)
      && c[|c| - 1] == Content(UserRole, parts)
      && forall i :: 0 <= i < |c| - 1 ==> c[i] == TurnOf(chat[i])
  {
  }

  /** The answer of a call: the reply's text, or the fallback when it threw. */
  function Answer(reply: Option<string>, fallback: string): string {
    if reply.Some? then reply.value else fallback
  }

  /** `sendSymptomDetails`: never fails; a failed call answers the fixed text. */
  function SendSymptomDetails(reply: Option<string>): (r: string)
    ensures reply.None? ==> r == SymptomFallback
    ensures reply.Some? ==> r == reply.value
  {
    Answer(reply, SymptomFallback)
  }

  /** `allergies.join(', ') || 'Nta zizwi'`. */
  function ProfileList(items: seq<string>): string {
    var joined := Join(items, ", ");
    if joined == "" then NoneKnown else joined
  }

  /** "None known" stands for an empty list, and also for a list holding only the
      empty string, since that joins to the empty string too. */
  lemma ProfileListIsJoinOrNoneKnown(items: seq<string>)
    ensures ProfileList(items) == if items == [] || items == [""] then NoneKnown else Join(items, ", ")
  {
    JoinEmpty(items, ", ");
  }

  /** The two profile lines of the advice instructions. */
  datatype ProfileContext = ProfileContext(allergies: string, conditions: string)

  function ContextOf(profile: UserProfile): ProfileContext {
    ProfileContext(ProfileList(profile.allergies), ProfileList(profile.chronicConditions))
  }

  /** `getAIHealthAdvice`: the profile's lines (`ContextOf`) are read first inside
      the `try`, so without a profile the call fails before the model is asked,
      whatever it would reply. */
  function AIHealthAdvice(profile: Option<UserProfile>, reply: Option<string>): (r: string)
    ensures profile.None? ==> r == AdviceFallback
    ensures profile.Some? && reply.Some? ==> r == reply.value
    ensures profile.Some? && reply.None? ==> r == AdviceFallback
  {
    match profile
    case None => AdviceFallback
    case Some(_) => Answer(reply, AdviceFallback)
  }

  predicate NotSystem(m: Message) {
    m.sender != System
  }

  /** One transcript line: "Umurwayi" (patient) for the user, "Muganga" (doctor)
      for everyone else, then ": " and the message's text as it is. */
  function TranscriptLine(m: Message): (line: string)
    ensures |line| > |m.text|
    ensures line[..|line| - |m.text|] == if m.sender == User then "Umurwayi: " else "Muganga: "
    ensures line[|line| - |m.text|..] == m.text
  {
    (if m.sender == User then "Umurwayi" else "Muganga") + ": " + m.text
  }

  function TranscriptLines(chat: seq<Message>): (lines: seq<string>)
    ensures |lines| == |chat|
    ensures forall i :: 0 <= i < |chat| ==> lines[i] == TranscriptLine(chat[i])
  {
    seq(|chat|, i requires 0 <= i < |chat| => TranscriptLine(chat[i]))
  }

  /** The transcript of `generateConsultationSummary`: the lines of the patient's
      and the doctor's messages, separated by newlines. It is empty exactly when
      there is no such message. */
  function Transcript(chat: seq<Message>): (t: string)
    ensures t == "" <==> Filter(chat, NotSystem) == []
  {
    var lines := TranscriptLines(Filter(chat, NotSystem));
    if lines == [] then ""
    else
      JoinStartsWithFirst(lines, "\n");
      Join(lines, "\n")
  }

  /** A system message leaves the transcript as it was. */
  lemma TranscriptSkipsSystem(chat: seq<Message>, m: Message)
    requires m.sender == System
    ensures Transcript(chat + [m]) == Transcript(chat)
  {
    FilterAppend(chat, [m], NotSystem);
    assert Filter([m], NotSystem) == [];
    assert Filter(chat, NotSystem) + [] == Filter(chat, NotSystem);
  }

  /** Any other message adds its line at the end, after a newline unless it is
      the first line: lines are separated, not terminated. */
  lemma TranscriptAddsLine(chat: seq<Message>, m: Message)
    requires m.sender != System
    ensures var t := Transcript(chat);
      Transcript(chat + [m]) == if Filter(chat, NotSystem) == [] then TranscriptLine(m) else t + "\n" + TranscriptLine(m)
  {
    var kept := Filter(chat, NotSystem);
    FilterAppend(chat, [m], NotSystem);
    assert Filter([m][1..], NotSystem) == [];
    assert Filter([m], NotSystem) == [m];
    assert TranscriptLines(kept + [m]) == TranscriptLines(kept) + [TranscriptLine(m)];
    JoinAppend(TranscriptLines(kept), TranscriptLine(m), "\n");
  }

  /** `generateConsultationSummary`: the summary, or the fixed text when the call
      failed. */
  function ConsultationSummary(reply: Option<string>): (r: string)
    ensures reply.None? ==> r == SummaryFallback
    ensures reply.Some? ==> r == reply.value
  {
    Answer(reply, SummaryFallback)
  }
}
