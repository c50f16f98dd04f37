# hearth-care, modelled in Dafny

hearth-care is a single-page React application for remote medical consultations in
Kinyarwanda. A patient:

- picks a doctor, describes their symptoms (optionally with a photo or a video) and pays by card;
- then chats with the doctor, whose answers come from the Gemini model;
- and ends with an AI-written summary of the consultation.

Around that flow the app has:

- an AI triage chat that hands a summary to the doctor;
- an AI advice chat;
- a live voice consultation that streams 16-bit PCM audio to the model and plays its spoken answer back;
- appointment lists and a two-step scheduling wizard;
- notifications, a profile editor, a search modal;
- pages that render the model's markdown reports.

This project models that core. Each page or component is one module (one `.dfy` file):

- State a page updates in place is a `class`. Its fields are the page's React state, refs and closure variables, and its methods are the handlers, with `modifies` clauses.
- The app shell (`App`) and the live consultation (`LiveConsultation`) also have a value-level description of their state: `AppState` and `LiveState`. Each handler method is proved to move `State()` exactly as a function on those values does.
- Pure logic (validation, filtering, markdown classification, request building, base 64) is functions and lemmas.

What the model does not capture:

- Replies of the Gemini model are inputs: `Some(text)` for an answer, `None` for a call that threw.
- The browser's object URLs and its audio clock are inputs.
- Message ids and timestamps are not modelled.

Shared modules:

- `Types`: the records of `types.ts`.
- `Seqs`: `Array.prototype.filter` and its order, membership and count facts.
- `Text`: the JavaScript string operations the pages use: `trim` with the ECMAScript white-space set, `toLowerCase` on ASCII, `includes`, `indexOf`, `split`, `join`, `replace` of the first occurrence, and a `/…/g` replacement.
- `Base64`: section 4 of RFC 4648, as `btoa` produces it and `atob` reads it. It comes with the round-trip proof.

## Model

| member | source | states |
|---|---|---|
| Base64.Value | pages/LiveConsultationPage.tsx:22 | a character has a 6-bit value only if it is in the RFC 4648 alphabet, and that value maps back to it; '=' has none |
| Base64.Encode | pages/LiveConsultationPage.tsx:18 | the encoding of n bytes is 4·⌈n/3⌉ characters long |
| Base64.DecodeEncode | pages/LiveConsultationPage.tsx:12-29 | decoding the encoding of any byte string gives the bytes back |
| LiveConsultation.Btoa | pages/LiveConsultationPage.tsx:18 | `btoa` succeeds exactly on strings whose char codes are all below 256 |
| LiveConsultation.Atob | pages/LiveConsultationPage.tsx:22 | `atob` succeeds exactly on valid padded base 64, and yields a binary string |
| LiveConsultation.AtobBtoa | pages/LiveConsultationPage.tsx:12-29 | `atob(btoa(s))` is `s` for every binary string |
| LiveConsultation.Encode | pages/LiveConsultationPage.tsx:12-19 | the loop that builds the binary string yields `btoa` of the bytes, and that text decodes back to the same bytes |
| LiveConsultation.Decode | pages/LiveConsultationPage.tsx:21-29 | fails exactly when `atob` throws; otherwise returns a fresh array of the decoded bytes, one per character code |
| LiveConsultation.ToInt16 | pages/LiveConsultationPage.tsx:132 | the 16-bit signed wrap: in [-32768, 32768) and congruent to the input modulo 65536 |
| LiveConsultation.Int16View | pages/LiveConsultationPage.tsx:37 | an `Int16Array` over the bytes exists exactly when the byte count is even; it holds the little-endian sample of each byte pair |
| LiveConsultation.Int16ViewOfPcm | pages/LiveConsultationPage.tsx:132 | viewing the PCM bytes of a frame as 16-bit samples gives each sample wrapped to 16 bits |
| LiveConsultation.DecodeAudioData | pages/LiveConsultationPage.tsx:31-48 | no buffer exactly when the view cannot be built or holds fewer samples than channels (`createBuffer` rejects a length of 0); otherwise `numChannels` channels of ⌊n/numChannels⌋ frames, with channel c, frame i holding sample i·numChannels+c |
| LiveConsultation.Releases | pages/LiveConsultationPage.tsx:67-87 | `stopRecording` makes no browser call exactly when no ref is set and the context is absent or closed; it closes a set session, and closes the context exactly when the context is not closed |
| LiveConsultation.Stop | pages/LiveConsultationPage.tsx:67-91 | after `stopRecording` every ref is cleared except a context already reported closed; the page is neither connected nor connecting and shows the ended text; every other field, the transcript and playback included, is unchanged |
| LiveConsultation.StopIdempotent | pages/LiveConsultationPage.tsx:67-91 | a second `stopRecording` makes no browser call and changes nothing |
| LiveConsultation.Toggle | pages/LiveConsultationPage.tsx:93-104 | a running or starting session is stopped; otherwise the page starts connecting with an empty transcript, and the new session captures the accumulators as they were before the reset; no other field changes |
| LiveConsultation.MicrophoneGranted | pages/LiveConsultationPage.tsx:106-116 | the stream and the session are stored, and the playback clock starts at 0 with nothing played; no other field changes |
| LiveConsultation.MicrophoneDenied | pages/LiveConsultationPage.tsx:194-198 | the page shows the microphone text and stops connecting; no other field changes |
| LiveConsultation.Opened | pages/LiveConsultationPage.tsx:119-148 | `onopen` stores the input context, source and processor, and the page shows it is listening; no other field changes |
| LiveConsultation.Errored | pages/LiveConsultationPage.tsx:175-179 | `onerror` ends like `stopRecording`, and the ended text overwrites the error text |
| LiveConsultation.Transcribe | pages/LiveConsultationPage.tsx:150-160 | fragments are appended to the accumulators; a completed turn appends the pair the closure captured and empties both accumulators; no other field, playback included, changes |
| LiveConsultation.Max | pages/LiveConsultationPage.tsx:164 | `Math.max` of two clock values |
| LiveConsultation.Schedule | pages/LiveConsultationPage.tsx:162-173 | a decodable chunk of at least one frame starts at the later of the scheduler time and the clock, and the scheduler moves past it by its frame count; when `decode` or `decodeAudioData` throws (not base 64, an odd byte count, no samples) only the scheduler time advances; no other field changes |
| LiveConsultation.Forward | pages/LiveConsultationPage.tsx:129-141 | with a session, exactly one base-64 text is sent, and its bytes are the frame wrapped to 16 bits, and no page state changes; without a session nothing changes |
| LiveConsultation.InitialScheduled | pages/LiveConsultationPage.tsx:111 | the initial state's playback is gap-free |
| LiveConsultation.ReceiveKeepsSchedule | pages/LiveConsultationPage.tsx:149-174 | every server message keeps playback gap-free: no chunk starts before the previous one ends |
| LiveConsultation.EventsKeepSchedule | pages/LiveConsultationPage.tsx:67-198 | every other event of the session also keeps playback gap-free |
| LiveConsultation.GapFreeOrdered | pages/LiveConsultationPage.tsx:164-171 | in gap-free playback every earlier chunk ends before any later one starts |
| LiveConsultation.FragmentsAccumulate | pages/LiveConsultationPage.tsx:150-155 | until a turn completes, each accumulator is its old text followed by every fragment, in arrival order, and the transcript is unchanged |
| LiveConsultation.TurnCompleteAppendsOne | pages/LiveConsultationPage.tsx:156-160 | a completed turn adds exactly one transcript entry, the captured pair, and clears both accumulators |
| LiveConsultation.FirstTurnIsStale | pages/LiveConsultationPage.tsx:99-157 | the first completed turn of a new session records the text held before the start was pressed, not the text of that session |
| LiveConsultation.LiveSession.constructor | pages/LiveConsultationPage.tsx:53-65 | the page starts idle, with the start text and no refs |
| LiveConsultation.LiveSession.StopRecording | pages/LiveConsultationPage.tsx:67-91 | the new state is `Stop` of the old one; the browser calls are `Releases` of the old state; playback stays gap-free |
| LiveConsultation.LiveSession.ToggleConsultation | pages/LiveConsultationPage.tsx:93-104 | the new state is `Toggle` of the old one, and playback stays gap-free |
| LiveConsultation.LiveSession.OnMicrophoneGranted | pages/LiveConsultationPage.tsx:106-116 | the new state is `MicrophoneGranted` of the old one, and playback stays gap-free |
| LiveConsultation.LiveSession.OnMicrophoneDenied | pages/LiveConsultationPage.tsx:194-198 | the new state is `MicrophoneDenied` of the old one, and playback stays gap-free |
| LiveConsultation.LiveSession.OnOpen | pages/LiveConsultationPage.tsx:119-148 | the new state is `Opened` of the old one, and playback stays gap-free |
| LiveConsultation.LiveSession.OnError | pages/LiveConsultationPage.tsx:175-179 | the new state is `Errored` of the old one, and playback stays gap-free |
| LiveConsultation.LiveSession.OnMessage | pages/LiveConsultationPage.tsx:149-174 | the new state is `Receive` of the old one, and playback stays gap-free |
| LiveConsultation.LiveSession.AccumulateTranscript | pages/LiveConsultationPage.tsx:150-160 | the new state is `Transcribe` of the old one, and playback stays gap-free |
| LiveConsultation.LiveSession.PlayAudio | pages/LiveConsultationPage.tsx:162-173 | the new state is `Schedule` of the old one, with the chunk's length coming from `decode` and `decodeAudioData`, and playback stays gap-free |
| LiveConsultation.LiveSession.OnAudioProcess | pages/LiveConsultationPage.tsx:129-141 | the new state is `Forward` of the old one, and playback stays gap-free |
| Payment.NoErrorsIffValid | components/PaymentForm.tsx:19-40 | no message shows exactly when all four checks pass, and each field's message shows exactly when its own check fails |
| Payment.GroupedNumberIsValid | components/PaymentForm.tsx:22 | sixteen digits typed in four groups separated by white space are accepted |
| Payment.NonDigitRejectsNumber | components/PaymentForm.tsx:22 | a character that is neither a digit nor white space anywhere in the number rejects it |
| Payment.BlankRemoved | components/PaymentForm.tsx:22 | removing white space from a blank string leaves nothing |
| Payment.ExpiryParts | components/PaymentForm.tsx:30 | every accepted expiry is a month 01–12, a '/' with optional white space around it, and a year 20–99, and it neither starts nor ends with white space |
| Payment.ExpiryOfParts | components/PaymentForm.tsx:30 | conversely, every month 1–12 and year 20–99 written with any white space around the '/' is accepted |
| Payment.ExampleExpiry | components/PaymentForm.tsx:31 | the example in the error text, "08 / 25", is accepted |
| Payment.NameIgnoresLeadingSpace | components/PaymentForm.tsx:26 | white space typed before a name does not count towards its three characters |
| Payment.NameCountsCodeUnits | components/PaymentForm.tsx:26 | the name's length is counted in UTF-16 code units, as `.length` does: two emoji are long enough, two letters are not |
| Payment.TotalAmount | components/PaymentForm.tsx:58-60 | a total exists exactly when there is a doctor, and it exceeds the doctor's fee by the 5000 RWF service fee |
| Payment.Update | components/PaymentForm.tsx:53-56 | an edit stores the value in the field it names |
| Payment.UpdateOnlyNamedField | components/PaymentForm.tsx:55 | an edit leaves every other field unchanged |
| Payment.PaymentForm.constructor | components/PaymentForm.tsx:13-15 | the form starts empty, with no messages and not processing |
| Payment.PaymentForm.Validate | components/PaymentForm.tsx:19-40 | the stored messages are those of the card's failing checks, and the result is true exactly when the card is valid, which is exactly when no message is stored |
| Payment.PaymentForm.HandleSubmit | components/PaymentForm.tsx:42-51 | validation runs, and processing starts exactly when the card is valid |
| Payment.PaymentForm.ProcessingFinished | components/PaymentForm.tsx:47-48 | the timer ends processing |
| Payment.PaymentForm.HandleChange | components/PaymentForm.tsx:53-56 | the card becomes `Update` of the old card |
| Search.SearchResults | components/SearchModal.tsx:23-50 | a blank query yields no results, and each result list is no longer than the list it was taken from |
| Search.ListedIffMatches | components/SearchModal.tsx:28-43 | for a query that is not blank, an entry is listed exactly when one of its two searched fields contains the query, ignoring case |
| Search.ResultsKeepOrder | components/SearchModal.tsx:30-43 | each result list keeps the order of its source list |
| Search.ToLowerIdempotent | components/SearchModal.tsx:28 | lower-casing twice is lower-casing once |
| Search.ToLowerKeepsBlank | components/SearchModal.tsx:24-28 | lower-casing does not change whether a string is blank |
| Search.QueryCaseIgnored | components/SearchModal.tsx:23-50 | searching for the lower-cased query gives the same results as the query itself |
| Search.QueryOnOpenChange | components/SearchModal.tsx:17-21 | closing the modal empties the query; while it is open the query is kept |
| Search.ReopenedModalIsEmpty | components/SearchModal.tsx:17-26 | a modal that was closed shows no results until something is typed |
| Search.NothingFoundIff | components/SearchModal.tsx:122-123 | "nothing found" shows exactly when the query is not blank and no doctor, appointment or prescription matches it |
| GeminiService.RoleOf | services/geminiService.ts:40 | a message is a user turn exactly when the patient sent it |
| GeminiService.History | services/geminiService.ts:39-42 | the history has one turn per message except the last, each in order with its role and text |
| GeminiService.DataUrlPayloadOf | services/geminiService.ts:10 | for a data URL with one comma, the payload is what follows the comma |
| GeminiService.DataUrlWithoutComma | services/geminiService.ts:10 | a URL without a comma gives an `undefined` payload |
| GeminiService.FilePart | services/geminiService.ts:7-19 | the file part is inline data carrying the file's MIME type |
| GeminiService.UserParts | services/geminiService.ts:44-48 | the text part comes last; a file part, when there is a file, comes first; nothing else |
| GeminiService.ContentsShape | services/geminiService.ts:51 | the request holds every message but the last, in order, followed by exactly one user turn |
| GeminiService.SendSymptomDetails | services/geminiService.ts:21-66 | the answer is the model's text, or the fixed apology when the call failed |
| GeminiService.ProfileListIsJoinOrNoneKnown | services/geminiService.ts:88-89 | a profile list shows its items joined by ", ", and "Nta zizwi" when it is empty or holds only the empty string |
| GeminiService.AIHealthAdvice | services/geminiService.ts:68-118 | without a profile the call fails and answers the warning text; with one, the answer is the model's text, or the warning text when the call failed |
| GeminiService.TranscriptLine | services/geminiService.ts:126 | a line is "Umurwayi: " for the patient or "Muganga: " for the doctor, followed by the message's text unchanged |
| GeminiService.Transcript | services/geminiService.ts:124-127 | the transcript is empty exactly when the chat holds no patient or doctor message |
| GeminiService.TranscriptSkipsSystem | services/geminiService.ts:124-127 | a system message does not change the transcript |
| GeminiService.TranscriptAddsLine | services/geminiService.ts:124-127 | any other message adds its own line at the end, after a newline unless it is the first line |
| GeminiService.ConsultationSummary | services/geminiService.ts:120-152 | the summary is the model's text, or the fixed text when the call failed |
| SymptomChecker.ParseReply | pages/SymptomCheckerPage.tsx:94-97 | a reply is split exactly when it contains the summary marker |
| SymptomChecker.ParseReplyParts | pages/SymptomCheckerPage.tsx:94-97 | the explanation is the trimmed text before the first marker, and the summary is the trimmed text between the first marker and the next one, or the end |
| SymptomChecker.ReplyMessage | pages/SymptomCheckerPage.tsx:94-126 | the error text as a system message when the request threw; otherwise a doctor message holding the trimmed text before the first marker, or the whole reply when it has no marker |
| SymptomChecker.SummaryOf | pages/SymptomCheckerPage.tsx:94-107 | a summary is handed on exactly when the reply contains the marker, and it is the trimmed text between the first marker and the next one, or the end |
| SymptomChecker.ReplyMessageHidesMarker | pages/SymptomCheckerPage.tsx:94-116 | the marker never appears in the chat |
| SymptomChecker.SymptomCheckerPage.constructor | pages/SymptomCheckerPage.tsx:43-69 | after mounting, the chat exists and holds only the greeting |
| SymptomChecker.SymptomCheckerPage.BeginSend | pages/SymptomCheckerPage.tsx:79-88 | the untrimmed input is appended as the patient's message, the input is cleared and loading starts |
| SymptomChecker.SymptomCheckerPage.FinishSend | pages/SymptomCheckerPage.tsx:94-129 | exactly one reply message is appended, loading ends, and the summary is the reply's, if any |
| SymptomChecker.SymptomCheckerPage.HandleSendMessage | pages/SymptomCheckerPage.tsx:75-130 | a blank input, a pending reply or a missing chat changes nothing; otherwise the patient's message and then the reply message are appended |
| ChatWindow.RequestMissesPreviousMessage | components/ChatWindow.tsx:42 | the request is built from the list before the new message, minus its last element, so the message just before the new one is not sent |
| ChatWindow.ChatWindow.constructor | components/ChatWindow.tsx:15-18 | the chat starts with the given messages and an empty input |
| ChatWindow.ChatWindow.BeginSend | components/ChatWindow.tsx:29-42 | the list with the patient's untrimmed message is shown and kept, the input is cleared, and the request is built from the previous list |
| ChatWindow.ChatWindow.FinishSend | components/ChatWindow.tsx:43-61 | the kept list plus the doctor's message is shown, and loading ends |
| ChatWindow.ChatWindow.HandleSendMessage | components/ChatWindow.tsx:25-62 | a blank input, a pending reply or a missing doctor changes nothing; otherwise the patient's message and the doctor's answer are appended |
| ChatWindow.ChatWindow.EndConsultation | components/ChatWindow.tsx:76 | ending hands over the list as it is |
| AIChat.AIChatPage.constructor | pages/AIChatPage.tsx:45-54 | the chat starts with the system greeting alone |
| AIChat.AIChatPage.BeginSend | pages/AIChatPage.tsx:65-75 | the patient's untrimmed message is shown and kept, and the input is cleared |
| AIChat.AIChatPage.FinishSend | pages/AIChatPage.tsx:79-97 | the kept list plus the answer, shown as the doctor's, and loading ends |
| AIChat.AIChatPage.HandleSendMessage | pages/AIChatPage.tsx:61-98 | a blank input or a pending reply changes nothing; otherwise the patient's message and then the warning text are appended, since the advice is asked for without a profile |
| App.AttachmentOf | App.tsx:67 | the first message has an attachment exactly when a file was given; it is an image exactly when the MIME type starts with "image/", and a video otherwise |
| App.PaymentSuccess | App.tsx:53-72 | without a doctor or symptom details, a payment report changes nothing |
| App.AddAppointment | App.tsx:86-89 | the appointment is appended as upcoming whatever its status, the others stay, and the appointments page opens; no other field changes |
| App.AddMessage | App.tsx:95-102 | every conversation with the id gets the message at the end of its list, and the others are unchanged |
| App.AddMessageUnknownId | App.tsx:95-102 | an unknown conversation id changes nothing |
| App.AddMessageKeepsRest | App.tsx:95-102 | a send keeps every conversation's id, doctor and unread count, and adds exactly one message to each conversation with the id |
| App.Rendered | App.tsx:104-149 | every listed page draws itself, and any other name draws the dashboard |
| App.ConsultationFlow | App.tsx:43-72 | choosing a doctor, submitting the symptoms and paying opens the chat with the opening system line and the patient's text |
| App.PaymentAfterRestartIgnored | App.tsx:53-84 | after a new consultation starts, a payment report changes nothing |
| App.InitialChatShape | App.tsx:55-69 | the chat opens with exactly two messages: the system line, then the patient's untouched text with its attachment |
| App.App.constructor | App.tsx:29-36 | the app starts on the dashboard with the seed profile and lists, and nothing selected |
| App.App.HandleNavigate | App.tsx:39-41 | the new state is `Navigate` of the old one |
| App.App.HandleSelectDoctor | App.tsx:43-46 | the new state is `SelectDoctor` of the old one |
| App.App.HandleSymptomSubmit | App.tsx:48-51 | the new state is `SubmitSymptoms` of the old one |
| App.App.HandlePaymentSuccess | App.tsx:53-72 | the new state is `PaymentSuccess` of the old one |
| App.App.HandleEndConsultation | App.tsx:74-77 | the new state is `EndConsultation` of the old one |
| App.App.HandleStartNewConsultation | App.tsx:79-84 | the new state is `StartNewConsultation` of the old one |
| App.App.HandleScheduleAppointment | App.tsx:86-89 | the new state is `AddAppointment` of the old one |
| App.App.HandleUpdateProfile | App.tsx:91-93 | the new state is `UpdateProfile` of the old one |
| App.App.HandleSendMessage | App.tsx:95-102 | the new state is `SendMessage` of the old one |
| App.App.HandleSelectConversation | App.tsx:132 | the new state is `SelectConversation` of the old one |
| Notifications.MarkAsRead | pages/NotificationsPage.tsx:17-21 | every notification with the id is read afterwards, and the others are unchanged |
| Notifications.MarkAllAsRead | pages/NotificationsPage.tsx:23-25 | every notification is read afterwards, and nothing else changes |
| Notifications.MarkAsReadIdempotent | pages/NotificationsPage.tsx:17-21 | marking a notification read twice is marking it once |
| Notifications.MarkAllLeavesNoneUnread | pages/NotificationsPage.tsx:23-27 | after "mark all" the unread count is zero |
| Notifications.MarkAsReadLowersCount | pages/NotificationsPage.tsx:17-27 | marking one notification read never raises the count, and lowers it when a notification with that id was unread |
| Notifications.ShowsMarkAllIff | pages/NotificationsPage.tsx:27-39 | "mark all" shows exactly when some notification is unread |
| Profile.OnTagKey | pages/ProfilePage.tsx:39-46 | Enter with a value that is not blank appends the trimmed value; any other key or a blank value changes nothing |
| Profile.AddedTagIsTrimmed | pages/ProfilePage.tsx:42 | an added tag is not empty and has no white space at either end |
| Profile.RemoveTag | pages/ProfilePage.tsx:48-50 | removal keeps exactly the other tags, in order |
| Profile.RemoveTagCounts | pages/ProfilePage.tsx:49 | removal takes out every copy of the tag and keeps every other tag as many times as it was there |
| Profile.AddThenRemove | pages/ProfilePage.tsx:39-50 | adding a tag and then removing it leaves no copy of it |
| Profile.SetText | pages/ProfilePage.tsx:93-95 | a text edit sets that field; every other field of the profile, the other text fields, the tag lists, the nested records, the picture, height, weight and blood type, is unchanged |
| Profile.SetTags | pages/ProfilePage.tsx:93-95 | a tag-list edit sets that list; every other field of the profile, the other lists, the text fields, the nested records, the picture, height, weight and blood type, is unchanged |
| Profile.SetNested | pages/ProfilePage.tsx:96-104 | a nested edit changes that child only, and the rest of the profile stays as it was |
| Profile.SetNestedBack | pages/ProfilePage.tsx:96-104 | editing a nested field back to its old value restores the profile |
| Profile.Cancel | pages/ProfilePage.tsx:88-91 | cancelling leaves edit mode and restores the given profile |
| Profile.Save | pages/ProfilePage.tsx:83-86 | saving hands the draft to the app and leaves edit mode |
| Profile.CancelledEditsAreLost | pages/ProfilePage.tsx:83-95 | an edit that is cancelled is never saved |
| Schedule.Offered | pages/ScheduleAppointmentPage.tsx:40 | step 1 offers exactly the available doctors, in order |
| Schedule.NoFlagNoOffer | pages/ScheduleAppointmentPage.tsx:40 | with no doctor marked available, step 1 offers nobody |
| Schedule.NewAppointment | pages/ScheduleAppointmentPage.tsx:19-26 | the appointment carries the doctor's name and specialty, is a video call and is upcoming |
| Schedule.ScheduleWizard.constructor | pages/ScheduleAppointmentPage.tsx:12-15 | the wizard starts at step 1 with nothing chosen |
| Schedule.ScheduleWizard.PickDoctor | pages/ScheduleAppointmentPage.tsx:41 | picking an offered doctor selects them and moves to step 2 |
| Schedule.ScheduleWizard.Back | pages/ScheduleAppointmentPage.tsx:57 | "back" returns to step 1 |
| Schedule.ScheduleWizard.HandleSchedule | pages/ScheduleAppointmentPage.tsx:17-28 | an appointment is handed on exactly when a doctor, a date and a time are chosen, and it is `NewAppointment` of them |
| SymptomForm.ViewFor | pages/SymptomFormPage.tsx:16 | without a doctor the page shows only the fallback text |
| SymptomForm.SymptomFormPage.constructor | pages/SymptomFormPage.tsx:11-13 | the form starts empty, with no file and no preview |
| SymptomForm.SymptomFormPage.SetSymptoms | pages/SymptomFormPage.tsx:56 | typing stores the description |
| SymptomForm.SymptomFormPage.HandleFileChange | pages/SymptomFormPage.tsx:18-24 | the first picked file and its preview are stored; an empty pick changes nothing |
| SymptomForm.SymptomFormPage.RemoveFile | pages/SymptomFormPage.tsx:26-31 | the file and its preview are cleared, and the preview URL, if any, is the one released |
| SymptomForm.SymptomFormPage.HandleSubmit | pages/SymptomFormPage.tsx:33-37 | nothing is submitted exactly when the description is blank; otherwise the untrimmed text and the picked file are |
| HealthReport.Classify | pages/HealthReportPage.tsx:34-49 | the first rule that applies wins: heading, bold with every `**` removed, list item, line break for a blank line, paragraph |
| Text.MapLines | pages/HealthReportPage.tsx:35 | `split('\n').map(f)` gives one value per line, in order, as many as newlines plus one |
| HealthReport.Render | pages/HealthReportPage.tsx:35 | one block per line, in order: as many blocks as newlines plus one |
| HealthReport.BoldHasNoStars | pages/HealthReportPage.tsx:39-40 | a bold line shows no pair of stars |
| HealthReport.ReportText | pages/HealthReportPage.tsx:21-26 | the page shows the report, or the fixed error text when the request failed |
| ConsultationSummary.Classify | components/ConsultationSummary.tsx:53-59 | a line is a title exactly when it matches `/^\*\*.*\*\*$/`, is skipped exactly when otherwise blank, and is shown as written otherwise; a title shows the line with every `**` removed |
| ConsultationSummary.PlainTitle | components/ConsultationSummary.tsx:54-56 | `**T**` shows the title T when T has no stars and no line terminators |
| ConsultationSummary.TitleStarsRemoved | components/ConsultationSummary.tsx:56 | removing every `**` from `**T**` leaves T when T has no stars |
| ConsultationSummary.TitleHasNoStars | components/ConsultationSummary.tsx:56 | a title shows no two stars side by side, however many the line held |
| ConsultationSummary.Render | components/ConsultationSummary.tsx:53 | one block per line, in order: as many blocks as newlines plus one |
| ConsultationSummary.CardFor | components/ConsultationSummary.tsx:20-60 | nothing is shown exactly when there is no doctor; otherwise a spinner until the summary settles, and then its blocks |
| PrescriptionAnalysis.ActivePrescriptions | pages/PrescriptionAnalysisPage.tsx:21 | exactly the active prescriptions, in order |
| PrescriptionAnalysis.Analysis | pages/PrescriptionAnalysisPage.tsx:17-36 | the service is asked exactly when some prescription is active; otherwise the page shows the "nothing to analyse" text; a failed request shows the error text |
| PrescriptionAnalysis.PlainTitle | pages/PrescriptionAnalysisPage.tsx:41 | a `### ` title without stars or underscores is shown as written |
| PrescriptionAnalysis.MarkerLineIsCallout | pages/PrescriptionAnalysisPage.tsx:41-42 | the plain marker line opens the warning callout |
| PrescriptionAnalysis.MarkerHasSecondPart | pages/PrescriptionAnalysisPage.tsx:50 | a text containing the marker has a second piece when split at it |
| PrescriptionAnalysis.Classify | pages/PrescriptionAnalysisPage.tsx:39-66 | the rules in order: callout with the text after its line, a heading dropped inside the warning, heading, sub-heading, bold, item, dropped for blank lines or lines holding the marker, paragraph |
| PrescriptionAnalysis.Render | pages/PrescriptionAnalysisPage.tsx:39 | one block per line, in order: as many blocks as newlines plus one |
| PrescriptionAnalysis.CalloutHasBody | pages/PrescriptionAnalysisPage.tsx:46 | a callout built from a line of the text always has a body |
| PrescriptionAnalysis.ParagraphIsPlain | pages/PrescriptionAnalysisPage.tsx:63-66 | a paragraph is never blank and never shows the marker |
| Appointments.UpcomingPastOrder | pages/AppointmentsPage.tsx:6-7 | the upcoming list holds exactly the upcoming appointments and the past list all the others, each in seed order |
| Appointments.UpcomingPastPartition | pages/AppointmentsPage.tsx:6-7 | every seed appointment is in exactly one of the two lists |
| Appointments.SectionOf | pages/AppointmentsPage.tsx:19-64 | a section shows its placeholder exactly when its list is empty, and its entries otherwise |
| Appointments.BadgeIconOf | pages/AppointmentsPage.tsx:32-33 | the badge shows the video icon exactly for video calls |
| Appointments.ScheduledNotListed | pages/AppointmentsPage.tsx:6-7 | an appointment the app schedules joins the app's list but neither section of the page, which reads the seed list |
| Appointments.VideoAppointments | pages/VideoConsultationPage.tsx:10 | exactly the seed's video calls, in order |
| Appointments.EntryActionOf | pages/VideoConsultationPage.tsx:41-45 | a "join" button exactly for upcoming calls, and the ended label otherwise |

## Left out

- Network calls to the Gemini model are replaced by their reply, which is a parameter. So are the browser's object URLs, `FileReader` data URLs, `getUserMedia`, audio contexts and the audio clock.
- The prompt texts and system instructions sent to the model are not modelled. They do not affect what the pages do with the reply.
- Message ids and timestamps (`Date.now()`, `toISOString()`) are not modelled.
- Asynchronous interleaving is not modelled. Each handler runs to its `await`, and its continuation is a separate method. A second event arriving while a request is pending is not explored.
- Timers are not modelled: the 2-second payment delay and the summary hand-off in the triage chat.
- Scrolling, toasts, the video-call modal flag of App.tsx, icons and styling are not modelled.
- `generateHealthReport` and `analyzePrescriptions` are imported by the report and analysis pages but not defined in services/geminiService.ts. Their results are therefore the reply parameter of `HealthReport.ReportText` and `PrescriptionAnalysis.Analysis`.
- The static data (doctor list, seed appointments, notifications, profile) is not modelled. The functions take it as a parameter.
- The catch branches of ChatWindow.tsx and AIChatPage.tsx are not modelled. The services catch every error themselves, so those branches cannot run.
- Text.ToLower: only ASCII letters are lower-cased; Unicode case mapping is not modelled.
- LiveConsultation.DecodeAudioData: channel values are the raw 16-bit samples, not those samples divided by 32768 as floating point.
- LiveConsultation.DecodeAudioData: the frame count is ⌊n / numChannels⌋; the fractional JavaScript frame count is not modelled. The page always passes one channel.
- LiveConsultation.OnAudioProcess: the microphone frame arrives already scaled and truncated to integers. The floating-point product `x * 32768` is not modelled.
- LiveConsultation.Atob: only padded base 64 of the canonical length is accepted. `atob`'s forgiving extras (white space removal, missing padding) are not modelled.
- LiveConsultation.Schedule: time is counted in 24 kHz ticks, so a chunk lasts as many ticks as it has frames.
- Schedule.NewAppointment: the date is the typed date and time joined by "T". The conversion to an ISO instant in UTC is not modelled.
- SymptomForm.SymptomFormPage: the handlers require a doctor, because without one the page renders only the fallback text and no handler exists.
- The live consultation's output gain node and its set of sources are not modelled. Only the start time and length of each chunk are.
