/** The top-level state machine of App.tsx: the page shown, the consultation in
    progress (doctor, symptom details, chat history) and the lists the app keeps
    (appointments, conversations), with the handlers the pages call. */
module App {
  import opened Types
  import opened Text

  datatype AppState = AppState(
    page: Page,
    selectedDoctor: Option<Doctor>,
    symptomDetails: Option<SymptomDetails>,
    chatHistory: seq<Message>,
    userProfile: UserProfile,
    appointments: seq<Appointment>,
    conversations: seq<Conversation>,
    selectedConversationId: Option<int>)

  function Initial(profile: UserProfile, appointments: seq<Appointment>, conversations: seq<Conversation>): AppState {
    AppState(Dashboard, None, None, [], profile, appointments, conversations, None)
  }

  /** The attachment of the patient's first message; `objectUrl` stands for the
      browser's object URL of the file. */
  function AttachmentOf(file: Option<UploadedFile>, objectUrl: string): (a: Option<Attachment>)
    ensures a.Some? <==> file.Some?
    ensures a.Some? ==> (a.value.kind == Image <==> StartsWith(file.value.mimeType, "image/"))
    ensures a.Some? ==> a.value.kind in {Image, Video}
  {
    match file
    case None => None
    case Some(f) => Some(Attachment(if StartsWith(f.mimeType, "image/") then Image else Video, objectUrl))
  }

  /** The chat a paid consultation starts with: a system line naming the doctor,
      then the patient's symptom text. */
  function InitialChat(doctor: Doctor, details: SymptomDetails, objectUrl: string): seq<Message> {
    [Message("Ubujyanama bwatangiye na Dr. " + doctor.name, System, None),
     Message(details.text, User, AttachmentOf(details.file, objectUrl))]
  }

  function Navigate(s: AppState, page: Page): AppState {
    s.(page := page)
  }

  function SelectDoctor(s: AppState, doctor: Doctor): AppState {
    s.(selectedDoctor := Some(doctor), page := SymptomForm)
  }

  function SubmitSymptoms(s: AppState, details: SymptomDetails): AppState {
    s.(symptomDetails := Some(details), page := Payment)
  }

  /** `handlePaymentSuccess`: a no-op unless a doctor and symptom details are set. */
  function PaymentSuccess(s: AppState, objectUrl: string): (r: AppState)
    ensures s.selectedDoctor.None? || s.symptomDetails.None? ==> r == s
  {
    if s.selectedDoctor.None? || s.symptomDetails.None? then s
    else s.(chatHistory := InitialChat(s.selectedDoctor.value, s.symptomDetails.value, objectUrl), page := ChatPage)
  }

  function EndConsultation(s: AppState, finalHistory: seq<Message>): AppState {
    s.(chatHistory := finalHistory, page := Summary)
  }

  function StartNewConsultation(s: AppState): AppState {
    s.(selectedDoctor := None, symptomDetails := None, chatHistory := [], page := ConsultationStart)
  }

  /** `handleScheduleAppointment`: the appointment joins the end of the list as
      upcoming, whatever status it came with. */
  function AddAppointment(s: AppState, a: Appointment): (r: AppState)
    ensures |r.appointments| == |s.appointments| + 1
    ensures r.appointments[..|s.appointments|] == s.appointments
    ensures r.appointments[|s.appointments|] == a.(status := Upcoming)
    ensures r.page == Appointments
    ensures r.(appointments := s.appointments, page := s.page) == s
  {
    s.(appointments := s.appointments + [a.(status := Upcoming)], page := Appointments)
  }

  function UpdateProfile(s: AppState, profile: UserProfile): AppState {
    s.(userProfile := profile)
  }

  /** `handleSendMessage`'s map: every conversation with the id gets the message at
      the end of its list. */
  function AddMessage(conversations: seq<Conversation>, id: int, m: Message): (r: seq<Conversation>)
    ensures |r| == |conversations|
    ensures forall i :: 0 <= i < |r| ==>
      r[i] == if conversations[i].id == id then conversations[i].(messages := conversations[i].messages + [m]) else conversations[i]
  {
    if conversations == [] then []
    else
      var c := conversations[0];
      [if c.id == id then c.(messages := c.messages + [m]) else c] + AddMessage(conversations[1..], id, m)
  }

  /** An unknown id changes no conversation. */
  lemma {:induction false} AddMessageUnknownId(conversations: seq<Conversation>, id: int, m: Message)
    requires forall c :: c in conversations ==> c.id != id
    ensures AddMessage(conversations, id, m) == conversations
  {
    if conversations != [] {
      AddMessageUnknownId(conversations[1..], id, m);
    }
  }

  /** Sending keeps every conversation's id, doctor and unread count, and adds
      exactly one message to each conversation with the id. */
  lemma AddMessageKeepsRest(conversations: seq<Conversation>, id: int, m: Message, i: int)
    requires 0 <= i < |conversations|
    ensures var c, c' := conversations[i], AddMessage(conversations, id, m)[i];
      c'.id == c.id && c'.doctor == c.doctor && c'.unread == c.unread
      && |c'.messages| == |c.messages| + (if c.id == id then 1 else 0)
      && c'.messages[..|c.messages|] == c.messages
  {
  }

  function SendMessage(s: AppState, id: int, m: Message): AppState {
    s.(conversations := AddMessage(s.conversations, id, m))
  }

  function SelectConversation(s: AppState, id: Option<int>): AppState {
    s.(selectedConversationId := id)
  }

  /** The page `renderPage` draws: its own, or the dashboard for any other name. */
  function Rendered(page: Page): (r: Page)
    ensures !r.Unlisted?
    ensures page.Unlisted? ==> r == Dashboard
    ensures !page.Unlisted? ==> r == page
  {
    if page.Unlisted? then Dashboard else page
  }

  /** Choosing a doctor, submitting the symptoms and paying opens the chat with
      the doctor's opening line and the patient's text. */
  lemma ConsultationFlow(s: AppState, doctor: Doctor, details: SymptomDetails, objectUrl: string)
    ensures var r := PaymentSuccess(SubmitSymptoms(SelectDoctor(s, doctor), details), objectUrl);
      r.page == ChatPage
      && r.chatHistory == InitialChat(doctor, details, objectUrl)
      && r.selectedDoctor == Some(doctor) && r.symptomDetails == Some(details)
  {
  }

  /** After a new consultation is started nothing is set, so a payment report
      before a doctor and symptoms are chosen changes nothing. */
  lemma PaymentAfterRestartIgnored(s: AppState, objectUrl: string)
    ensures PaymentSuccess(StartNewConsultation(s), objectUrl) == StartNewConsultation(s)
  {
  }

  /** The chat opens with exactly two messages: the system line, then the
      patient's untouched text; the file, if any, is attached as an image or a
      video by its MIME type. */
  lemma InitialChatShape(doctor: Doctor, details: SymptomDetails, objectUrl: string)
    ensures var h := InitialChat(doctor, details, objectUrl);
      |h| == 2 && h[0].sender == System && h[1].sender == User && h[1].text == details.text
      && (h[1].attachment.Some? <==> details.file.Some?)
      && (details.file.Some? ==> (h[1].attachment.value.kind == Image <==> StartsWith(details.file.value.mimeType, "image/")))
  {
  }

  class App {
    var page: Page
    var selectedDoctor: Option<Doctor>
    var symptomDetails: Option<SymptomDetails>
    var chatHistory: seq<Message>
    var userProfile: UserProfile
    var appointments: seq<Appointment>
    var conversations: seq<Conversation>
    var selectedConversationId: Option<int>

    function State(): AppState
      reads this
    {
      AppState(page, selectedDoctor, symptomDetails, chatHistory, userProfile, appointments, conversations, selectedConversationId)
    }

    /** The app starts on the dashboard with the seed profile and lists. */
    constructor(profile: UserProfile, appointments: seq<Appointment>, conversations: seq<Conversation>)
      ensures State() == Initial(profile, appointments, conversations)
    {
      page, selectedDoctor, symptomDetails, chatHistory := Dashboard, None, None, [];
      userProfile, this.appointments, this.conversations, selectedConversationId := profile, appointments, conversations, None;
    }

    method HandleNavigate(newPage: Page)
      modifies this`page
      ensures State() == Navigate(old(State()), newPage)
    {
      page := newPage;
    }

    method HandleSelectDoctor(doctor: Doctor)
      modifies this`selectedDoctor, this`page
      ensures State() == SelectDoctor(old(State()), doctor)
    {
      selectedDoctor := Some(doctor);
      page := SymptomForm;
    }

    method HandleSymptomSubmit(details: SymptomDetails)
      modifies this`symptomDetails, this`page
      ensures State() == SubmitSymptoms(old(State()), details)
    {
      symptomDetails := Some(details);
      page := Payment;
    }

    method HandlePaymentSuccess(objectUrl: string)
      modifies this`chatHistory, this`page
      ensures State() == PaymentSuccess(old(State()), objectUrl)
    {
      if selectedDoctor.None? || symptomDetails.None? {
        return;
      }
      chatHistory := InitialChat(selectedDoctor.value, symptomDetails.value, objectUrl);
      page := ChatPage;
    }

    method HandleEndConsultation(finalHistory: seq<Message>)
      modifies this`chatHistory, this`page
      ensures State() == EndConsultation(old(State()), finalHistory)
    {
      chatHistory := finalHistory;
      page := Summary;
    }

    method HandleStartNewConsultation()
      modifies this`selectedDoctor, this`symptomDetails, this`chatHistory, this`page
      ensures State() == StartNewConsultation(old(State()))
    {
      selectedDoctor, symptomDetails := None, None;
      chatHistory, page := [], ConsultationStart;
    }

    method HandleScheduleAppointment(a: Appointment)
      modifies this`appointments, this`page
      ensures State() == AddAppointment(old(State()), a)
    {
      appointments := appointments + [a.(status := Upcoming)];
      page := Appointments;
    }

    method HandleUpdateProfile(profile: UserProfile)
      modifies this`userProfile
      ensures State() == UpdateProfile(old(State()), profile)
    {
      userProfile := profile;
    }

    method HandleSendMessage(id: int, m: Message)
      modifies this`conversations
      ensures State() == SendMessage(old(State()), id, m)
    {
      conversations := AddMessage(conversations, id, m);
    }

    method HandleSelectConversation(id: Option<int>)
      modifies this`selectedConversationId
      ensures State() == SelectConversation(old(State()), id)
    {
      selectedConversationId := id;
    }
  }
}
