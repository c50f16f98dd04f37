/** Records of the health app, as declared in types.ts.
    Identifiers and timestamps built from the clock (`Date.now`, ISO dates) are
    not part of these values: they carry no rule of the model. */
module Types {

  datatype Option<+T> = None | Some(value: T)

  /** Who wrote a chat message. */
  datatype Sender = User | Doctor | System

  datatype AttachmentKind = Image | Video | Audio | File

  datatype Attachment = Attachment(kind: AttachmentKind, url: string)

  datatype Message = Message(text: string, sender: Sender, attachment: Option<Attachment>)

  datatype Doctor = Doctor(
    name: string,
    specialty: string,
    bio: string,
    consultationFee: int,
    /** `undefined` in the shipped doctor list reads as false */
    available: bool)

  datatype AppointmentType = VideoCall | Chat

  datatype AppointmentStatus = Upcoming | Completed | Cancelled

  datatype Appointment = Appointment(
    doctorName: string,
    specialty: string,
    date: string,
    kind: AppointmentType,
    status: AppointmentStatus)

  datatype Conversation = Conversation(id: int, doctor: Doctor, messages: seq<Message>, unread: int)

  datatype PrescriptionStatus = Active | Inactive

  datatype Prescription = Prescription(
    medication: string,
    dosage: string,
    doctorName: string,
    status: PrescriptionStatus)

  datatype NotificationCategory = AppointmentNote | MessageNote | SystemNote | PrescriptionNote

  datatype Notification = Notification(id: int, title: string, message: string, read: bool, category: NotificationCategory)

  datatype EmergencyContact = EmergencyContact(name: string, phone: string)

  /** The two select boxes of the lifestyle section hold the option text. */
  datatype Lifestyle = Lifestyle(smokingStatus: string, alcoholConsumption: string)

  datatype UserProfile = UserProfile(
    fullName: string,
    email: string,
    phone: string,
    dob: string,
    location: string,
    profilePicture: string,
    height: Option<int>,
    weight: Option<int>,
    bloodType: Option<string>,
    allergies: seq<string>,
    chronicConditions: seq<string>,
    pastSurgeries: seq<string>,
    emergencyContact: EmergencyContact,
    lifestyle: Lifestyle)

  /** A file picked in the browser; only its MIME type matters to the model. */
  datatype UploadedFile = UploadedFile(name: string, mimeType: string)

  /** What the symptom form submits: the text and, maybe, a picked file. */
  datatype SymptomDetails = SymptomDetails(text: string, file: Option<UploadedFile>)

  /** The pages of types.ts, plus any other string handed to `onNavigate`
      (the search modal navigates to 'doctor-selection', which is not one of them). */
  datatype Page =
    | Dashboard | ConsultationStart | SymptomForm | Payment | ChatPage | Summary
    | Appointments | ScheduleAppointment | Messages | Prescriptions | Profile
    | Settings | Notifications | VideoConsultation | AiChat
    | Unlisted(name: string)
}
