/** The appointment lists of AppointmentsPage.tsx (upcoming and past) and
    VideoConsultationPage.tsx (video calls). Both pages read the seed list
    (`MOCK_APPOINTMENTS`) and never the list the app keeps. */
module Appointments {
  import opened Types
  import opened Seqs
  import App

  predicate IsUpcoming(a: Appointment) {
    a.status == Upcoming
  }

  predicate IsPast(a: Appointment) {
    !IsUpcoming(a)
  }

  function UpcomingOf(appointments: seq<Appointment>): seq<Appointment> {
    Filter(appointments, IsUpcoming)
  }

  function PastOf(appointments: seq<Appointment>): seq<Appointment> {
    Filter(appointments, IsPast)
  }

  /** Upcoming holds the upcoming appointments and past all others, each in the
      order of the source. */
  lemma UpcomingPastOrder(appointments: seq<Appointment>)
    ensures forall a :: a in UpcomingOf(appointments) <==> a in appointments && a.status == Upcoming
    ensures forall a :: a in PastOf(appointments) <==> a in appointments && a.status != Upcoming
    ensures IsSubsequence(UpcomingOf(appointments), appointments) && IsSubsequence(PastOf(appointments), appointments)
  {
    FilterIsSubsequence(appointments, IsUpcoming);
    FilterIsSubsequence(appointments, IsPast);
  }

  /** Every appointment lands in exactly one of the two lists. */
  lemma UpcomingPastPartition(appointments: seq<Appointment>)
    ensures multiset(UpcomingOf(appointments)) + multiset(PastOf(appointments)) == multiset(appointments)
    ensures |UpcomingOf(appointments)| + |PastOf(appointments)| == |appointments|
  {
    FilterPartition(appointments, IsUpcoming, IsPast);
  }

  /** A list section: its placeholder when empty, else its entries. */
  datatype Section = Placeholder(text: string) | Entries(items: seq<Appointment>)

  function SectionOf(items: seq<Appointment>, placeholder: string): (s: Section)
    ensures s.Placeholder? <==> items == []
    ensures s.Entries? ==> s.items == items
  {
    if |items| > 0 then Entries(items) else Placeholder(placeholder)
  }

  const NoUpcomingText := "Nta gahunda nshya ziteganyijwe."
  const NoPastText := "Nta gahunda zabaye zirahari."
  const NoVideoText := "Nta gahunda za video ziteganyijwe."

  /** The appointments page: two sections from the seed list. */
  function AppointmentsPage(seed: seq<Appointment>): (Section, Section) {
    (SectionOf(UpcomingOf(seed), NoUpcomingText), SectionOf(PastOf(seed), NoPastText))
  }

  /** The icon of an upcoming entry's badge. */
  datatype BadgeIcon = VideoIcon | MessageIcon

  function BadgeIconOf(a: Appointment): (i: BadgeIcon)
    ensures i == VideoIcon <==> a.kind == VideoCall
  {
    if a.kind == VideoCall then VideoIcon else MessageIcon
  }

  /** An appointment the app schedules is in the app's list but in neither section
      of the page, unless the seed already held it. */
  lemma ScheduledNotListed(s: App.AppState, a: Appointment, seed: seq<Appointment>)
    requires a.(status := Upcoming) !in seed
    ensures a.(status := Upcoming) in App.AddAppointment(s, a).appointments
    ensures a.(status := Upcoming) !in UpcomingOf(seed) && a.(status := Upcoming) !in PastOf(seed)
  {
    var after := App.AddAppointment(s, a).appointments;
    assert after[|s.appointments|] == a.(status := Upcoming);
  }

  predicate IsVideo(a: Appointment) {
    a.kind == VideoCall
  }

  /** The video page's list: the seed's video calls, in order. */
  function VideoAppointments(seed: seq<Appointment>): (r: seq<Appointment>)
    ensures forall a :: a in r <==> a in seed && a.kind == VideoCall
    ensures IsSubsequence(r, seed)
  {
    FilterIsSubsequence(seed, IsVideo);
    Filter(seed, IsVideo)
  }

  /** What an entry of the video page offers. */
  datatype EntryAction = JoinButton | EndedLabel

  function EntryActionOf(a: Appointment): (e: EntryAction)
    ensures e == JoinButton <==> a.status == Upcoming
  {
    if a.status == Upcoming then JoinButton else EndedLabel
  }

  function VideoPage(seed: seq<Appointment>): Section {
    SectionOf(VideoAppointments(seed), NoVideoText)
  }
}
