/** The two-step scheduling wizard of ScheduleAppointmentPage.tsx: step 1 offers
    the available doctors, picking one moves to step 2, where a date and a time
    are chosen and the appointment is confirmed. */
module Schedule {
  import opened Types
  import opened Seqs

  /** Step 1 lists only the doctors whose `available` flag is set. */
  function Offered(doctors: seq<Doctor>): (r: seq<Doctor>)
    ensures forall d :: d in r <==> d in doctors && d.available
    ensures IsSubsequence(r, doctors)
  {
    FilterIsSubsequence(doctors, (d: Doctor) => d.available);
    Filter(doctors, (d: Doctor) => d.available)
  }

  /** None of the shipped doctors sets the flag, so step 1 offers nobody. */
  lemma NoFlagNoOffer(doctors: seq<Doctor>)
    requires forall d :: d in doctors ==> !d.available
    ensures Offered(doctors) == []
  {
  }

  /** The confirm button is enabled once both a date and a time are chosen. */
  predicate ConfirmEnabled(date: string, time: string) {
    date != "" && time != ""
  }

  /** The appointment `handleSchedule` builds; its date is the local date and time
      as typed (the conversion to an ISO instant is not modelled). */
  function NewAppointment(doctor: Doctor, date: string, time: string): (a: Appointment)
    ensures a.doctorName == doctor.name && a.specialty == doctor.specialty
    ensures a.kind == VideoCall && a.status == Upcoming
  {
    Appointment(doctor.name, doctor.specialty, date + "T" + time, VideoCall, Upcoming)
  }

  class ScheduleWizard {
    var step: int
    var selectedDoctor: Option<Doctor>
    var selectedDate: string
    var selectedTime: string

    constructor()
      ensures step == 1 && selectedDoctor.None? && selectedDate == "" && selectedTime == ""
    {
      step, selectedDoctor, selectedDate, selectedTime := 1, None, "", "";
    }

    /** A click on an offered doctor in step 1. */
    method PickDoctor(doctors: seq<Doctor>, d: Doctor)
      requires step == 1 && d in Offered(doctors)
      modifies this`selectedDoctor, this`step
      ensures selectedDoctor == Some(d) && step == 2
    {
      selectedDoctor := Some(d);
      step := 2;
    }

    /** "Back": returns to step 1; the choices are kept. */
    method Back()
      modifies this`step
      ensures step == 1
    {
      step := 1;
    }

    method SetDate(date: string)
      modifies this`selectedDate
      ensures selectedDate == date
    {
      selectedDate := date;
    }

    method SetTime(time: string)
      modifies this`selectedTime
      ensures selectedTime == time
    {
      selectedTime := time;
    }

    /** `handleSchedule`: the appointment handed to the app, or nothing unless a
        doctor, a date and a time are all chosen. */
    method HandleSchedule() returns (scheduled: Option<Appointment>)
      ensures scheduled.Some? <==> selectedDoctor.Some? && ConfirmEnabled(selectedDate, selectedTime)
      ensures scheduled.Some? ==> scheduled.value == NewAppointment(selectedDoctor.value, selectedDate, selectedTime)
    {
      if selectedDoctor.None? || selectedDate == "" || selectedTime == "" {
        return None;
      }
      scheduled := Some(NewAppointment(selectedDoctor.value, selectedDate, selectedTime));
    }
  }
}
