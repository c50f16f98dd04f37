/** The search modal of SearchModal.tsx: a case-insensitive substring filter
    over the doctors, the appointments and the prescriptions, which yields
    nothing for a blank query, and the query reset when the modal closes. */
module Search {
  import opened Types
  import opened Text
  import opened Seqs

  /** `field.toLowerCase().includes(query.toLowerCase())`. */
  predicate Matches(field: string, query: string) {
    Contains(ToLower(field), ToLower(query))
  }

  predicate DoctorMatches(d: Doctor, query: string) {
    Matches(d.name, query) || Matches(d.specialty, query)
  }

  predicate AppointmentMatches(a: Appointment, query: string) {
    Matches(a.doctorName, query) || Matches(a.specialty, query)
  }

  predicate PrescriptionMatches(p: Prescription, query: string) {
    Matches(p.medication, query) || Matches(p.doctorName, query)
  }

  datatype Results = Results(doctors: seq<Doctor>, appointments: seq<Appointment>, prescriptions: seq<Prescription>)

  const NoResults := Results([], [], [])

  /** `searchResults`; `doctors` is the shipped doctor list. The query is
      trimmed only to test for blankness: the untrimmed query is searched. */
  function SearchResults(query: string, doctors: seq<Doctor>, appointments: seq<Appointment>, prescriptions: seq<Prescription>): (r: Results)
    ensures IsBlank(query) ==> r == NoResults
    ensures |r.doctors| <= |doctors| && |r.appointments| <= |appointments| && |r.prescriptions| <= |prescriptions|
  {
    if Trim(query) == [] then NoResults
    else Results(
      Filter(doctors, d => DoctorMatches(d, query)),
      Filter(appointments, a => AppointmentMatches(a, query)),
      Filter(prescriptions, p => PrescriptionMatches(p, query)))
  }

  /** For a query that is not blank, an entry is listed exactly when one of its two
      searched fields contains the query, ignoring case. */
  lemma ListedIffMatches(query: string, doctors: seq<Doctor>, appointments: seq<Appointment>, prescriptions: seq<Prescription>)
    requires !IsBlank(query)
    ensures var r := SearchResults(query, doctors, appointments, prescriptions);
      (forall d :: d in r.doctors <==> d in doctors && (Matches(d.name, query) || Matches(d.specialty, query)))
      && (forall a :: a in r.appointments <==> a in appointments && (Matches(a.doctorName, query) || Matches(a.specialty, query)))
      && (forall p :: p in r.prescriptions <==> p in prescriptions && (Matches(p.medication, query) || Matches(p.doctorName, query)))
  {
  }

  /** Every result list keeps the order of the list it was taken from. */
  lemma ResultsKeepOrder(query: string, doctors: seq<Doctor>, appointments: seq<Appointment>, prescriptions: seq<Prescription>)
    ensures var r := SearchResults(query, doctors, appointments, prescriptions);
      IsSubsequence(r.doctors, doctors)
      && IsSubsequence(r.appointments, appointments)
      && IsSubsequence(r.prescriptions, prescriptions)
  {
    if !IsBlank(query) {
      FilterIsSubsequence(doctors, d => DoctorMatches(d, query));
      FilterIsSubsequence(appointments, a => AppointmentMatches(a, query));
      FilterIsSubsequence(prescriptions, p => PrescriptionMatches(p, query));
    }
  }

  lemma LowerCharIdempotent(c: char)
    ensures LowerChar(LowerChar(c)) == LowerChar(c)
    ensures IsSpace(LowerChar(c)) <==> IsSpace(c)
  {
  }

  /** Lower-casing twice is lower-casing once. */
  lemma ToLowerIdempotent(s: string)
    ensures ToLower(ToLower(s)) == ToLower(s)
  {
    forall i | 0 <= i < |s|
      ensures ToLower(ToLower(s))[i] == ToLower(s)[i]
    {
      LowerCharIdempotent(s[i]);
    }
  }

  lemma ToLowerKeepsBlank(s: string)
    ensures IsBlank(ToLower(s)) <==> IsBlank(s)
  {
    forall i | 0 <= i < |s|
      ensures IsSpace(ToLower(s)[i]) <==> IsSpace(s[i])
    {
      LowerCharIdempotent(s[i]);
    }
  }

  /** The search ignores the case of the query: typing it in capitals gives the
      same results. */
  lemma QueryCaseIgnored(query: string, doctors: seq<Doctor>, appointments: seq<Appointment>, prescriptions: seq<Prescription>)
    ensures SearchResults(ToLower(query), doctors, appointments, prescriptions)
         == SearchResults(query, doctors, appointments, prescriptions)
  {
    ToLowerIdempotent(query);
    ToLowerKeepsBlank(query);
    var lq := ToLower(query);
    assert forall f :: Matches(f, lq) <==> Matches(f, query);
    FilterSame(doctors, d => DoctorMatches(d, lq), d => DoctorMatches(d, query));
    FilterSame(appointments, a => AppointmentMatches(a, lq), a => AppointmentMatches(a, query));
    FilterSame(prescriptions, p => PrescriptionMatches(p, lq), p => PrescriptionMatches(p, query));
  }

  /** The effect on `isOpen`: the query survives while the modal is open and is
      emptied when it closes. */
  function QueryOnOpenChange(isOpen: bool, query: string): (q: string)
    ensures !isOpen ==> q == ""
    ensures isOpen ==> q == query
  {
    if isOpen then query else ""
  }

  /** A reopened modal shows no results until something is typed. */
  lemma ReopenedModalIsEmpty(query: string, doctors: seq<Doctor>, appointments: seq<Appointment>, prescriptions: seq<Prescription>)
    ensures SearchResults(QueryOnOpenChange(false, query), doctors, appointments, prescriptions) == NoResults
  {
  }

  /** What the body of the modal shows. */
  datatype Body = StartTyping | Listing(results: Results) | NothingFound(query: string)

  function ShownBody(query: string, r: Results): Body {
    if Trim(query) == [] then StartTyping
    else if r.doctors == [] && r.appointments == [] && r.prescriptions == [] then NothingFound(query)
    else Listing(r)
  }

  /** The "nothing found" text shows exactly when the query is not blank and no
      doctor, appointment or prescription matches it. */
  lemma NothingFoundIff(query: string, doctors: seq<Doctor>, appointments: seq<Appointment>, prescriptions: seq<Prescription>)
    ensures ShownBody(query, SearchResults(query, doctors, appointments, prescriptions)).NothingFound?
      <==> !IsBlank(query)
           && (forall d :: d in doctors ==> !DoctorMatches(d, query))
           && (forall a :: a in appointments ==> !AppointmentMatches(a, query))
           && (forall p :: p in prescriptions ==> !PrescriptionMatches(p, query))
  {
    var r := SearchResults(query, doctors, appointments, prescriptions);
    if !IsBlank(query) {
      if r.doctors != [] { assert r.doctors[0] in r.doctors; }
      if r.appointments != [] { assert r.appointments[0] in r.appointments; }
      if r.prescriptions != [] { assert r.prescriptions[0] in r.prescriptions; }
    }
  }
}
