/** The clinic's patient dashboard: the doctor search within a hospital, booking an
    appointment, the most recent visit, and the selection resets. */
module PatientDashboard {
  import opened Base
  import opened Text

  datatype Doctor = Doctor(name: string, specialty: string, available: seq<string>)

  /** A booked appointment; `id` is the booking clock reading, `createdAt` its ISO text. */
  datatype Appointment = Appointment(id: int, doctor: string, specialty: string, hospital: string,
                                     date: string, createdAt: string)

  /** The doctor chosen for booking, tagged with the hospital it was listed under. */
  datatype Selection = Selection(doctor: Doctor, hospital: string)

  /** The hospitals and their doctors. */
  const Hospitals: map<string, seq<Doctor>> := map[
    "Nairobi Hospital" := [Doctor("Dr. Kamau", "Cardiologist", ["2025-10-24", "2025-10-26"]),
                           Doctor("Dr. Atieno", "Dermatologist", ["2025-10-25", "2025-10-28"])],
    "Aga Khan" := [Doctor("Dr. Patel", "Neurologist", ["2025-10-23", "2025-10-24"]),
                   Doctor("Dr. Amina", "Pediatrician", ["2025-10-26", "2025-10-27"])],
    "Mater Hospital" := [Doctor("Dr. Ochieng", "Orthopedic", ["2025-10-25", "2025-10-28"]),
                         Doctor("Dr. Wanjiru", "Gynecologist", ["2025-10-24", "2025-10-26"])]
  ]

  /** The search test: the lower-cased name and specialty, run together, include the lower-cased term. */
  function MatchesTerm(term: string): Doctor -> bool
  {
    (d: Doctor) => Contains(Lower(d.name + d.specialty), Lower(term))
  }

  /** `filteredDoctors`: nothing unless a known hospital is selected, else its matching doctors in order. */
  function FilteredDoctors(hospitals: map<string, seq<Doctor>>, selected: string, term: string): (r: seq<Doctor>)
    ensures selected == "" || selected !in hospitals ==> r == []
    ensures selected != "" && selected in hospitals ==>
      |r| <= |hospitals[selected]| &&
      forall d :: d in r <==> d in hospitals[selected] && Contains(Lower(d.name + d.specialty), Lower(term))
  {
    if selected != "" && selected in hospitals then
      FilterMembers(hospitals[selected], MatchesTerm(term));
      Filter(hospitals[selected], MatchesTerm(term))
    else []
  }

  /** An empty search lists every doctor of the selected hospital, in order. */
  lemma EmptySearchListsAll(hospitals: map<string, seq<Doctor>>, selected: string)
    requires selected != "" && selected in hospitals
    ensures FilteredDoctors(hospitals, selected, "") == hospitals[selected]
  {
    forall d | d in hospitals[selected]
      ensures MatchesTerm("")(d)
    {
      ContainsEmpty(Lower(d.name + d.specialty));
    }
    FilterAll(hospitals[selected], MatchesTerm(""));
  }

  /** The search ignores the case of the term. */
  lemma SearchIgnoresCase(hospitals: map<string, seq<Doctor>>, selected: string, term: string)
    ensures FilteredDoctors(hospitals, selected, Lower(term)) == FilteredDoctors(hospitals, selected, term)
  {
    LowerIdempotent(term);
    if selected != "" && selected in hospitals {
      FilterSame(hospitals[selected], MatchesTerm(Lower(term)), MatchesTerm(term));
    }
  }

  /** `lastVisit`: the first appointment, which is the latest booking. */
  function LastVisit(appointments: seq<Appointment>): (r: Option<Appointment>)
    ensures r.None? <==> appointments == []
    ensures r.Some? ==> r.value in appointments && r.value == appointments[0]
  {
    if |appointments| > 0 then Some(appointments[0]) else None
  }

  /** The list after `bookAppointment`: one new appointment in front of the old ones. */
  function Booked(appointments: seq<Appointment>, doctor: Doctor, date: string, hospital: string,
                  now: int, createdAt: string): (r: seq<Appointment>)
    ensures |r| == |appointments| + 1 && r[1..] == appointments
    ensures r[0].doctor == doctor.name && r[0].specialty == doctor.specialty
    ensures r[0].hospital == hospital && r[0].date == date && r[0].id == now
  {
    [Appointment(now, doctor.name, doctor.specialty, hospital, date, createdAt)] + appointments
  }

  /** A booking becomes the last visit, and every earlier booking is kept. */
  lemma {:induction false} BookingIsLastVisit(appointments: seq<Appointment>, doctor: Doctor, date: string,
                                              hospital: string, now: int, createdAt: string)
    ensures LastVisit(Booked(appointments, doctor, date, hospital, now, createdAt)).Some?
    ensures LastVisit(Booked(appointments, doctor, date, hospital, now, createdAt)).value.doctor == doctor.name
    ensures LastVisit(Booked(appointments, doctor, date, hospital, now, createdAt)).value.date == date
    ensures forall a :: a in appointments ==> a in Booked(appointments, doctor, date, hospital, now, createdAt)
  {
    var r := Booked(appointments, doctor, date, hospital, now, createdAt);
    forall a | a in appointments
      ensures a in r
    {
      var k :| 0 <= k < |appointments| && appointments[k] == a;
      assert r[k + 1] == r[1..][k];
    }
  }

  class PatientPage {
    var selectedHospital: string
    var searchTerm: string
    var selectedDoctor: Option<Selection>
    var showBookModal: bool
    var appointments: seq<Appointment>

    constructor (stored: seq<Appointment>)
      ensures selectedHospital == "" && searchTerm == "" && selectedDoctor.None? && !showBookModal
      ensures appointments == stored
    {
      selectedHospital, searchTerm, selectedDoctor, showBookModal := "", "", None, false;
      appointments := stored;
    }

    /** The hospital picker: a new hospital drops the selected doctor. */
    method SelectHospital(hospital: string)
      modifies this`selectedHospital, this`selectedDoctor
      ensures selectedHospital == hospital && selectedDoctor.None?
    {
      selectedHospital := hospital;
      selectedDoctor := None;
    }

    /** `openBook` */
    method OpenBook(doctor: Doctor, hospital: string)
      modifies this`selectedDoctor, this`showBookModal
      ensures selectedDoctor == Some(Selection(doctor, hospital)) && showBookModal
    {
      selectedDoctor := Some(Selection(doctor, hospital));
      showBookModal := true;
    }

    /** `bookAppointment`; `now` and `createdAt` are the clock's readings. */
    method BookAppointment(doctor: Doctor, date: string, hospital: string, now: int, createdAt: string)
      modifies this`appointments, this`showBookModal, this`selectedDoctor
      ensures appointments == Booked(old(appointments), doctor, date, hospital, now, createdAt)
      ensures !showBookModal && selectedDoctor.None?
    {
      appointments := [Appointment(now, doctor.name, doctor.specialty, hospital, date, createdAt)] + appointments;
      showBookModal := false;
      selectedDoctor := None;
    }

    /** The booking dialog's Cancel button. */
    method CancelBooking()
      modifies this`showBookModal, this`selectedDoctor
      ensures !showBookModal && selectedDoctor.None?
    {
      showBookModal := false;
      selectedDoctor := None;
    }
  }
}
