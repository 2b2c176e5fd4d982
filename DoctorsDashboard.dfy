/** The clinic's doctor dashboard: accepting or rejecting bookings, saving a
    consultation record, the lab and pharmacy requests, loading remote records with an
    access key, the record search and the October calendar of confirmed bookings. */
module DoctorsDashboard {
  import opened Base
  import opened Text

  datatype Appointment = Appointment(id: int, date: string, time: string, patient: string, status: string)

  datatype MedicalRecord = MedicalRecord(id: int, patient: string, doctor: string, date: string, notes: string)

  const DoctorName := "Dr. Ian Mabruk"

  const SeedAppointments := [
    Appointment(1, "2025-10-21", "10:00 AM", "Jane Doe", "pending"),
    Appointment(2, "2025-10-21", "11:30 AM", "John Smith", "pending"),
    Appointment(3, "2025-10-22", "02:00 PM", "Alice Johnson", "pending")]

  /** The records the access key unlocks. */
  const RemoteRecords := [
    MedicalRecord(101, "Remote Patient A", "Dr. Remote", "2025-08-15", "Remote notes example"),
    MedicalRecord(102, "Remote Patient B", "Dr. Remote", "2025-09-10", "Another remote notes")]

  /** The appointments with `id`'s status replaced. */
  function SetStatus(apps: seq<Appointment>, id: int, action: string): (r: seq<Appointment>)
    ensures |r| == |apps|
    ensures forall k :: 0 <= k < |r| ==>
              r[k] == if apps[k].id == id then apps[k].(status := action) else apps[k]
  {
    seq(|apps|, k requires 0 <= k < |apps| => if apps[k].id == id then apps[k].(status := action) else apps[k])
  }

  predicate ConfirmedOn(a: Appointment, date: string)
  {
    a.date == date && a.status == "confirmed"
  }

  function ConfirmedOnFor(date: string): Appointment -> bool
  {
    (a: Appointment) => ConfirmedOn(a, date)
  }

  /** `getAppointmentsCount` */
  function AppointmentsCount(apps: seq<Appointment>, date: string): (n: nat)
    ensures n <= |apps|
  {
    FilterMembers(apps, ConfirmedOnFor(date));
    Count(apps, ConfirmedOnFor(date))
  }

  predicate DistinctIds(apps: seq<Appointment>)
  {
    forall i, j :: 0 <= i < j < |apps| ==> apps[i].id != apps[j].id
  }

  /** Confirming a pending booking adds one to its day's count and leaves every
      other day's count alone. */
  lemma {:induction false} ConfirmCounts(apps: seq<Appointment>, k: int, date: string)
    requires DistinctIds(apps) && 0 <= k < |apps| && apps[k].status != "confirmed"
    ensures AppointmentsCount(SetStatus(apps, apps[k].id, "confirmed"), date)
         == AppointmentsCount(apps, date) + (if apps[k].date == date then 1 else 0)
    decreases |apps|
  {
    var id := apps[k].id;
    var r := SetStatus(apps, id, "confirmed");
    var init, rinit := apps[..|apps| - 1], r[..|r| - 1];
    assert rinit == SetStatus(init, id, "confirmed");
    if k < |apps| - 1 {
      ConfirmCounts(init, k, date);
      assert r[|r| - 1] == apps[|apps| - 1];
    } else {
      assert rinit == init by {
        forall j | 0 <= j < |init| ensures rinit[j] == init[j] {
          assert apps[j].id != id;
        }
      }
    }
  }

  /** `handleSaveRecord` refuses when all three fields trim to nothing. */
  predicate ConsultationBlank(notes: string, labOrders: string, prescriptions: string)
  {
    Trim(notes) == "" && Trim(labOrders) == "" && Trim(prescriptions) == ""
  }

  /** That is, when all three are whitespace only. */
  lemma ConsultationBlankIff(notes: string, labOrders: string, prescriptions: string)
    ensures ConsultationBlank(notes, labOrders, prescriptions) <==>
            IsBlank(notes) && IsBlank(labOrders) && IsBlank(prescriptions)
  {
    TrimEmptyIffBlank(notes);
    TrimEmptyIffBlank(labOrders);
    TrimEmptyIffBlank(prescriptions);
  }

  /** `selectedBooking?.patient || "New Patient"` */
  function RecordPatient(selected: Option<Appointment>): (p: string)
    ensures selected.None? ==> p == "New Patient"
    ensures selected.Some? && selected.value.patient != "" ==> p == selected.value.patient
  {
    if selected.Some? && selected.value.patient != "" then selected.value.patient else "New Patient"
  }

  function RecordNotes(notes: string, labOrders: string, prescriptions: string): string
  {
    "Notes: " + notes + "\nLab Orders: " + labOrders + "\nPrescription: " + prescriptions
  }

  /** The two request buttons: `sendLabRequest` with the lab orders and
      `sendPharmaRequest` with the prescriptions. */
  datatype RequestKind = LabRequest | PharmaRequest

  function MissingMessage(kind: RequestKind): string
  {
    match kind
    case LabRequest => "Add lab orders first."
    case PharmaRequest => "Add prescription first."
  }

  function SentHeading(kind: RequestKind): string
  {
    match kind
    case LabRequest => "Lab request sent:\n"
    case PharmaRequest => "Pharmacist request sent:\n"
  }

  /** The button's alert: the reminder for a blank field, otherwise the heading
      followed by the text as typed. */
  function RequestAlert(kind: RequestKind, text: string): (msg: string)
    ensures IsBlank(text) <==> msg == MissingMessage(kind)
    ensures !IsBlank(text) ==> |msg| >= |SentHeading(kind)| && msg[..|SentHeading(kind)|] == SentHeading(kind)
    ensures !IsBlank(text) ==> |msg| >= |SentHeading(kind)| && msg[|SentHeading(kind)|..] == text
  {
    if IsBlank(text) then MissingMessage(kind)
    else
      assert (SentHeading(kind) + text)[0] != MissingMessage(kind)[0];
      SentHeading(kind) + text
  }

  predicate RecordMatches(r: MedicalRecord, q: string)
  {
    Contains(Lower(r.patient), q) || Contains(Lower(r.notes), q)
  }

  function RecordMatchesFor(q: string): MedicalRecord -> bool
  {
    (r: MedicalRecord) => RecordMatches(r, q)
  }

  /** `filteredRecords`: local records then remote ones, narrowed by the trimmed,
      lower-cased query when there is one. */
  function FilteredRecords(records: seq<MedicalRecord>, remote: seq<MedicalRecord>, query: string)
    : (r: seq<MedicalRecord>)
    ensures IsBlank(query) ==> r == records + remote
    ensures forall x :: x in r <==> x in records + remote && (IsBlank(query) || RecordMatches(x, Lower(Trim(query))))
  {
    TrimEmptyIffBlank(query);
    var q := Lower(Trim(query));
    FilterMembers(records + remote, RecordMatchesFor(q));
    if q == "" then records + remote else Filter(records + remote, RecordMatchesFor(q))
  }

  /** The calendar cell for day `day` of October 2025. */
  function CalendarDate(day: nat): (r: string)
    requires 1 <= day <= 30
    ensures |r| == 10 && r[..8] == "2025-10-"
    ensures (r[8] as int - '0' as int) * 10 + (r[9] as int - '0' as int) == day
  {
    var digits := NatToString(day);
    if day < 10 then
      assert digits == [('0' as int + day) as char];
      "2025-10-" + PadStartZero(digits, 2)
    else
      assert NatToString(day / 10) == [('0' as int + day / 10) as char];
      assert digits == [('0' as int + day / 10) as char, ('0' as int + day % 10) as char];
      "2025-10-" + PadStartZero(digits, 2)
  }

  /** Different days get different cells. */
  lemma CalendarDatesDistinct(a: nat, b: nat)
    requires 1 <= a <= 30 && 1 <= b <= 30 && a != b
    ensures CalendarDate(a) != CalendarDate(b)
  {
  }

  class DoctorDashboard {
    var appointments: seq<Appointment>
    var records: seq<MedicalRecord>
    var remoteRecords: seq<MedicalRecord>
    var notes: string
    var labOrders: string
    var prescriptions: string
    var accessKey: string
    var selectedBooking: Option<Appointment>
    var confirming: Option<Appointment>

    constructor ()
      ensures appointments == SeedAppointments && records == [] && remoteRecords == []
      ensures notes == "" && labOrders == "" && prescriptions == "" && accessKey == ""
      ensures selectedBooking.None? && confirming.None?
    {
      appointments, records, remoteRecords := SeedAppointments, [], [];
      notes, labOrders, prescriptions, accessKey := "", "", "", "";
      selectedBooking, confirming := None, None;
    }

    /** `handleAppointmentAction`: the status set on the matching booking only, the
        confirmation closed, and the alert for a confirmation or a rejection. */
    method HandleAppointmentAction(appointment: Appointment, action: string) returns (alert: Option<string>)
      modifies this`appointments, this`confirming
      ensures appointments == SetStatus(old(appointments), appointment.id, action)
      ensures confirming.None?
      ensures alert.Some? <==> action == "confirmed" || action == "rejected"
      ensures action == "confirmed" ==> alert == Some(appointment.patient + "'s appointment confirmed!")
      ensures action == "rejected" ==> alert == Some(appointment.patient + "'s appointment was rejected!")
    {
      appointments := SetStatus(appointments, appointment.id, action);
      confirming := None;
      if action == "confirmed" {
        alert := Some(appointment.patient + "'s appointment confirmed!");
      } else if action == "rejected" {
        alert := Some(appointment.patient + "'s appointment was rejected!");
      } else {
        alert := None;
      }
    }

    /** `handleSaveRecord`: refused when all three fields are blank; otherwise one
        record goes in front and the three fields are cleared. */
    method HandleSaveRecord(now: int, today: string) returns (saved: bool)
      modifies this`records, this`notes, this`labOrders, this`prescriptions
      ensures saved <==> !ConsultationBlank(old(notes), old(labOrders), old(prescriptions))
      ensures !saved ==> records == old(records) && notes == old(notes) && labOrders == old(labOrders)
                         && prescriptions == old(prescriptions)
      ensures saved ==>
        records == [MedicalRecord(now, RecordPatient(selectedBooking), DoctorName + " (Your Clinic)", today,
                                  RecordNotes(old(notes), old(labOrders), old(prescriptions)))] + old(records)
        && notes == "" && labOrders == "" && prescriptions == ""
    {
      if ConsultationBlank(notes, labOrders, prescriptions) {
        return false;
      }
      var rec := MedicalRecord(now, RecordPatient(selectedBooking), DoctorName + " (Your Clinic)", today,
                               RecordNotes(notes, labOrders, prescriptions));
      records := [rec] + records;
      notes, labOrders, prescriptions := "", "", "";
      saved := true;
    }

    /** `fetchRemoteRecords`: needs a non-blank key, then loads the fixed list. */
    method FetchRemoteRecords() returns (granted: bool)
      modifies this`remoteRecords
      ensures granted <==> !IsBlank(accessKey)
      ensures remoteRecords == if granted then RemoteRecords else old(remoteRecords)
    {
      TrimEmptyIffBlank(accessKey);
      if Trim(accessKey) == "" {
        return false;
      }
      remoteRecords := RemoteRecords;
      granted := true;
    }
  }
}
