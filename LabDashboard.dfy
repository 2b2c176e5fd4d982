/** The clinic's lab dashboard: sign-in by trimmed name, completing a test request,
    the patient and doctor name lookups, and sign-out. */
module LabDashboard {
  import opened Base
  import opened Text

  datatype Doctor = Doctor(id: int, name: string, specialty: string)
  datatype Patient = Patient(id: int, name: string)
  datatype TestRequest = TestRequest(id: int, patientId: int, test: string, doctorId: int, status: string)

  const Doctors := [Doctor(1, "Dr. John Doe", "Pathology"), Doctor(2, "Dr. Jane Smith", "Microbiology")]
  const Patients := [Patient(1, "Patient A"), Patient(2, "Patient B")]
  const InitialRequests := [TestRequest(1, 1, "Blood Test", 1, "Pending"), TestRequest(2, 2, "Urine Test", 2, "Pending")]

  /** `completeTest`'s map. */
  function Complete(ts: seq<TestRequest>, id: int): (r: seq<TestRequest>)
    ensures |r| == |ts|
    ensures forall k :: 0 <= k < |r| ==> r[k] == if ts[k].id == id then ts[k].(status := "Completed") else ts[k]
  {
    seq(|ts|, k requires 0 <= k < |ts| => if ts[k].id == id then ts[k].(status := "Completed") else ts[k])
  }

  /** The Complete button shows only on pending requests. */
  predicate ShowsComplete(t: TestRequest)
  {
    t.status == "Pending"
  }

  /** Completing is idempotent, and afterwards no request with that id offers the button. */
  lemma CompleteTwice(ts: seq<TestRequest>, id: int)
    ensures Complete(Complete(ts, id), id) == Complete(ts, id)
    ensures forall k :: 0 <= k < |ts| && ts[k].id == id ==> !ShowsComplete(Complete(ts, id)[k])
  {
  }

  function PatientIdIs(id: int): Patient -> bool
  {
    (p: Patient) => p.id == id
  }

  function DoctorIdIs(id: int): Doctor -> bool
  {
    (d: Doctor) => d.id == id
  }

  /** `getPatientName`: the first match's name, None for undefined. */
  function PatientName(patients: seq<Patient>, id: int): (r: Option<string>)
    ensures r.None? <==> forall k :: 0 <= k < |patients| ==> patients[k].id != id
    ensures r.Some? ==> exists k :: 0 <= k < |patients| && patients[k].id == id && patients[k].name == r.value
                                   && forall j :: 0 <= j < k ==> patients[j].id != id
  {
    match Find(patients, PatientIdIs(id))
    case None => None
    case Some(p) =>
      var k := FirstIndex(patients, PatientIdIs(id));
      assert patients[k].id == id && forall j :: 0 <= j < k ==> !PatientIdIs(id)(patients[j]);
      Some(p.name)
  }

  /** `getDoctorName`: the first match's name, None for undefined. */
  function DoctorName(doctors: seq<Doctor>, id: int): (r: Option<string>)
    ensures r.None? <==> forall k :: 0 <= k < |doctors| ==> doctors[k].id != id
    ensures r.Some? ==> exists k :: 0 <= k < |doctors| && doctors[k].id == id && doctors[k].name == r.value
                                   && forall j :: 0 <= j < k ==> doctors[j].id != id
  {
    match Find(doctors, DoctorIdIs(id))
    case None => None
    case Some(d) =>
      var k := FirstIndex(doctors, DoctorIdIs(id));
      assert doctors[k].id == id && forall j :: 0 <= j < k ==> !DoctorIdIs(id)(doctors[j]);
      Some(d.name)
  }

  class LabPage {
    var loggedIn: bool
    var technicianName: string
    var technicianPic: Option<string>
    var technicianNotes: string
    var nameInput: string
    var testRequests: seq<TestRequest>

    constructor ()
      ensures !loggedIn && technicianName == "" && technicianPic.None? && technicianNotes == "" && nameInput == ""
      ensures testRequests == InitialRequests
    {
      loggedIn, technicianName, technicianPic, technicianNotes, nameInput := false, "", None, "", "";
      testRequests := InitialRequests;
    }

    /** `handleLogin`: a blank name is refused; otherwise the trimmed name. */
    method HandleLogin() returns (accepted: bool)
      modifies this`technicianName, this`loggedIn
      ensures accepted <==> !IsBlank(nameInput)
      ensures !accepted ==> technicianName == old(technicianName) && loggedIn == old(loggedIn)
      ensures accepted ==> technicianName == Trim(nameInput) && technicianName != "" && loggedIn
    {
      TrimEmptyIffBlank(nameInput);
      if Trim(nameInput) == "" {
        return false;
      }
      technicianName := Trim(nameInput);
      loggedIn := true;
      accepted := true;
    }

    /** `handleLogout` (the stored copies it also removes are not part of this model). */
    method HandleLogout()
      modifies this`loggedIn, this`technicianName, this`technicianPic, this`technicianNotes, this`nameInput
      ensures !loggedIn && technicianName == "" && technicianPic.None? && technicianNotes == "" && nameInput == ""
    {
      loggedIn, technicianName, technicianPic, technicianNotes, nameInput := false, "", None, "", "";
    }

    /** `completeTest` */
    method CompleteTest(id: int)
      modifies this`testRequests
      ensures testRequests == Complete(old(testRequests), id)
    {
      testRequests := Complete(testRequests, id);
    }
  }
}
