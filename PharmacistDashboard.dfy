/** The clinic's pharmacist dashboard: sign-in by name, the pending queue, marking a
    prescription done under the signed-in pharmacist, the history list and the
    theme. What the page keeps in the browser's storage is not part of this model;
    it starts from the built-in prescriptions. */
module PharmacistDashboard {
  import opened Base
  import opened Text

  datatype Prescription = Prescription(id: int, patient: string, medication: string, doctor: string,
                                       pharmacist: Option<string>, status: string)

  const InitialPrescriptions := [
    Prescription(1, "Patient A", "Paracetamol", "Dr. John Doe", Some("Alice"), "Done"),
    Prescription(2, "Patient B", "Ibuprofen", "Dr. Jane Smith", None, "Pending"),
    Prescription(3, "Patient C", "Amoxicillin", "Dr. John Doe", Some("Bob"), "Done")]

  /** `markDone`'s map: the matching prescription done by `name`, the rest untouched. */
  function MarkDone(ps: seq<Prescription>, id: int, name: string): (r: seq<Prescription>)
    ensures |r| == |ps|
    ensures forall k :: 0 <= k < |r| ==>
              r[k] == if ps[k].id == id then ps[k].(status := "Done", pharmacist := Some(name)) else ps[k]
  {
    if ps == [] then []
    else
      var last := ps[|ps| - 1];
      MarkDone(ps[..|ps| - 1], id, name)
        + [if last.id == id then last.(status := "Done", pharmacist := Some(name)) else last]
  }

  function IsPending(p: Prescription): bool
  {
    p.status == "Pending"
  }

  function IdIsNot(id: int): Prescription -> bool
  {
    (p: Prescription) => p.id != id
  }

  /** The queue: the pending prescriptions, in order. */
  function Queue(ps: seq<Prescription>): (q: seq<Prescription>)
    ensures forall p :: p in q <==> p in ps && p.status == "Pending"
  {
    FilterMembers(ps, IsPending);
    Filter(ps, IsPending)
  }

  /** Marking one done takes exactly the prescriptions with that id off the queue. */
  lemma {:induction false} MarkDoneLeavesQueue(ps: seq<Prescription>, id: int, name: string)
    ensures Queue(MarkDone(ps, id, name)) == Filter(Queue(ps), IdIsNot(id))
  {
    if ps != [] {
      var init, last := ps[..|ps| - 1], ps[|ps| - 1];
      MarkDoneLeavesQueue(init, id, name);
      var r := MarkDone(ps, id, name);
      var done := r[|r| - 1];
      assert r[..|r| - 1] == MarkDone(init, id, name);
      assert Filter(r, IsPending) == Filter(MarkDone(init, id, name), IsPending)
                                     + (if IsPending(done) then [done] else []);
      var x := Filter(init, IsPending);
      if IsPending(last) {
        assert Filter(ps, IsPending) == x + [last];
        assert (x + [last])[..|x|] == x;
        if last.id == id {
          assert !IsPending(done);
        } else {
          assert done == last;
        }
      } else {
        assert Filter(ps, IsPending) == x;
        assert !IsPending(done);
      }
    }
  }

  /** The history label: the pharmacist, or 'Unassigned' for none (or an empty name). */
  function HistoryLabel(p: Prescription): (s: string)
    ensures p.pharmacist.None? ==> s == "Unassigned"
    ensures p.pharmacist.Some? && p.pharmacist.value != "" ==> s == p.pharmacist.value
  {
    if p.pharmacist.Some? && p.pharmacist.value != "" then p.pharmacist.value else "Unassigned"
  }

  /** A prescription marked done by a named pharmacist carries that name in the history. */
  lemma MarkDoneLabel(ps: seq<Prescription>, id: int, name: string, k: int)
    requires 0 <= k < |ps| && ps[k].id == id && name != ""
    ensures HistoryLabel(MarkDone(ps, id, name)[k]) == name && !IsPending(MarkDone(ps, id, name)[k])
  {
  }

  /** `toggleTheme` */
  function NextTheme(theme: string): (t: string)
    ensures t == "black" <==> theme == "blue"
    ensures t != "black" ==> t == "blue"
  {
    if theme == "blue" then "black" else "blue"
  }

  class PharmacistPage {
    var loggedIn: bool
    var nameInput: string
    var profilePic: Option<string>
    var pharmacistName: string
    var pharmacistPic: Option<string>
    var prescriptions: seq<Prescription>
    var theme: string

    constructor ()
      ensures !loggedIn && nameInput == "" && profilePic.None? && pharmacistName == "" && pharmacistPic.None?
      ensures prescriptions == InitialPrescriptions && theme == "blue"
    {
      loggedIn, nameInput, profilePic := false, "", None;
      pharmacistName, pharmacistPic := "", None;
      prescriptions, theme := InitialPrescriptions, "blue";
    }

    /** `handleLogin`: a blank name is refused; otherwise the name as typed. */
    method HandleLogin() returns (accepted: bool)
      modifies this`pharmacistName, this`pharmacistPic, this`loggedIn
      ensures accepted <==> !IsBlank(nameInput)
      ensures !accepted ==> pharmacistName == old(pharmacistName) && pharmacistPic == old(pharmacistPic)
                            && loggedIn == old(loggedIn)
      ensures accepted ==> pharmacistName == nameInput && pharmacistPic == profilePic && loggedIn
    {
      TrimEmptyIffBlank(nameInput);
      if Trim(nameInput) == "" {
        return false;
      }
      pharmacistName, pharmacistPic := nameInput, profilePic;
      loggedIn := true;
      accepted := true;
    }

    /** `handleLogout` */
    method HandleLogout()
      modifies this`loggedIn, this`nameInput, this`profilePic, this`pharmacistName, this`pharmacistPic
      ensures !loggedIn && nameInput == "" && profilePic.None? && pharmacistName == "" && pharmacistPic.None?
    {
      loggedIn, nameInput, profilePic := false, "", None;
      pharmacistName, pharmacistPic := "", None;
    }

    method ToggleTheme()
      modifies this`theme
      ensures theme == NextTheme(old(theme))
    {
      theme := NextTheme(theme);
    }

    /** `markDone` */
    method HandleMarkDone(id: int)
      modifies this`prescriptions
      ensures prescriptions == MarkDone(old(prescriptions), id, pharmacistName)
    {
      prescriptions := MarkDone(prescriptions, id, pharmacistName);
    }
  }
}
