/** The clinic's staff login form: an ID whose first letter names the role. */
module LoginForm {
  import opened Text

  datatype LoginOutcome =
    | Refused(message: string)
    /** `role[0].toUpperCase()` on an empty role */
    | Threw
    /** The stored role and name, and the dashboard navigated to. */
    | Navigated(path: string, storedRole: string, storedName: string)

  const MissingFields := "Enter ID and name"

  /** What the lower-cased ID must start with: `role[0]`, which on an empty role is
      `undefined` and is searched for as the text "undefined". */
  function RolePrefix(role: string): (r: string)
    ensures role != [] ==> r == [role[0]]
    ensures role == [] ==> r == "undefined"
  {
    if role == [] then "undefined" else [role[0]]
  }

  /** The dashboard of a role. */
  function DashboardPath(role: string): (r: string)
    ensures |r| == |role| + 11 && r[0] == '/' && r[1..|role| + 1] == role
  {
    "/" + role + "-dashboard"
  }

  /** `handleLogin` */
  function HandleLogin(role: string, id: string, name: string): (r: LoginOutcome)
    ensures (id == "" || name == "") ==> r == Refused(MissingFields)
    ensures id != "" && name != "" ==>
      (r.Navigated? <==> StartsWith(Lower(id), RolePrefix(role)))
    ensures r.Navigated? ==> r.path == DashboardPath(role) && r.storedRole == role && r.storedName == name
    ensures r.Threw? <==> id != "" && name != "" && role == "" && !StartsWith(Lower(id), "undefined")
    ensures r.Refused? && r.message != MissingFields ==> role != "" && r.message == "ID must start with " + [UpperChar(role[0])]
  {
    if id == "" || name == "" then Refused(MissingFields)
    else if !StartsWith(Lower(id), RolePrefix(role)) then
      if role == "" then Threw else Refused("ID must start with " + [UpperChar(role[0])])
    else Navigated(DashboardPath(role), role, name)
  }

  /** For a lower-case role, an ID passes exactly when its first letter is the role's
      first letter in either case. */
  lemma PrefixEitherCase(role: string, id: string, name: string)
    requires role != "" && IsLower(role[0]) && id != "" && name != ""
    ensures HandleLogin(role, id, name).Navigated? <==> LowerChar(id[0]) == role[0]
  {
    assert Lower(id)[0] == LowerChar(id[0]);
    if LowerChar(id[0]) == role[0] {
      assert Lower(id)[..1] == [role[0]];
    }
  }

  /** A role whose first letter is upper case admits no ID: the ID is lower-cased, the role is not. */
  lemma UpperRoleNeverLogsIn(role: string, id: string, name: string)
    requires role != "" && IsUpper(role[0])
    ensures !HandleLogin(role, id, name).Navigated?
  {
    if id != "" {
      assert !IsUpper(Lower(id)[0]);
      assert Lower(id)[..1] != RolePrefix(role);
    }
  }
}
