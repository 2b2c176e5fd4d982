/** The clinic's role guard around each dashboard. */
module PrivateRoute {
  import opened Base
  import opened Text
  import LoginForm

  datatype Decision = ToAuth | ToLanding | RenderChildren

  /** `PrivateRoute`: `stored` is the role kept at login, if any. */
  function Guard(stored: Option<string>, role: string): (r: Decision)
    ensures r == ToAuth <==> stored.None? || stored.value == ""
    ensures r == ToLanding <==> stored.Some? && stored.value != "" && stored.value != role
    ensures r == RenderChildren <==> stored == Some(role) && role != ""
  {
    if stored.None? || stored.value == "" then ToAuth
    else if stored.value != role then ToLanding
    else RenderChildren
  }

  /** A successful login stores a role that the guard of the same role lets through,
      and the guard of any other role turns away. */
  lemma LoginOpensOwnDashboard(role: string, id: string, name: string, other: string)
    requires LoginForm.HandleLogin(role, id, name).Navigated?
    ensures role != "" ==> Guard(Some(LoginForm.HandleLogin(role, id, name).storedRole), role) == RenderChildren
    ensures role != "" && other != role ==>
      Guard(Some(LoginForm.HandleLogin(role, id, name).storedRole), other) == ToLanding
    ensures role == "" ==> Guard(Some(LoginForm.HandleLogin(role, id, name).storedRole), other) == ToAuth
  {
  }
}
