/** The verification code page: it needs the user data handed over by the login or
    registration page, checks the code, derives the role from the code's first
    character and completes the sign-in through `verifyCode`. */
module VerifyCodePage {
  import opened Base
  import opened Text
  import opened AuthContext

  /** The user data the previous page passes along. */
  datatype UserData = UserData(name: Option<string>, email: Option<string>, password: Option<string>)

  datatype PageOutcome = ToLogin | ShowError(message: string) | NavigateTo(path: string) | NoNavigation

  const BlankCodeError := "Please enter your verification code"
  const PrefixError := "Invalid verification code. Code must start with D (admin) or C (cashier)"
  const FailedError := "Verification failed. Please try again."

  /** The role the page derives: 'D' (either case) admin, otherwise cashier. */
  function PrefixRole(first: char): (role: string)
    ensures role == "admin" <==> first == 'D'
    ensures role != "admin" ==> role == "cashier"
  {
    if first == 'D' then "admin" else "cashier"
  }

  /** The first character of the trimmed code, upper-cased. */
  function FirstChar(t: string): char
    requires t != ""
  {
    UpperChar(t[0])
  }

  predicate PrefixAccepted(t: string)
  {
    t != "" && FirstChar(t) in {'D', 'C'}
  }

  /** The page derives the role from the very prefix `verifyCode` then checks, so on
      this path `verifyCode` never rejects and never throws, and the signed-in user has
      the derived role. */
  lemma PageNeverFailsVerification(data: UserData, code: string)
    requires PrefixAccepted(Trim(code))
    ensures var t := Trim(code);
            var r := CodeProfile(data.name, data.email, t, PrefixRole(FirstChar(t)));
            r.Verified? && r.profile["role"] == PrefixRole(FirstChar(t))
  {
    var t := Trim(code);
    var role := PrefixRole(FirstChar(t));
    assert ExpectedPrefix(role) == FirstChar(t);
  }

  /** `handleSubmit` (and, without user data, the redirect before the form shows). */
  method HandleSubmit(auth: AuthProvider, userData: Option<UserData>, code: string) returns (out: PageOutcome)
    modifies auth
    ensures userData.None? ==> out == ToLogin && auth.user == old(auth.user)
    ensures userData.Some? && Trim(code) == "" ==> out == ShowError(BlankCodeError) && auth.user == old(auth.user)
    ensures userData.Some? && Trim(code) != "" && !PrefixAccepted(Trim(code)) ==>
              out == ShowError(PrefixError) && auth.user == old(auth.user)
    ensures userData.Some? && PrefixAccepted(Trim(code)) ==>
              var t := Trim(code);
              var role := PrefixRole(FirstChar(t));
              && out == NavigateTo(if role == "admin" then "/admin" else "/cashier")
              && auth.user == Some(CodeProfile(userData.value.name, userData.value.email, t, role).profile)
    ensures out != ShowError(FailedError) && out != NoNavigation
  {
    if userData.None? {
      return ToLogin;
    }
    var t := Trim(code);
    if t == "" {
      return ShowError(BlankCodeError);
    }
    var first := UpperChar(t[0]);
    if first != 'D' && first != 'C' {
      return ShowError(PrefixError);
    }
    var role := if first == 'D' then "admin" else "cashier";
    PageNeverFailsVerification(userData.value, code);
    var r := auth.VerifyCode(userData.value.name, userData.value.email, t, role);
    if r.Verified? {
      if r.profile["role"] == "admin" {
        out := NavigateTo("/admin");
      } else if r.profile["role"] == "cashier" {
        out := NavigateTo("/cashier");
      } else {
        out := NoNavigation;
      }
    } else {
      out := ShowError(FailedError);
    }
  }
}
