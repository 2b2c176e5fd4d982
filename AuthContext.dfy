/** The sign-in state of the shop: a single optional user profile, set by password
    login or by a verification code, cleared by logout and merged into by profile
    updates. A profile is a dictionary of text fields. */
module AuthContext {
  import opened Base
  import opened Text

  type Profile = map<string, string>

  /** `x || fallback` on an optional text: the fallback for a missing or empty one. */
  function OrDefault(x: Option<string>, fallback: string): (r: string)
    ensures x.Some? && x.value != "" ==> r == x.value
    ensures x.None? || x.value == "" ==> r == fallback
  {
    if x.Some? && x.value != "" then x.value else fallback
  }

  /** The role `login` reads off the first character of the password (case matters). */
  function PasswordRole(password: string): (role: string)
    requires password != ""
    ensures role == "admin" <==> password[0] == 'D'
    ensures role == "cashier" <==> password[0] == 'C'
    ensures role != "admin" && role != "cashier" ==> role == "guest"
  {
    if password[0] == 'D' then "admin" else if password[0] == 'C' then "cashier" else "guest"
  }

  /** What `login` returns and stores: nothing for a missing, non-text (None) or empty
      password, else a profile with the role from the password and the name or 'User'. */
  function LoginProfile(name: Option<string>, password: Option<string>): (r: Option<Profile>)
    ensures r.None? <==> password.None? || password.value == ""
    ensures r.Some? ==> r.value.Keys == {"name", "role", "avatar"}
                        && r.value["role"] == PasswordRole(password.value)
                        && r.value["name"] == OrDefault(name, "User") && r.value["avatar"] == ""
  {
    if password.None? || password.value == "" then None
    else Some(map["name" := OrDefault(name, "User"), "role" := PasswordRole(password.value), "avatar" := ""])
  }

  /** The prefix `verifyCode` expects: 'D' for admin, 'C' for every other role. */
  function ExpectedPrefix(role: string): (c: char)
    ensures c == 'D' <==> role == "admin"
    ensures c != 'D' ==> c == 'C'
  {
    if role == "admin" then 'D' else 'C'
  }

  /** What `verifyCode` does: `code[0]` on an empty code is undefined and
      `.toUpperCase()` on it throws. */
  datatype VerifyResult = Threw | Rejected | Verified(profile: Profile)

  function CodeProfile(name: Option<string>, email: Option<string>, code: string, role: string): (r: VerifyResult)
    ensures r == Threw <==> code == ""
    ensures r == Rejected <==> code != "" && UpperChar(code[0]) != ExpectedPrefix(role)
    ensures r.Verified? ==>
      r.profile.Keys == {"name", "email", "role", "verificationCode", "avatar"}
      && r.profile["role"] == role && r.profile["verificationCode"] == code
      && r.profile["name"] == OrDefault(name, "User") && r.profile["email"] == OrDefault(email, "")
  {
    if code == "" then Threw
    else if UpperChar(code[0]) != ExpectedPrefix(role) then Rejected
    else Verified(map["name" := OrDefault(name, "User"), "email" := OrDefault(email, ""), "role" := role,
                      "verificationCode" := code, "avatar" := ""])
  }

  /** A code starting with d or D verifies an admin; one starting with c or C any
      other role; and those are the only codes that verify. */
  lemma CodePrefixDecides(name: Option<string>, email: Option<string>, code: string, role: string)
    requires code != ""
    ensures CodeProfile(name, email, code, role).Verified? <==>
              if role == "admin" then code[0] in {'d', 'D'} else code[0] in {'c', 'C'}
  {
  }

  /** `updateProfile`: the updates over the current user, or over an empty profile. */
  function Merged(user: Option<Profile>, updates: Profile): (p: Profile)
    ensures p.Keys == updates.Keys + (if user.Some? then user.value.Keys else {})
    ensures forall k :: k in updates ==> p[k] == updates[k]
    ensures user.Some? ==> forall k :: k in user.value && k !in updates ==> p[k] == user.value[k]
  {
    (if user.Some? then user.value else map[]) + updates
  }

  class AuthProvider {
    var user: Option<Profile>

    constructor ()
      ensures user.None?
    {
      user := None;
    }

    /** `login` */
    method Login(name: Option<string>, password: Option<string>) returns (r: Option<Profile>)
      modifies this
      ensures r == LoginProfile(name, password)
      ensures user == if r.Some? then r else old(user)
    {
      r := LoginProfile(name, password);
      if r.Some? {
        user := r;
      }
    }

    /** `verifyCode`: the user changes only when the code verifies. */
    method VerifyCode(name: Option<string>, email: Option<string>, code: string, role: string)
      returns (r: VerifyResult)
      modifies this
      ensures r == CodeProfile(name, email, code, role)
      ensures user == if r.Verified? then Some(r.profile) else old(user)
    {
      r := CodeProfile(name, email, code, role);
      if r.Verified? {
        user := Some(r.profile);
      }
    }

    /** `logout` */
    method Logout()
      modifies this
      ensures user.None?
    {
      user := None;
    }

    /** `updateProfile` */
    method UpdateProfile(updates: Profile)
      modifies this
      ensures user == Some(Merged(old(user), updates))
    {
      user := Some(Merged(user, updates));
    }
  }
}
