/** The cashier settings page: the profile form, the password form with its match
    check, and the theme toggle. The message's three-second reset and the picture
    upload are not part of this model. */
module CashierSettings {
  import opened Base
  import opened DataContext

  datatype MessageKind = NoMessage | Success | Error

  /** A profile field as the form reads it; a missing key reads as the empty text. */
  function Field(profile: map<string, string>, key: string): string
  {
    if key in profile then profile[key] else ""
  }

  /** The profile form sends exactly these three fields. */
  function ProfileUpdates(name: string, username: string, email: string): (u: map<string, string>)
    ensures u.Keys == {"name", "username", "email"}
  {
    map["name" := name, "username" := username, "email" := email]
  }

  /** `handleThemeToggle`: light goes dark, anything else (dark, or no theme) goes light. */
  function NextTheme(profile: map<string, string>): (t: string)
    ensures t == "dark" <==> "theme" in profile && profile["theme"] == "light"
    ensures t != "dark" ==> t == "light"
  {
    if "theme" in profile && profile["theme"] == "light" then "dark" else "light"
  }

  /** Toggling twice from light or dark returns to where it started. */
  lemma ToggleTwice(profile: map<string, string>)
    requires "theme" in profile && profile["theme"] in {"light", "dark"}
    ensures NextTheme(MergeProfile(profile, map["theme" := NextTheme(profile)])) == profile["theme"]
  {
    var once := MergeProfile(profile, map["theme" := NextTheme(profile)]);
    assert once["theme"] == NextTheme(profile);
  }

  /** Saving the profile leaves every other setting (theme, picture, ...) as it was. */
  lemma ProfileSaveKeepsOthers(profile: map<string, string>, name: string, username: string, email: string,
                               key: string)
    requires key in profile && key !in {"name", "username", "email"}
    ensures var saved := MergeProfile(profile, ProfileUpdates(name, username, email));
            key in saved && saved[key] == profile[key]
  {
  }

  class SettingsForm {
    var name: string
    var username: string
    var email: string
    var currentPassword: string
    var newPassword: string
    var confirmPassword: string
    var messageKind: MessageKind
    var messageText: string

    constructor (profile: map<string, string>)
      ensures name == Field(profile, "name") && username == Field(profile, "username")
      ensures email == Field(profile, "email")
      ensures currentPassword == "" && newPassword == "" && confirmPassword == ""
      ensures messageKind == NoMessage && messageText == ""
    {
      name, username, email := Field(profile, "name"), Field(profile, "username"), Field(profile, "email");
      currentPassword, newPassword, confirmPassword := "", "", "";
      messageKind, messageText := NoMessage, "";
    }

    /** `handleProfileUpdate` */
    method HandleProfileUpdate(store: DataStore)
      modifies store`cashierProfile, this`messageKind, this`messageText
      ensures store.cashierProfile == MergeProfile(old(store.cashierProfile), ProfileUpdates(name, username, email))
      ensures messageKind == Success && messageText == "Profile updated successfully!"
    {
      store.UpdateCashierProfile(ProfileUpdates(name, username, email));
      messageKind, messageText := Success, "Profile updated successfully!";
    }

    /** `handlePasswordChange`: a mismatch shows an error and clears nothing; a match
        shows success and clears exactly the three password fields. */
    method HandlePasswordChange()
      modifies this`currentPassword, this`newPassword, this`confirmPassword, this`messageKind, this`messageText
      ensures old(newPassword) != old(confirmPassword) ==>
        messageKind == Error && messageText == "Passwords do not match!"
        && currentPassword == old(currentPassword) && newPassword == old(newPassword)
        && confirmPassword == old(confirmPassword)
      ensures old(newPassword) == old(confirmPassword) ==>
        messageKind == Success && messageText == "Password changed successfully!"
        && currentPassword == "" && newPassword == "" && confirmPassword == ""
    {
      if newPassword != confirmPassword {
        messageKind, messageText := Error, "Passwords do not match!";
        return;
      }
      messageKind, messageText := Success, "Password changed successfully!";
      currentPassword, newPassword, confirmPassword := "", "", "";
    }

    /** `handleThemeToggle` */
    method HandleThemeToggle(store: DataStore)
      modifies store`cashierProfile
      ensures store.cashierProfile == MergeProfile(old(store.cashierProfile), map["theme" := NextTheme(old(store.cashierProfile))])
    {
      store.UpdateCashierProfile(map["theme" := NextTheme(store.cashierProfile)]);
    }
  }
}
