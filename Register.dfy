/** The registration page: every field must be non-blank, the e-mail must match the
    pattern `^[^\s@]+@[^\s@]+\.[^\s@]+$`, and then the page moves on to the
    verification code page with the trimmed name and e-mail. */
module Register {
  import opened Base
  import opened Text
  import AuthContext
  import VerifyCodePage

  /** `[^\s@]+` */
  predicate Plain(s: string)
  {
    s != [] && forall k :: 0 <= k < |s| ==> !IsSpace(s[k]) && s[k] != '@'
  }

  /** The pattern as written: a plain part, '@', a plain part, '.', a plain part. */
  predicate EmailPattern(s: string)
  {
    exists i, j :: 0 < i < j < |s| && s[i] == '@' && s[j] == '.'
                   && Plain(s[..i]) && Plain(s[i + 1..j]) && Plain(s[j + 1..])
  }

  /** The same pattern read off the text: no whitespace, exactly one '@', not first,
      and after it a '.' that is neither right after the '@' nor last. */
  predicate EmailShape(s: string)
  {
    (forall k :: 0 <= k < |s| ==> !IsSpace(s[k]))
    && exists i :: 0 < i < |s| && s[i] == '@'
                   && (forall k :: 0 <= k < |s| && k != i ==> s[k] != '@')
                   && exists j :: i + 1 < j < |s| - 1 && s[j] == '.'
  }

  lemma EmailPatternIff(s: string)
    ensures EmailPattern(s) <==> EmailShape(s)
  {
    if EmailPattern(s) {
      PatternHasShape(s);
    }
    if EmailShape(s) {
      ShapeMatchesPattern(s);
    }
  }

  lemma PatternHasShape(s: string)
    requires EmailPattern(s)
    ensures EmailShape(s)
  {
    var i, j :| 0 < i < j < |s| && s[i] == '@' && s[j] == '.'
                && Plain(s[..i]) && Plain(s[i + 1..j]) && Plain(s[j + 1..]);
    PartsClean(s, i, j);
    ShapeWitness(s, i, j);
  }

  /** Outside the '@' at `i` and the '.' at `j`, the three plain parts contain no
      whitespace and no '@'. */
  lemma PartsClean(s: string, i: int, j: int)
    requires 0 < i < j < |s| && s[i] == '@' && s[j] == '.'
    requires Plain(s[..i]) && Plain(s[i + 1..j]) && Plain(s[j + 1..])
    ensures i + 1 < j < |s| - 1
    ensures forall k :: 0 <= k < |s| ==> !IsSpace(s[k]) && (k != i ==> s[k] != '@')
  {
    assert s[..i] == s[0..i] && s[j + 1..] == s[j + 1..|s|];
    forall k | 0 <= k < |s|
      ensures !IsSpace(s[k]) && (k != i ==> s[k] != '@')
    {
      if k < i {
        PlainAt(s, 0, i, k);
      } else if i < k < j {
        PlainAt(s, i + 1, j, k);
      } else if j < k {
        PlainAt(s, j + 1, |s|, k);
      }
    }
  }

  /** An '@' at `i` that no other position repeats and a '.' at `j` witness the shape. */
  lemma ShapeWitness(s: string, i: int, j: int)
    requires 0 < i && i + 1 < j < |s| - 1 && s[i] == '@' && s[j] == '.'
    requires forall k :: 0 <= k < |s| ==> !IsSpace(s[k]) && (k != i ==> s[k] != '@')
    ensures EmailShape(s)
  {
  }

  /** A character inside a plain slice is neither whitespace nor '@'. */
  lemma PlainAt(s: string, a: int, b: int, k: int)
    requires 0 <= a <= k < b <= |s| && Plain(s[a..b])
    ensures !IsSpace(s[k]) && s[k] != '@'
  {
    assert s[a..b][k - a] == s[k];
  }

  lemma ShapeMatchesPattern(s: string)
    requires EmailShape(s)
    ensures EmailPattern(s)
  {
    var i :| 0 < i < |s| && s[i] == '@'
             && (forall k :: 0 <= k < |s| && k != i ==> s[k] != '@')
             && exists j :: i + 1 < j < |s| - 1 && s[j] == '.';
    var j :| i + 1 < j < |s| - 1 && s[j] == '.';
    assert Plain(s[..i]);
    assert Plain(s[i + 1..j]);
    assert Plain(s[j + 1..]);
  }

  datatype RegisterOutcome = RegisterError(message: string) | ToVerifyCode(data: VerifyCodePage.UserData)

  const MissingFieldsError := "Please fill in all fields"
  const EmailError := "Please enter a valid email address"

  /** `handleSubmit`: the blank check first, then the pattern on the untrimmed e-mail. */
  function HandleSubmit(name: string, email: string, password: string): (r: RegisterOutcome)
    ensures r == RegisterError(MissingFieldsError) <==> IsBlank(name) || IsBlank(email) || IsBlank(password)
    ensures r == RegisterError(EmailError) <==>
              !IsBlank(name) && !IsBlank(email) && !IsBlank(password) && !EmailPattern(email)
    ensures r.ToVerifyCode? ==> r.data == VerifyCodePage.UserData(Some(Trim(name)), Some(Trim(email)), Some(password))
                                && Trim(name) != "" && Trim(email) != ""
  {
    TrimEmptyIffBlank(name);
    TrimEmptyIffBlank(email);
    TrimEmptyIffBlank(password);
    if Trim(name) == "" || Trim(email) == "" || Trim(password) == "" then RegisterError(MissingFieldsError)
    else if !EmailPattern(email) then RegisterError(EmailError)
    else ToVerifyCode(VerifyCodePage.UserData(Some(Trim(name)), Some(Trim(email)), Some(password)))
  }

  /** Registration followed by an accepted code signs in under the trimmed name and
      e-mail that were typed. */
  lemma RegisterThenVerify(name: string, email: string, password: string, code: string)
    requires HandleSubmit(name, email, password).ToVerifyCode?
    requires VerifyCodePage.PrefixAccepted(Trim(code))
    ensures var data := HandleSubmit(name, email, password).data;
            var t := Trim(code);
            var r := AuthContext.CodeProfile(data.name, data.email, t, VerifyCodePage.PrefixRole(VerifyCodePage.FirstChar(t)));
            r.Verified? && r.profile["name"] == Trim(name) && r.profile["email"] == Trim(email)
  {
    var data := HandleSubmit(name, email, password).data;
    VerifyCodePage.PageNeverFailsVerification(data, code);
  }

  /** An e-mail that passes has no surrounding blanks, so the trimmed one sent on is
      the one that was checked. */
  lemma AcceptedEmailIsTrimmed(email: string)
    requires EmailPattern(email)
    ensures Trim(email) == email
  {
    EmailPatternIff(email);
    TrimOfSpaceless(email);
  }

  lemma TrimOfSpaceless(s: string)
    requires s != [] && forall k :: 0 <= k < |s| ==> !IsSpace(s[k])
    ensures Trim(s) == s
  {
    assert LeadingSpaces(s) == 0 && TrailingSpaces(s) == 0;
    assert TrimStart(s) == s;
    assert TrimEnd(s) == s;
  }
}
