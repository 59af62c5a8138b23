/** The validation of the small forms: login, profile, change password and forgot
    password. Each form keeps its values and its errors in maps keyed by field; a
    form passes when its error map is empty, and only then does the screen go on. */
module Forms {
  import opened Text
  import Validation

  /** `handleInputChange`, the same on every form: the field takes the value and a
      pending error on it is blanked; nothing else changes. */
  function EditField<F>(values: map<F, string>, errors: map<F, string>, field: F, value: string)
    : (r: (map<F, string>, map<F, string>))
    ensures field in r.0 && r.0[field] == value
    ensures forall f :: f != field && f in values ==> f in r.0 && r.0[f] == values[f]
    ensures r.0.Keys == values.Keys + {field}
    ensures r.1.Keys == errors.Keys
    ensures field in r.1 ==> r.1[field] == ""
    ensures forall f :: f != field && f in errors ==> r.1[f] == errors[f]
  {
    (values[field := value], if field in errors && errors[field] != "" then errors[field := ""] else errors)
  }

  /** Editing twice keeps only the second value. */
  lemma EditTwice<F>(values: map<F, string>, errors: map<F, string>, field: F, a: string, b: string)
    ensures var once := EditField(values, errors, field, a);
            EditField(once.0, once.1, field, b).0 == EditField(values, errors, field, b).0
  {
  }

  /** The older change-password and forgot-password screens edit through the bare
      state setter: the field takes the value and the errors stay as they were. */
  function SetField<F>(values: map<F, string>, errors: map<F, string>, field: F, value: string)
    : (r: (map<F, string>, map<F, string>))
    ensures field in r.0 && r.0[field] == value
    ensures forall f :: f != field && f in values ==> f in r.0 && r.0[f] == values[f]
    ensures r.0.Keys == values.Keys + {field}
    ensures r.1 == errors
  {
    (values[field := value], errors)
  }

  /** The two ways of editing store the same values; they leave different errors
      exactly when the edited field was showing one. */
  lemma EditVersusSet<F>(values: map<F, string>, errors: map<F, string>, field: F, value: string)
    ensures EditField(values, errors, field, value).0 == SetField(values, errors, field, value).0
    ensures var edited, plain := EditField(values, errors, field, value), SetField(values, errors, field, value);
            edited.1 != plain.1 <==> field in errors && errors[field] != ""
  {
    if field in errors && errors[field] != "" {
      assert EditField(values, errors, field, value).1[field] == "";
    }
  }

  // ---------------------------------------------------------------------------
  // Login

  datatype LoginField = Username | Password

  /** `validateForm` of the login screen. */
  function ValidateLogin(username: string, password: string): (r: map<LoginField, string>)
    ensures Username in r <==> Trim(username) == ""
    ensures Username in r ==> r[Username] == "Username is required"
    ensures Password in r <==> |password| < 6
    ensures Password in r ==>
              r[Password] == (if password == "" then "Password is required" else "Password must be at least 6 characters")
    ensures r == map[] <==> Trim(username) != "" && |password| >= 6
  {
    var e := if Trim(username) == "" then map[Username := "Username is required"] else map[];
    if password == "" then e[Password := "Password is required"]
    else if |password| < 6 then e[Password := "Password must be at least 6 characters"]
    else e
  }

  /** A username of nothing but whitespace never logs in. */
  lemma BlankUsernameRejected(username: string, password: string)
    requires forall i :: 0 <= i < |username| ==> IsSpace(username[i])
    ensures ValidateLogin(username, password) != map[]
  {
    TrimEmptyIffAllSpace(username);
  }

  // ---------------------------------------------------------------------------
  // Profile

  datatype ProfileField = InchargeName | Email | Mobile | Latitude | Longitude

  /** `handleSave` of the profile screen: the name must not be blank, the email and
      mobile are required and must pass the shared validators. */
  function ValidateProfile(name: string, email: string, mobile: string): (r: map<ProfileField, string>)
    ensures InchargeName in r <==> Trim(name) == ""
    ensures Email in r <==> !Validation.ValidateEmail(email)
    ensures Email in r ==>
              r[Email] == (if email == "" then "Email is required" else "Please enter a valid email address")
    ensures Mobile in r <==> !Validation.ValidatePhone(mobile)
    ensures Mobile in r ==>
              r[Mobile] == (if mobile == "" then "Mobile number is required" else "Please enter a valid 10-digit mobile number")
    ensures r.Keys <= {InchargeName, Email, Mobile}
    ensures r == map[] <==>
              Trim(name) != "" && Validation.ValidateEmail(email) && Validation.ValidatePhone(mobile)
  {
    var e := if Trim(name) == "" then map[InchargeName := "Name is required"] else map[];
    var e := if email == "" then e[Email := "Email is required"]
             else if !Validation.ValidateEmail(email) then e[Email := "Please enter a valid email address"]
             else e;
    if mobile == "" then e[Mobile := "Mobile number is required"]
    else if !Validation.ValidatePhone(mobile) then e[Mobile := "Please enter a valid 10-digit mobile number"]
    else e
  }

  // ---------------------------------------------------------------------------
  // Change password

  datatype PasswordField = OldPassword | NewPassword | ConfirmPassword

  const MustDiffer: string := "New password must be different from current password"

  /** `validatePasswords`: the current password is required; the new one is
      required and at least eight long; the confirmation is required and must
      match; and a new password equal to the current one gets its own message
      in place of any other. */
  function ValidatePasswords(current: string, proposed: string, confirm: string): (r: map<PasswordField, string>)
    ensures OldPassword in r <==> current == ""
    ensures OldPassword in r ==> r[OldPassword] == "Current password is required"
    ensures NewPassword in r <==> |proposed| < 8 || (current == proposed && current != "")
    ensures NewPassword in r && current == proposed && current != "" ==> r[NewPassword] == MustDiffer
    ensures NewPassword in r && (current != proposed || current == "") ==>
              r[NewPassword] == (if proposed == "" then "New password is required" else "Password must be at least 8 characters")
    ensures ConfirmPassword in r <==> confirm == "" || confirm != proposed
    ensures ConfirmPassword in r ==>
              r[ConfirmPassword] == (if confirm == "" then "Please confirm your new password" else "Passwords do not match")
    ensures r == map[] <==> current != "" && |proposed| >= 8 && confirm == proposed && current != proposed
  {
    var e := if current == "" then map[OldPassword := "Current password is required"] else map[];
    var e := if proposed == "" then e[NewPassword := "New password is required"]
             else if |proposed| < 8 then e[NewPassword := "Password must be at least 8 characters"]
             else e;
    var e := if confirm == "" then e[ConfirmPassword := "Please confirm your new password"]
             else if proposed != confirm then e[ConfirmPassword := "Passwords do not match"]
             else e;
    if current == proposed && current != "" && proposed != "" then e[NewPassword := MustDiffer] else e
  }

  /** The new password the form lets through is one the shared validator accepts at
      its default minimum. */
  lemma AcceptedNewPasswordIsLongEnough(current: string, proposed: string, confirm: string)
    requires ValidatePasswords(current, proposed, confirm) == map[]
    ensures Validation.ValidatePassword(proposed, 8).isValid
  {
  }

  // ---------------------------------------------------------------------------
  // Forgot password

  datatype ForgotField = ResetEmail

  /** The forgot-password screen: the email, whether the request was sent, and the
      errors. */
  datatype Forgot = Forgot(email: string, submitted: bool, errors: map<ForgotField, string>)

  /** `handleResetPassword`: the errors are replaced; the screen switches to the
      confirmation only when there are none, and never switches back. */
  function ResetPassword(s: Forgot): (r: Forgot)
    ensures r.email == s.email
    ensures r.errors == map[] <==> Validation.ValidateEmail(s.email)
    ensures ResetEmail in r.errors <==> !Validation.ValidateEmail(s.email)
    ensures ResetEmail in r.errors ==>
              r.errors[ResetEmail] == (if s.email == "" then "Email address is required" else "Please enter a valid email address")
    ensures r.submitted <==> s.submitted || Validation.ValidateEmail(s.email)
  {
    var errors := if s.email == "" then map[ResetEmail := "Email address is required"]
                  else if !Validation.ValidateEmail(s.email) then map[ResetEmail := "Please enter a valid email address"]
                  else map[];
    assert ResetEmail in errors ==> errors != map[];
    Forgot(s.email, s.submitted || errors == map[], errors)
  }

  /** `handleBackToLogin`: everything back to the opening state. */
  function BackToLogin(s: Forgot): (r: Forgot)
    ensures !r.submitted && r.email == "" && r.errors == map[]
  {
    Forgot("", false, map[])
  }

  /** From the opening state an empty request is refused and leaves the form where
      it was, and a valid address brings up the confirmation; going back always
      returns to the opening state. */
  lemma ForgotRoundTrip(s: Forgot, email: string)
    requires Validation.ValidateEmail(email)
    ensures !ResetPassword(BackToLogin(s)).submitted
    ensures ResetPassword(BackToLogin(s).(email := email)).submitted
    ensures BackToLogin(ResetPassword(s)) == BackToLogin(s)
  {
  }
}
