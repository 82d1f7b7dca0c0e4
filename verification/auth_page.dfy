/** The sign-in / registration form: client-side validation, editing a field,
    switching between the two modes, and the "switch to sign in" offer shown
    under a duplicate-account error. `Submit` is the submission with errors
    that stay until a mode switch; `SubmitAsWritten` adds the clearing effect
    that, as the page is written, runs after every commit. */
module AuthPage {
  import opened Common
  import UseAuth

  /** The keys of the error record; `Terms` belongs to the checkbox. */
  datatype Field = Name | Email | Password | Terms

  /** The three text inputs wired to the shared change handler. */
  datatype TextInput = NameInput | EmailInput | PasswordInput {
    function Key(): Field {
      match this
      case NameInput => Name
      case EmailInput => Email
      case PasswordInput => Password
    }
  }

  datatype Form = Form(
    isRegister: bool, name: string, email: string, password: string,
    agreedToTerms: bool, errors: map<Field, string>, authError: Option<string>)

  /** The form as first shown: empty fields, no errors. */
  function Blank(isRegister: bool): Form {
    Form(isRegister, "", "", "", false, map[], None)
  }

  const NameRequired: string := "Name is required"
  const EmailRequired: string := "Email is required"
  const EmailInvalid: string := "Please enter a valid email address"
  const PasswordRequired: string := "Password is required"
  const PasswordTooShort: string := "Password must be at least 6 characters long"
  const TermsRequired: string := "You must agree to the Terms & Privacy Policy"

  /** The minimum password length enforced when registering. */
  const MinPasswordLength: nat := 6

  /** Everything after an `@` at `a` that the pattern `\S+\.\S+` needs, with the
      dot at `d`: at least one non-space between them, a non-space after the dot. */
  ghost predicate DotAfter(s: string, a: nat, d: nat) {
    && a + 2 <= d && d + 1 < |s|
    && s[d] == '.' && !IsSpace(s[d + 1])
    && forall k :: a < k < d ==> !IsSpace(s[k])
  }

  /** The regular expression `\S+@\S+\.\S+` matches somewhere in `s` with its
      `@` at `a` and its literal dot at `d`. */
  ghost predicate EmailAt(s: string, a: nat, d: nat) {
    1 <= a < |s| && s[a] == '@' && !IsSpace(s[a - 1]) && DotAfter(s, a, d)
  }

  /** `/\S+@\S+\.\S+/.test(s)`: the (unanchored) pattern matches somewhere. */
  ghost predicate EmailShaped(s: string) {
    exists a: nat, d: nat :: EmailAt(s, a, d)
  }

  /** Scans the non-space run after the `@` at `a`, from `d` on, for a usable dot. */
  function DotFrom(s: string, a: nat, d: nat): (r: bool)
    requires a < d <= |s|
    requires forall k :: a < k < d ==> !IsSpace(s[k])
    ensures r <==> exists d': nat :: d <= d' && DotAfter(s, a, d')
    decreases |s| - d
  {
    if d + 1 >= |s| then false
    else if IsSpace(s[d]) then
      assert forall d': nat :: d <= d' ==> !DotAfter(s, a, d') by {
        forall d': nat | d < d' ensures !DotAfter(s, a, d') {
          assert a < d < d' && IsSpace(s[d]);
        }
      }
      false
    else if a + 2 <= d && s[d] == '.' && !IsSpace(s[d + 1]) then
      assert DotAfter(s, a, d);
      true
    else
      DotFrom(s, a, d + 1)
  }

  /** Scans for an `@` at `a` or later that starts a match. */
  function AtFrom(s: string, a: nat): (r: bool)
    ensures r <==> exists a': nat, d: nat :: a <= a' && EmailAt(s, a', d)
    decreases |s| - a
  {
    if a >= |s| then false
    else if 1 <= a && s[a] == '@' && !IsSpace(s[a - 1]) && DotFrom(s, a, a + 1) then
      assert exists d: nat :: EmailAt(s, a, d) by {
        var d: nat :| a + 1 <= d && DotAfter(s, a, d);
        assert EmailAt(s, a, d);
      }
      true
    else
      var r := AtFrom(s, a + 1);
      assert forall d: nat :: !EmailAt(s, a, d) by {
        if 1 <= a && s[a] == '@' && !IsSpace(s[a - 1]) {
          assert !DotFrom(s, a, a + 1);
        }
      }
      r
  }

  /** The executable form of the email pattern test. */
  function LooksLikeEmail(s: string): (r: bool)
    ensures r <==> EmailShaped(s)
  {
    AtFrom(s, 0)
  }

  /** The message `validateForm` records for one field, if any; each field gets
      at most one. */
  function FieldError(f: Form, k: Field): Option<string> {
    match k
    case Name => if f.isRegister && Trim(f.name) == [] then Some(NameRequired) else None
    case Email =>
      if Trim(f.email) == [] then Some(EmailRequired)
      else if !LooksLikeEmail(f.email) then Some(EmailInvalid)
      else None
    case Password =>
      if f.password == [] then Some(PasswordRequired)
      else if f.isRegister && |f.password| < MinPasswordLength then Some(PasswordTooShort)
      else None
    case Terms => if f.isRegister && !f.agreedToTerms then Some(TermsRequired) else None
  }

  const AllFields: set<Field> := {Name, Email, Password, Terms}

  /** The error record `validateForm` builds, one message per failing field. */
  function FormErrors(f: Form): (e: map<Field, string>)
    ensures Name in e <==> f.isRegister && Trim(f.name) == []
    ensures Name in e ==> e[Name] == NameRequired
    ensures (Email in e && e[Email] == EmailRequired) <==> Trim(f.email) == []
    ensures (Email in e && e[Email] == EmailInvalid) <==> Trim(f.email) != [] && !EmailShaped(f.email)
    ensures Email in e ==> e[Email] in {EmailRequired, EmailInvalid}
    ensures (Password in e && e[Password] == PasswordRequired) <==> f.password == []
    ensures (Password in e && e[Password] == PasswordTooShort) <==> f.password != [] && f.isRegister && |f.password| < MinPasswordLength
    ensures Password in e ==> e[Password] in {PasswordRequired, PasswordTooShort}
    ensures Terms in e <==> f.isRegister && !f.agreedToTerms
    ensures Terms in e ==> e[Terms] == TermsRequired
  {
    map k | k in AllFields && FieldError(f, k).Some? :: FieldError(f, k).value
  }

  datatype Validated = Validated(form: Form, ok: bool)

  /** `validateForm`: records the errors on the form and reports whether there are none. */
  function ValidateForm(f: Form): (v: Validated)
    ensures v.form == f.(errors := v.form.errors)
    ensures v.ok <==> v.form.errors == map[]
    ensures v.ok <==> (!f.isRegister || (Trim(f.name) != [] && f.agreedToTerms && |f.password| >= MinPasswordLength))
                      && Trim(f.email) != [] && EmailShaped(f.email) && f.password != []
  {
    var e := FormErrors(f);
    assert e == map[] <==> Name !in e && Email !in e && Password !in e && Terms !in e by {
      if e != map[] {
        var k :| k in e;
        assert k.Name? || k.Email? || k.Password? || k.Terms?;
      }
    }
    Validated(f.(errors := e), e == map[])
  }

  /** Signing in accepts any non-empty password, however short. */
  lemma SignInAcceptsShortPassword(f: Form)
    requires !f.isRegister && Trim(f.email) != [] && EmailShaped(f.email)
    requires 0 < |f.password| < MinPasswordLength
    ensures ValidateForm(f).ok
  {
  }

  /** `handleInputChange`: stores the value in its own field and, if that field
      shows a non-empty error, blanks that error; nothing else changes. */
  function InputChange(f: Form, input: TextInput, value: string): (g: Form)
    ensures input == NameInput ==> g.name == value && g.email == f.email && g.password == f.password
    ensures input == EmailInput ==> g.email == value && g.name == f.name && g.password == f.password
    ensures input == PasswordInput ==> g.password == value && g.name == f.name && g.email == f.email
    ensures g.isRegister == f.isRegister && g.agreedToTerms == f.agreedToTerms && g.authError == f.authError
    ensures g.errors.Keys == f.errors.Keys
    ensures forall k :: k in f.errors && k != input.Key() ==> g.errors[k] == f.errors[k]
    ensures input.Key() in f.errors ==> g.errors[input.Key()] == ""
  {
    var h := match input
      case NameInput => f.(name := value)
      case EmailInput => f.(email := value)
      case PasswordInput => f.(password := value);
    var k := input.Key();
    if k in f.errors && f.errors[k] != "" then h.(errors := f.errors[k := ""]) else h
  }

  /** The terms checkbox. */
  function SetTerms(f: Form, checked: bool): (g: Form)
    ensures g.agreedToTerms == checked
    ensures g == f.(agreedToTerms := checked)
  {
    f.(agreedToTerms := checked)
  }

  /** `toggleMode`: the other mode, with every field, the checkbox, the field
      errors and the authentication error cleared. */
  function ToggleMode(f: Form): (g: Form)
    ensures g.isRegister != f.isRegister
    ensures g.name == g.email == g.password == ""
    ensures !g.agreedToTerms && g.errors == map[] && g.authError.None?
  {
    Blank(!f.isRegister)
  }

  /** Toggling twice returns to the original mode with a blank form, whatever was typed. */
  lemma ToggleModeTwice(f: Form)
    ensures ToggleMode(ToggleMode(f)) == Blank(f.isRegister)
  {
  }

  /** The outcome of pressing submit: the form afterwards and whether the
      authentication call was made. */
  datatype Submission = Submission(form: Form, called: bool)

  /** `handleSubmit`: an invalid form shows its errors and calls nothing; a valid
      one calls `register` or `login`, whose outcome is given as `attempt`, and
      shows that call's error if any. */
  function Submit(f: Form, attempt: UseAuth.Attempt): (s: Submission)
    ensures s.called <==> ValidateForm(f).ok
    ensures !s.called ==> s.form == ValidateForm(f).form
    ensures s.called ==> s.form == f.(errors := map[], authError := attempt.error)
  {
    var v := ValidateForm(f);
    if !v.ok then Submission(v.form, false)
    else Submission(v.form.(authError := attempt.error), true)
  }

  /** The form offers to switch to sign-in when the shown error mentions an existing account. */
  predicate OffersSignIn(f: Form) {
    f.authError.Some? && Contains(f.authError.value, "email already exists")
  }

  /** A registration refused because the email is taken leads the form to offer
      sign-in, and taking the offer switches to a blank sign-in form. */
  lemma DuplicateAccountOffersSignIn(f: Form, createdAt: string, now: string)
    requires f.isRegister && ValidateForm(f).ok
    ensures var a := UseAuth.Register(f.name, Failure("auth/email-already-in-use"), None, None, createdAt, now);
            var s := Submit(f, a);
            s.called && OffersSignIn(s.form) && ToggleMode(s.form) == Blank(false)
  {
    UseAuth.EmailInUseMentionsExistingAccount();
  }

  // ---------------------------------------------------------------------------
  // The clearing effect as written

  /** The effect at the top of the component: it clears the authentication
      error and the field errors and changes nothing else. Its dependencies are
      the mode and `clearError`, and the hook builds a new `clearError` on
      every render, so it runs after every commit, not only after a mode
      switch; each run stores a fresh empty error record, which renders again
      and runs it again. */
  function Settle(f: Form): (g: Form)
    ensures g.errors == map[] && g.authError.None?
    ensures g.(errors := f.errors, authError := f.authError) == f
  {
    f.(errors := map[], authError := None)
  }

  /** `handleSubmit` as the page behaves: the submission, then the effect that
      runs after the commit showing it. Whatever the submission showed is gone. */
  function SubmitAsWritten(f: Form, attempt: UseAuth.Attempt): (s: Submission)
    ensures s.called <==> ValidateForm(f).ok
    ensures s.form.errors == map[] && s.form.authError.None?
    ensures s.form.(errors := f.errors, authError := f.authError) == f
  {
    var t := Submit(f, attempt);
    t.(form := Settle(t.form))
  }

  /** As written, the sign-in offer the submission shows under a taken email
      is wiped on the next commit. */
  lemma DuplicateOfferWiped(f: Form, createdAt: string, now: string)
    requires f.isRegister && ValidateForm(f).ok
    ensures var a := UseAuth.Register(f.name, Failure("auth/email-already-in-use"), None, None, createdAt, now);
            OffersSignIn(Submit(f, a).form) && !OffersSignIn(SubmitAsWritten(f, a).form)
  {
    UseAuth.EmailInUseMentionsExistingAccount();
  }

  /** A concrete registration that meets the requirements above: a filled,
      valid form whose email is already taken. */
  lemma TakenEmailExample(createdAt: string, now: string)
    ensures var f := Form(true, "Ann", "a@b.c", "secret", true, map[], None);
            ValidateForm(f).ok
            && var a := UseAuth.Register(f.name, Failure("auth/email-already-in-use"), None, None, createdAt, now);
               OffersSignIn(Submit(f, a).form) && !OffersSignIn(SubmitAsWritten(f, a).form)
  {
    var f := Form(true, "Ann", "a@b.c", "secret", true, map[], None);
    assert Trim(f.name) != [];
    assert EmailAt(f.email, 1, 3);
    DuplicateOfferWiped(f, createdAt, now);
  }

  /** As written, an invalid form shows no field error once the effect has run. */
  lemma InvalidErrorsWiped(f: Form, attempt: UseAuth.Attempt)
    requires !ValidateForm(f).ok
    ensures Submit(f, attempt).form.errors != map[]
    ensures SubmitAsWritten(f, attempt).form.errors == map[]
  {
  }
}
