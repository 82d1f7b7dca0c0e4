/** The authentication hook's bookkeeping: the user document written for a new
    account, the message shown for a Firebase error code, and where a signed-in
    user is sent next. Firebase Auth and Firestore calls are parameters: their
    outcome (a user or an error code), whether the profile update or the
    document write failed, and the clock readings. */
module UseAuth {
  import opened Common

  datatype Preferences = Preferences(learningGoal: string, dailyGoalMinutes: int, reminderEnabled: bool, darkMode: bool)

  datatype Progress = Progress(currentStreak: int, longestStreak: int, totalMinutes: int, totalSessions: int, masteredPhrases: int)

  /** The stored user document. Only Google accounts carry a photo URL. */
  datatype UserDoc = UserDoc(
    uid: string, email: string, displayName: string, photoURL: Option<string>,
    createdAt: string, lastLoginAt: string, onboardingCompleted: bool,
    preferences: Preferences, progress: Progress)

  /** The signed-in Firebase user as the hook sees it. */
  datatype AuthUser = AuthUser(uid: string, email: string, displayName: Option<string>, photoURL: Option<string>)

  datatype Route = DashboardRoute | OnboardingRoute

  /** A write to the user's document: a full document, or a merge of `lastLoginAt` alone. */
  datatype Write = Create(doc: UserDoc) | MergeLastLogin(at: string)

  /** What one sign-in attempt does: the write it makes, where it navigates, the error it shows. */
  datatype Attempt = Attempt(write: Option<Write>, route: Option<Route>, error: Option<string>)

  const DefaultPreferences: Preferences := Preferences("", 10, true, false)
  const ZeroProgress: Progress := Progress(0, 0, 0, 0, 0)

  /** The document for a new account: onboarding pending, default preferences,
      all counters at zero. The creation and last-login times are two separate
      clock readings, taken in that order. */
  function NewUserDoc(uid: string, email: string, displayName: string, photoURL: Option<string>,
                      createdAt: string, lastLoginAt: string): (d: UserDoc)
    ensures !d.onboardingCompleted
    ensures d.preferences.learningGoal == "" && d.preferences.dailyGoalMinutes == 10
    ensures d.preferences.reminderEnabled && !d.preferences.darkMode
    ensures d.progress == Progress(0, 0, 0, 0, 0)
    ensures d.createdAt == createdAt && d.lastLoginAt == lastLoginAt
    ensures d.uid == uid && d.email == email && d.displayName == displayName && d.photoURL == photoURL
  {
    UserDoc(uid, email, displayName, photoURL, createdAt, lastLoginAt, false, DefaultPreferences, ZeroProgress)
  }

  /** Where a returning user goes: the dashboard exactly when the stored
      `onboardingCompleted` is true; a missing document or field means onboarding. */
  function RouteFor(onboardingCompleted: Option<bool>): (r: Route)
    ensures r == DashboardRoute <==> onboardingCompleted == Some(true)
  {
    if onboardingCompleted == Some(true) then DashboardRoute else OnboardingRoute
  }

  function ApplyWrite(doc: UserDoc, w: Write): UserDoc {
    match w
    case Create(d) => d
    case MergeLastLogin(at) => doc.(lastLoginAt := at)
  }

  /** `register`: a failed sign-up shows the mapped error and writes nothing.
      After a successful one, a non-empty name is set on the profile first;
      when that fails, its error is shown and no document is written. Otherwise
      a fresh document is written and, unless that write fails, the user goes
      to onboarding. `profileFailure` is the outcome of the profile update and
      is not consulted for an empty name, which skips that call. */
  function Register(name: string, signUp: Result<AuthUser, string>, profileFailure: Option<string>,
                    writeFailure: Option<string>, createdAt: string, now: string): (a: Attempt)
    ensures signUp.Failure? ==> a == Attempt(None, None, Some(ErrorMessage(signUp.error)))
    ensures signUp.Success? && name != "" && profileFailure.Some? ==>
              a == Attempt(None, None, Some(ErrorMessage(profileFailure.value)))
    ensures a.write.Some? <==> signUp.Success? && (name == "" || profileFailure.None?)
    ensures a.write.Some? ==> a.write == Some(Create(NewUserDoc(signUp.value.uid, signUp.value.email, name, None, createdAt, now)))
    ensures a.route.Some? <==> a.write.Some? && writeFailure.None?
    ensures a.route.Some? ==> a.route == Some(OnboardingRoute) && a.error.None?
    ensures a.route.None? ==> a.error.Some?
  {
    match signUp
    case Failure(code) => Attempt(None, None, Some(ErrorMessage(code)))
    case Success(u) =>
      if name != "" && profileFailure.Some? then Attempt(None, None, Some(ErrorMessage(profileFailure.value)))
      else
        var w := Create(NewUserDoc(u.uid, u.email, name, None, createdAt, now));
        match writeFailure
        case Some(code) => Attempt(Some(w), None, Some(ErrorMessage(code)))
        case None => Attempt(Some(w), Some(OnboardingRoute), None)
  }

  /** `login`: records the login time by a merge, then reads the document and
      routes on its onboarding flag. A failed sign-in, merge or read shows its
      mapped error and goes nowhere; a failed read comes after the merge was
      issued. `readFailure` is the outcome of the read and is not consulted
      when the merge fails, which skips it. */
  function Login(signIn: Result<AuthUser, string>, storedFlag: Option<bool>, writeFailure: Option<string>,
                 readFailure: Option<string>, now: string): (a: Attempt)
    ensures signIn.Failure? ==> a == Attempt(None, None, Some(ErrorMessage(signIn.error)))
    ensures signIn.Success? ==> a.write == Some(MergeLastLogin(now))
    ensures signIn.Success? && writeFailure.Some? ==> a.error == Some(ErrorMessage(writeFailure.value))
    ensures signIn.Success? && writeFailure.None? && readFailure.Some? ==> a.error == Some(ErrorMessage(readFailure.value))
    ensures a.route.Some? <==> signIn.Success? && writeFailure.None? && readFailure.None?
    ensures a.route.Some? ==> a.error.None? && (a.route == Some(DashboardRoute) <==> storedFlag == Some(true))
    ensures a.route.None? ==> a.error.Some?
  {
    match signIn
    case Failure(code) => Attempt(None, None, Some(ErrorMessage(code)))
    case Success(_) =>
      var w := MergeLastLogin(now);
      match (writeFailure, readFailure)
      case (Some(code), _) => Attempt(Some(w), None, Some(ErrorMessage(code)))
      case (None, Some(code)) => Attempt(Some(w), None, Some(ErrorMessage(code)))
      case (None, None) => Attempt(Some(w), Some(RouteFor(storedFlag)), None)
  }

  /** The Google redirect result. A rejected redirect shows its mapped error.
      Otherwise the user's document is read first; a failed read shows its
      error and writes nothing. A first-time user then gets a fresh document
      (with name and photo defaulting to empty) and goes to onboarding; a
      returning user gets only `lastLoginAt` merged and is routed on the
      stored flag. `existing` is what the read found. */
  function GoogleSignIn(redirect: Result<AuthUser, string>, existing: Option<UserDoc>, readFailure: Option<string>,
                        writeFailure: Option<string>, createdAt: string, now: string): (a: Attempt)
    ensures redirect.Failure? ==> a == Attempt(None, None, Some(ErrorMessage(redirect.error)))
    ensures redirect.Success? && readFailure.Some? ==> a == Attempt(None, None, Some(ErrorMessage(readFailure.value)))
    ensures a.write.Some? <==> redirect.Success? && readFailure.None?
    ensures a.write.Some? && existing.None? ==>
              var u := redirect.value;
              a.write == Some(Create(NewUserDoc(u.uid, u.email, u.displayName.GetOr(""), Some(u.photoURL.GetOr("")), createdAt, now)))
    ensures a.write.Some? && existing.Some? ==> a.write == Some(MergeLastLogin(now))
    ensures a.write.Some? && writeFailure.Some? ==> a.error == Some(ErrorMessage(writeFailure.value))
    ensures a.route.Some? <==> a.write.Some? && writeFailure.None?
    ensures a.route.Some? ==> a.error.None?
    ensures a.route.None? ==> a.error.Some?
    ensures existing.None? && a.route.Some? ==> a.route == Some(OnboardingRoute)
    ensures existing.Some? && a.route.Some? ==> (a.route == Some(DashboardRoute) <==> existing.value.onboardingCompleted)
  {
    match redirect
    case Failure(code) => Attempt(None, None, Some(ErrorMessage(code)))
    case Success(u) =>
      if readFailure.Some? then Attempt(None, None, Some(ErrorMessage(readFailure.value)))
      else
        var w := match existing
          case None => Create(NewUserDoc(u.uid, u.email, u.displayName.GetOr(""), Some(u.photoURL.GetOr("")), createdAt, now))
          case Some(_) => MergeLastLogin(now);
        match writeFailure
        case Some(code) => Attempt(Some(w), None, Some(ErrorMessage(code)))
        case None =>
          var r := match existing
            case None => OnboardingRoute
            case Some(d) => RouteFor(Some(d.onboardingCompleted));
          Attempt(Some(w), Some(r), None)
  }

  /** A returning Google user's stored document changes in `lastLoginAt` only. */
  lemma ReturningGoogleUserKeepsRecord(u: AuthUser, d: UserDoc, createdAt: string, now: string)
    ensures var a := GoogleSignIn(Success(u), Some(d), None, None, createdAt, now);
            var d' := ApplyWrite(d, a.write.value);
            d' == d.(lastLoginAt := now) && d'.onboardingCompleted == d.onboardingCompleted
            && d'.preferences == d.preferences && d'.progress == d.progress
  {
  }

  /** The Firebase error codes the hook names. */
  const KnownCodes: seq<string> := [
    "auth/user-not-found", "auth/wrong-password", "auth/email-already-in-use",
    "auth/weak-password", "auth/invalid-email", "auth/too-many-requests",
    "auth/popup-closed-by-user", "auth/popup-blocked", "auth/network-request-failed"]

  const GenericError: string := "An error occurred. Please try again."
  const EmailInUseMessage: string :=
    "An account with this " + "email already exists" + ". Please sign in instead or use a different email."

  /** `getErrorMessage`: total; every named code has its own message and every
      other code gets the generic one. */
  function ErrorMessage(code: string): (m: string)
    ensures code !in KnownCodes ==> m == GenericError
    ensures code in KnownCodes ==> m != GenericError
  {
    match code
    case "auth/user-not-found" => "No account found with this email address."
    case "auth/wrong-password" => "Incorrect password. Please try again."
    case "auth/email-already-in-use" => EmailInUseMessage
    case "auth/weak-password" => "Password should be at least 6 characters long."
    case "auth/invalid-email" => "Please enter a valid email address."
    case "auth/too-many-requests" => "Too many failed attempts. Please try again later."
    case "auth/popup-closed-by-user" => "Sign-in was cancelled. Please try again."
    case "auth/popup-blocked" => "Pop-up was blocked by your browser. Please allow pop-ups for this site or try again."
    case "auth/network-request-failed" => "Network error. Please check your connection."
    case _ => GenericError
  }

  /** Lengths of the named codes' messages, in the order of `KnownCodes`. */
  const MessageLengths: seq<nat> := [41, 37, 91, 46, 35, 49, 40, 84, 44]

  lemma MessageOfKnownCode(i: nat)
    requires i < |KnownCodes|
    ensures |ErrorMessage(KnownCodes[i])| == MessageLengths[i]
  {
    if i == 0 { assert KnownCodes[0] == "auth/user-not-found"; }
    else if i == 1 { assert KnownCodes[1] == "auth/wrong-password"; }
    else if i == 2 { assert KnownCodes[2] == "auth/email-already-in-use"; }
    else if i == 3 { } else if i == 4 { } else if i == 5 { } else if i == 6 { } else if i == 7 { } else { }
  }

  /** Distinct named codes map to distinct messages. */
  lemma ErrorMessagesDistinct(i: nat, j: nat)
    requires i < j < |KnownCodes|
    ensures ErrorMessage(KnownCodes[i]) != ErrorMessage(KnownCodes[j])
  {
    var a, b := ErrorMessage(KnownCodes[i]), ErrorMessage(KnownCodes[j]);
    MessageOfKnownCode(i);
    MessageOfKnownCode(j);
    assert |a| != |b| by {
      LengthsDistinct(i, j);
    }
  }

  lemma LengthsDistinct(i: nat, j: nat)
    requires i < j < |MessageLengths|
    ensures MessageLengths[i] != MessageLengths[j]
  {
  }

  /** The duplicate-account message carries the phrase the sign-in form looks
      for before offering to switch to sign-in. */
  lemma EmailInUseMentionsExistingAccount()
    ensures Contains(ErrorMessage("auth/email-already-in-use"), "email already exists")
  {
    var m := ErrorMessage("auth/email-already-in-use");
    assert m == EmailInUseMessage;
    var at := |"An account with this "|;
    assert m[at..at + |"email already exists"|] == "email already exists";
    assert OccursAt(m, "email already exists", at);
  }
}
