/** The login decision: from the entered email and password and what reading
    the stored user record gave, one of five outcomes, each with its alert
    and, for success only, navigation to the dashboard. */
module LoginScreen {
  import opened Wrappers

  /** What reading and parsing the user record stored under the key
      "userDetails" gave. */
  datatype StoredUser =
    | NoRecord                                   // nothing (or an empty string) under the key
    | Record(email: string, password: string)    // a parsed credential pair
    | Unreadable                                 // the read or the parse threw

  datatype LoginOutcome =
    | MissingInput
    | NoAccount
    | LoggedIn
    | InvalidCredentials
    | LoginFailed

  /** `handleLogin`: the input check first, then the stored-credential comparison. */
  function HandleLogin(email: string, password: string, stored: StoredUser): (o: LoginOutcome)
    ensures o == MissingInput <==> email == "" || password == ""
    ensures o == LoggedIn <==> email != "" && password != "" && stored == Record(email, password)
    ensures o == InvalidCredentials <==>
      email != "" && password != "" && stored.Record? && (stored.email != email || stored.password != password)
    ensures o == NoAccount <==> email != "" && password != "" && stored == NoRecord
    ensures o == LoginFailed <==> email != "" && password != "" && stored == Unreadable
  {
    if email == "" || password == "" then MissingInput
    else match stored
      case Record(storedEmail, storedPassword) =>
        if email == storedEmail && password == storedPassword then LoggedIn else InvalidCredentials
      case NoRecord => NoAccount
      case Unreadable => LoginFailed
  }

  /** Missing input is reported without looking at storage: the outcome is
      the same whatever the stored record is. */
  lemma MissingInputIgnoresStorage(email: string, password: string, s1: StoredUser, s2: StoredUser)
    requires email == "" || password == ""
    ensures HandleLogin(email, password, s1) == HandleLogin(email, password, s2) == MissingInput
  {
  }

  /** The alert shown for each outcome: title and message. */
  function AlertFor(o: LoginOutcome): (alert: (string, string))
    ensures alert.0 == "Success" <==> o == LoggedIn
    ensures o != LoggedIn ==> alert.0 == "Error"
    ensures o == MissingInput ==> alert.1 == "Please enter both email and password"
    ensures o == NoAccount ==> alert.1 == "No account found. Please sign up first."
    ensures o == LoggedIn ==> alert.1 == "Logged in successfully!"
    ensures o == InvalidCredentials ==> alert.1 == "Invalid email or password"
    ensures o == LoginFailed ==> alert.1 == "Failed to log in"
  {
    match o
    case MissingInput => ("Error", "Please enter both email and password")
    case NoAccount => ("Error", "No account found. Please sign up first.")
    case LoggedIn => ("Success", "Logged in successfully!")
    case InvalidCredentials => ("Error", "Invalid email or password")
    case LoginFailed => ("Error", "Failed to log in")
  }

  /** Only a successful login navigates, and it navigates to the dashboard. */
  function NavigationFor(o: LoginOutcome): (target: Option<string>)
    ensures target.Some? <==> o == LoggedIn
    ensures target.Some? ==> target.value == "Dashboard"
  {
    if o == LoggedIn then Some("Dashboard") else None
  }

  /** Each outcome has its own message, so the user can tell them apart. */
  lemma AlertsDistinct(o1: LoginOutcome, o2: LoginOutcome)
    requires o1 != o2
    ensures AlertFor(o1) != AlertFor(o2)
  {
  }

  /** Navigation to the dashboard happens exactly when both inputs are given
      and match the stored pair. */
  lemma NavigatesOnlyOnMatch(email: string, password: string, stored: StoredUser)
    ensures NavigationFor(HandleLogin(email, password, stored)) == Some("Dashboard")
        <==> email != "" && password != "" && stored == Record(email, password)
  {
  }
}
