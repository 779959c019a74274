/** The authentication screen: one form in two modes, login and signup. The mode picks the
    endpoint the credentials go to and the route a success leads to. */
module SignupAndLogin {
  import opened Requests

  const LoginPath := "/api/login"
  const DashboardRoute := "/dashboard"
  const LoginRoute := "/login"

  /** What became of the submission: a 2xx response whose body parsed, a non-2xx response,
      or an exception (a failed `fetch` or an unparsable body) carrying its message. */
  datatype Response = Ok | NotOk | Thrown(message: string)

  const NotOkMessage := "Network response was not ok"
  const ErrorPrefix := "Error: "
  const UnknownError := "Unknown error"

  /** The endpoint of a submission in the given mode. */
  function Endpoint(isLogin: bool): string {
    if isLogin then LoginPath else SignupPath
  }

  /** The route a successful submission navigates to. */
  function Destination(isLogin: bool): string {
    if isLogin then DashboardRoute else LoginRoute
  }

  /** The two modes never share an endpoint or a destination. */
  lemma ModesDiffer()
    ensures Endpoint(true) != Endpoint(false)
    ensures Destination(true) != Destination(false)
  {
  }

  /** The message of the error a failed submission raised. */
  function Message(r: Response): string
    requires !r.Ok?
  {
    match r
    case NotOk => NotOkMessage
    case Thrown(m) => m
  }

  /** `'Error: ' + (err.message || 'Unknown error')`: the prefix followed by the message, or
      by `'Unknown error'` when the message is empty; the text after the prefix is never empty. */
  function ErrorText(r: Response): (e: string)
    requires !r.Ok?
    ensures |e| > |ErrorPrefix| && e[..|ErrorPrefix|] == ErrorPrefix
    ensures Message(r) != "" ==> e[|ErrorPrefix|..] == Message(r)
    ensures Message(r) == "" ==> e == ErrorPrefix + UnknownError
    ensures r.NotOk? ==> e == ErrorPrefix + NotOkMessage
  {
    var m := Message(r);
    var detail := if m == "" then UnknownError else m;
    assert (ErrorPrefix + detail)[..|ErrorPrefix|] == ErrorPrefix;
    assert (ErrorPrefix + detail)[|ErrorPrefix|..] == detail;
    ErrorPrefix + detail
  }

  /** The state slots of the authentication screen. */
  class AuthScreen {
    var isLogin: bool
    var username: string
    var password: string
    var error: string

    /** The screen takes no props: whatever mode the route asks for, it starts in login mode
        with an empty form. */
    constructor ()
      ensures isLogin && username == "" && password == "" && error == ""
    {
      isLogin := true;
      username := "";
      password := "";
      error := "";
    }

    /** The button below the form flips the mode. */
    method ToggleMode()
      modifies this`isLogin
      ensures isLogin == !old(isLogin)
    {
      isLogin := !isLogin;
    }

    method SetUsername(v: string)
      modifies this`username
      ensures username == v
    {
      username := v;
    }

    method SetPassword(v: string)
      modifies this`password
      ensures password == v
    {
      password := v;
    }

    /** `handleSubmit`: POST the credentials to the mode's endpoint; a success navigates to
        the mode's destination, a failure sets the error. The form and the mode are left
        as they are. */
    method HandleSubmit(response: Response) returns (req: Request<Credentials>, navigateTo: Option<string>)
      modifies this`error
      ensures req == Post(Endpoint(isLogin), Credentials(username, password))
      ensures response.Ok? ==> navigateTo == Some(Destination(isLogin)) && error == old(error)
      ensures !response.Ok? ==> navigateTo == None && error == ErrorText(response)
    {
      req := Post(Endpoint(isLogin), Credentials(username, password));
      if response.Ok? {
        navigateTo := Some(Destination(isLogin));
      } else {
        navigateTo := None;
        error := ErrorText(response);
      }
    }
  }

  /** Two presses of the mode button restore the mode. */
  method ToggleTwice(s: AuthScreen)
    modifies s
    ensures s.isLogin == old(s.isLogin)
    ensures s.username == old(s.username) && s.password == old(s.password) && s.error == old(s.error)
  {
    s.ToggleMode();
    s.ToggleMode();
  }
}
