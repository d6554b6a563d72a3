/** The login page (client-side/src/pages/auth/Login.jsx): an already signed-in browser
    goes straight to the admin area; a login stores the session or explains, in one of
    four ways, why it failed. */
module Login {
  import opened Shared
  import opened Api

  const AuthPath := "/auth/login"
  const ServerErrorText := "Terjadi kesalahan server."
  const UnreachableText := "Tidak dapat terhubung ke server."

  /** `response.data.data` of a login: the token and the user. */
  datatype Credentials = Credentials(token: string, user: User)

  /** The four ways a login fails. */
  datatype LoginError =
    | Invalid(errors: Errors)     // 422: field-keyed validation messages
    | Rejected(message: string)   // 401: the server's own message
    | ServerError                 // any other status
    | Unreachable                 // no response at all

  function LoginRequest(email: string, password: string): Request {
    Request(Post, AuthPath, Json([("email", Text(email)), ("password", Text(password))]), map[])
  }

  /** How a login ended: `None` when the answer carried credentials. An answer without
      them fails while it is read, with no response attached, so it counts as
      unreachable. */
  function Classify(answer: Outcome<Reply<Credentials>>): (r: Option<LoginError>)
    ensures r.None? <==> answer.Ok? && answer.body.Reply? && answer.body.data.Some?
    ensures answer.HasStatus(422) ==> r == Some(Invalid(answer.error.errors))
    ensures answer.HasStatus(401) ==> r == Some(Rejected(answer.error.message))
    ensures answer.HttpErr? && answer.status != 422 && answer.status != 401 ==> r == Some(ServerError)
    ensures r == Some(Unreachable) <==>
              answer.NoResponse? || (answer.Ok? && !(answer.body.Reply? && answer.body.data.Some?))
  {
    match answer
    case Ok(Reply(_, Some(_))) => None
    case Ok(_) => Some(Unreachable)
    case NoResponse => Some(Unreachable)
    case HttpErr(status, error) =>
      if status == 422 then Some(Invalid(error.errors))
      else if status == 401 then Some(Rejected(error.message))
      else Some(ServerError)
  }

  /** The `loginFailed` text of a failure; a validation failure shows none. */
  function FailedText(e: LoginError): (t: string)
    ensures e.Invalid? ==> t == ""
    ensures e.Rejected? ==> t == e.message
    ensures e.ServerError? ==> t == ServerErrorText
    ensures e.Unreachable? ==> t == UnreachableText
  {
    match e
    case Invalid(_) => ""
    case Rejected(message) => message
    case ServerError => ServerErrorText
    case Unreachable => UnreachableText
  }

  /** The validation map a login leaves: the server's for a 422, empty otherwise. */
  function ValidationOf(r: Option<LoginError>): Errors {
    if r.Some? && r.value.Invalid? then r.value.errors else map[]
  }

  class LoginForm {
    const api: Client
    var email: string
    var password: string
    var validation: Errors
    var loginFailed: string
    var isLoading: bool

    constructor (api: Client)
      ensures this.api == api
      ensures email == "" && password == "" && validation == map[] && loginFailed == "" && !isLoading
    {
      this.api := api;
      email := "";
      password := "";
      validation := map[];
      loginFailed := "";
      isLoading := false;
    }

    /** The mount effect: a stored token sends the browser to the admin area. */
    method Mount()
      modifies api`location
      ensures Truthy(api.session.token) ==> api.location == AdminPath
      ensures !Truthy(api.session.token) ==> api.location == old(api.location)
    {
      if Truthy(api.session.token) {
        api.location := AdminPath;
      }
    }

    /** `handleLogin`: credentials become the stored session and the browser moves to
        the admin area; a failure is shown as its classification says; loading ends
        in every case. */
    method HandleLogin(answer: Outcome<Reply<Credentials>>)
      modifies this`validation, this`loginFailed, this`isLoading, api
      ensures var after := Exchange(old(api.Snapshot()), LoginRequest(email, password), answer);
        api.Snapshot() ==
          if Classify(answer).None?
          then after.(session := Session(Some(answer.body.data.value.token), Some(answer.body.data.value.user)),
                      location := AdminPath)
          else after
      ensures validation == ValidationOf(Classify(answer))
      ensures loginFailed == if Classify(answer).None? then "" else FailedText(Classify(answer).value)
      ensures !isLoading
    {
      isLoading := true;
      validation := map[];
      loginFailed := "";
      var r := api.Send(Request(Post, AuthPath, Json([("email", Text(email)), ("password", Text(password))]), map[]), answer);
      match r {
      case Ok(Reply(_, Some(credentials))) =>
        api.session := api.session.(token := Some(credentials.token));
        api.session := api.session.(user := Some(credentials.user));
        api.location := AdminPath;
      case Ok(_) =>
        loginFailed := UnreachableText;
      case NoResponse =>
        loginFailed := UnreachableText;
      case HttpErr(status, error) =>
        if status == 422 {
          validation := error.errors;
        } else if status == 401 {
          loginFailed := error.message;
        } else {
          loginFailed := ServerErrorText;
        }
      }
      isLoading := false;
    }
  }
}
