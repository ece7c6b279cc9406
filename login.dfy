/** The login and registration form: its field updates, the validator with its fixed order of
    checks, the endpoint choice and the rule that picks the message shown after a submit. */
module LoginForm {
  import opened Api

  datatype FormData = FormData(username: string, password: string, confirmPassword: string)

  /** The `name` attributes of the form's inputs. */
  datatype FormField = Username | Password | ConfirmPassword

  /** The body posted to the server: the confirmation is never sent. */
  datatype Credentials = Credentials(username: string, password: string)

  datatype LoginRequest = LoginRequest(endpoint: string, body: Credentials)

  /** `response.data` of a reply with a 2xx status. */
  datatype LoginResponse = LoginResponse(success: bool, data: UserData, message: string)

  /** What a submit that reached the server ends in: the user handed to `onLogin`, or the message shown. */
  datatype SubmitResult = SignedIn(user: UserData) | Failed(message: string)

  const EmptyForm := FormData("", "", "")

  const EmptyFields := "用户名和密码不能为空"
  const PasswordMismatch := "两次密码输入不一致"
  const SubmitFailed := "登录失败，请重试"

  const RegisterEndpoint := "/api/register"
  const LoginEndpoint := "/api/login"

  function FieldOf(f: FormData, name: FormField): string
  {
    match name
    case Username => f.username
    case Password => f.password
    case ConfirmPassword => f.confirmPassword
  }

  /** `{...formData, [e.target.name]: e.target.value}`. */
  function WithField(f: FormData, name: FormField, value: string): (r: FormData)
    ensures FieldOf(r, name) == value
    ensures forall other :: other != name ==> FieldOf(r, other) == FieldOf(f, other)
  {
    match name
    case Username => f.(username := value)
    case Password => f.(password := value)
    case ConfirmPassword => f.(confirmPassword := value)
  }

  /** The decision `validateForm` makes: None when the form passes, otherwise the message it sets. */
  function Validate(f: FormData, isRegistering: bool): (verdict: Option<string>)
    ensures verdict.None? <==>
              f.username != "" && f.password != "" && (isRegistering ==> f.password == f.confirmPassword)
    ensures verdict == Some(EmptyFields) <==> f.username == "" || f.password == ""
    ensures verdict == Some(PasswordMismatch) <==>
              f.username != "" && f.password != "" && isRegistering && f.password != f.confirmPassword
  {
    if f.username == "" || f.password == "" then Some(EmptyFields)
    else if isRegistering && f.password != f.confirmPassword then Some(PasswordMismatch)
    else None
  }

  /** An empty field is reported in both modes alike, even when the confirmation also differs; a
      form that fails only on the confirmation passes in login mode, which ignores the confirmation. */
  lemma ValidateOrder(f: FormData, confirm: string)
    ensures f.username == "" || f.password == "" ==> Validate(f, true) == Validate(f, false)
    ensures Validate(f, true) == Some(PasswordMismatch) ==> Validate(f, false).None?
    ensures Validate(f, false) == Validate(f.(confirmPassword := confirm), false)
  {
  }

  /** The endpoint follows the mode. */
  function Endpoint(isRegistering: bool): (url: string)
    ensures url == RegisterEndpoint <==> isRegistering
    ensures url in {RegisterEndpoint, LoginEndpoint}
  {
    if isRegistering then RegisterEndpoint else LoginEndpoint
  }

  /** The post a valid form sends: the endpoint of the mode, and the two credentials only. */
  function SubmitRequest(f: FormData, isRegistering: bool): (req: LoginRequest)
    ensures req.endpoint == RegisterEndpoint <==> isRegistering
    ensures req.body.username == f.username && req.body.password == f.password
  {
    LoginRequest(Endpoint(isRegistering), Credentials(f.username, f.password))
  }

  /** The two modes post to different endpoints, and the request carries username and password only. */
  lemma SubmitRequestShape(f: FormData, isRegistering: bool, confirm: string)
    ensures Endpoint(true) != Endpoint(false)
    ensures SubmitRequest(f, isRegistering).endpoint == (if isRegistering then "/api/register" else "/api/login")
    ensures SubmitRequest(f.(confirmPassword := confirm), isRegistering) == SubmitRequest(f, isRegistering)
  {
  }

  /** How a reply ends the submit: `success` signs in; `success = false` shows the server's message;
      a thrown request shows `err.response.data.message`, or the fallback when that is missing or
      empty (the `||` treats the empty string as absent). */
  function Result(reply: Reply<LoginResponse>): (r: SubmitResult)
    ensures r.SignedIn? <==> reply.Ok? && reply.payload.success
    ensures reply.Err? ==> r.message != ""
  {
    match reply
    case Ok(resp) => if resp.success then SignedIn(resp.data) else Failed(resp.message)
    case Err(m) => Failed(if m.Some? && m.value != "" then m.value else SubmitFailed)
  }

  /** Which user signs in and which message is shown: the reply's user, the server's message on
      `success = false`, and on a thrown request the server's own message when it sent a non-empty
      one, else the fallback. */
  lemma ResultCases(reply: Reply<LoginResponse>)
    ensures Result(reply).SignedIn? ==> Result(reply).user == reply.payload.data
    ensures reply.Ok? && !reply.payload.success ==> Result(reply) == Failed(reply.payload.message)
    ensures reply.Err? && reply.message.Some? && reply.message.value != "" ==> Result(reply) == Failed(reply.message.value)
    ensures reply.Err? && (reply.message.None? || reply.message.value == "") ==> Result(reply) == Failed(SubmitFailed)
  {
  }

  /** The component's state: `formData`, `isRegistering`, `error`, `loading`. */
  class Login {
    var formData: FormData
    var isRegistering: bool
    var error: string
    var loading: bool

    constructor ()
      ensures formData == EmptyForm && !isRegistering && error == "" && !loading
    {
      formData := EmptyForm;
      isRegistering := false;
      error := "";
      loading := false;
    }

    /** `handleChange`: only the named field changes. */
    method HandleChange(name: FormField, value: string)
      modifies this`formData
      ensures formData == WithField(old(formData), name, value)
    {
      formData := WithField(formData, name, value);
    }

    /** `validateForm`: sets the message of the first failing check; a passing form keeps `error`. */
    method ValidateForm() returns (ok: bool)
      modifies this`error
      ensures ok <==> Validate(formData, isRegistering).None?
      ensures ok ==> error == old(error)
      ensures !ok ==> error == Validate(formData, isRegistering).value
    {
      var verdict := Validate(formData, isRegistering);
      if verdict.Some? {
        error := verdict.value;
        return false;
      }
      return true;
    }

    /** `handleSubmit`: clear the error, validate, and only then post; returns the request it sent
        and the user it handed to `onLogin`. */
    method HandleSubmit(reply: Reply<LoginResponse>) returns (req: Option<LoginRequest>, signedIn: Option<UserData>)
      modifies this`error, this`loading
      ensures Validate(formData, isRegistering).Some? ==>
                req == None && signedIn == None && loading == old(loading)
                && error == Validate(formData, isRegistering).value
      ensures Validate(formData, isRegistering).None? ==>
                req == Some(SubmitRequest(formData, isRegistering)) && !loading
      ensures Validate(formData, isRegistering).None? && Result(reply).SignedIn? ==>
                signedIn == Some(Result(reply).user) && error == ""
      ensures Validate(formData, isRegistering).None? && Result(reply).Failed? ==>
                signedIn == None && error == Result(reply).message
    {
      error := "";
      var ok := ValidateForm();
      if !ok {
        req, signedIn := None, None;
        return;
      }
      loading := true;
      req := Some(SubmitRequest(formData, isRegistering));
      match Result(reply) {
        case SignedIn(user) =>
          signedIn := Some(user);
        case Failed(message) =>
          signedIn := None;
          error := message;
      }
      loading := false;
    }

    /** The mode link: flips between logging in and registering. */
    method ToggleMode()
      modifies this`isRegistering
      ensures isRegistering == !old(isRegistering)
    {
      isRegistering := !isRegistering;
    }
  }
}
