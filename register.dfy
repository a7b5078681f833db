/** The registration form: its three fields, the validation chain run before
    anything is sent, and the handling of the `POST /auth/register` reply. */
module Register {
  import opened Backend
  import opened Forms

  const MIN_LENGTH := 6
  const USERNAME_TOO_SHORT := "Username must be at least 6 characters"
  const PASSWORD_TOO_SHORT := "Password must be at least 6 characters"
  const PASSWORDS_MISMATCH := "Passwords do not match"
  const REGISTERED := "Registered successfully"
  const LOGIN_PATH := "/login"

  /** The form's `formData` record. */
  datatype RegisterData = RegisterData(username: string, password: string, confirmPassword: string)

  /** The `name` attribute of each of the form's text fields. */
  datatype Field = Username | Password | ConfirmPassword

  function Get(d: RegisterData, f: Field): (v: string)
  {
    match f
    case Username => d.username
    case Password => d.password
    case ConfirmPassword => d.confirmPassword
  }

  /** `{ ...formData, [name]: value }`: the named field takes the new value
      and the other two keep theirs. */
  function SetField(d: RegisterData, name: Field, value: string): (r: RegisterData)
    ensures Get(r, name) == value
    ensures forall f :: f != name ==> Get(r, f) == Get(d, f)
  {
    match name
    case Username => d.(username := value)
    case Password => d.(password := value)
    case ConfirmPassword => d.(confirmPassword := value)
  }

  /** The checks of `validateInput`, in the order the code runs them. */
  function RegisterRules(d: RegisterData): (rules: seq<Rule>)
  {
    [ Rule(d.username != "", USERNAME_REQUIRED),
      Rule(|d.username| >= MIN_LENGTH, USERNAME_TOO_SHORT),
      Rule(d.password != "", PASSWORD_REQUIRED),
      Rule(|d.password| >= MIN_LENGTH, PASSWORD_TOO_SHORT),
      Rule(d.password == d.confirmPassword, PASSWORDS_MISMATCH) ]
  }

  /** `validateInput`: it passes exactly when the username and the password
      have at least six characters and the confirmation matches; otherwise it
      reports the first failing check of the chain. An empty username is
      reported as required, not as too short, and a mismatch is reported only
      when both fields are otherwise acceptable. */
  function ValidateInput(d: RegisterData): (r: Check)
    ensures r.Pass? <==> |d.username| >= MIN_LENGTH && |d.password| >= MIN_LENGTH && d.password == d.confirmPassword
    ensures d.username == "" ==> r == Fail(USERNAME_REQUIRED)
    ensures r == Fail(PASSWORDS_MISMATCH) <==>
      |d.username| >= MIN_LENGTH && |d.password| >= MIN_LENGTH && d.password != d.confirmPassword
  {
    if d.username == "" then Fail(USERNAME_REQUIRED)
    else if |d.username| < MIN_LENGTH then Fail(USERNAME_TOO_SHORT)
    else if d.password == "" then Fail(PASSWORD_REQUIRED)
    else if |d.password| < MIN_LENGTH then Fail(PASSWORD_TOO_SHORT)
    else if d.password != d.confirmPassword then Fail(PASSWORDS_MISMATCH)
    else Pass
  }

  /** The early returns of `validateInput` are the first-failure reading of
      its list of checks. */
  lemma ValidateInputIsFirstFailure(d: RegisterData)
    ensures ValidateInput(d) == FirstFailure(RegisterRules(d))
  {
    var rules := RegisterRules(d);
    FirstFailureUnfold(rules);
    FirstFailureUnfold(rules[1..]);
    FirstFailureUnfold(rules[2..]);
    FirstFailureUnfold(rules[3..]);
    FirstFailureUnfold(rules[4..]);
    assert rules[1..][1..] == rules[2..];
    assert rules[2..][1..] == rules[3..];
    assert rules[3..][1..] == rules[4..];
    assert rules[4..][1..] == [];
  }

  /** Everything one `handleRegister` does besides the loading flag: the
      request it sends, the one notice it shows, and where it navigates. */
  datatype RegisterEffect = RegisterEffect(request: Option<Request>, notice: Notice, navigate: Option<string>)

  /** `handleRegister`: a request is sent exactly when validation passes, and
      its body holds the username and password only. Every call shows exactly
      one notice: the validation warning, the success message (and then the
      page moves to the login route), the server's message for a 400 reply, or
      the generic error. */
  function HandleRegisterEffect(d: RegisterData, reply: Http<()>): (e: RegisterEffect)
    ensures e.request.Some? <==> ValidateInput(d).Pass?
    ensures e.request.Some? ==> e.request.value == PostRegister(d.username, d.password)
    ensures ValidateInput(d).Fail? ==> e.notice == Notice(ValidateInput(d).message, Warning)
    ensures e.navigate.Some? <==> e.request.Some? && reply.Ok?
    ensures e.navigate.Some? ==> e.navigate.value == LOGIN_PATH && e.notice == Notice(REGISTERED, Success)
    ensures e.request.Some? && !reply.Ok? ==> e.notice == AuthFailureNotice(reply)
  {
    match ValidateInput(d)
    case Fail(message) => RegisterEffect(None, Notice(message, Warning), None)
    case Pass =>
      var post := PostRegister(d.username, d.password);
      if reply.Ok? then RegisterEffect(Some(post), Notice(REGISTERED, Success), Some(LOGIN_PATH))
      else RegisterEffect(Some(post), AuthFailureNotice(reply), None)
  }

  class RegisterPage {
    var formData: RegisterData
    var loading: bool
    var notices: seq<Notice>       // every snackbar shown, in order
    var requests: seq<Request>     // every request sent, in order
    var history: seq<string>       // every `history.push`, in order

    /** The first render: empty fields, not loading. */
    constructor ()
      ensures formData == RegisterData("", "", "") && !loading
      ensures notices == [] && requests == [] && history == []
    {
      formData := RegisterData("", "", "");
      loading := false;
      notices := [];
      requests := [];
      history := [];
    }

    /** `handleInputChange`: only the field the event names changes. */
    method HandleInputChange(name: Field, value: string)
      modifies this`formData
      ensures formData == SetField(old(formData), name, value)
    {
      formData := SetField(formData, name, value);
    }

    /** `handleRegister`: validate, then post the credentials; the form data
        is left as it is and loading is over afterwards in every case. */
    method HandleRegister(reply: Http<()>)
      modifies this`loading, this`notices, this`requests, this`history
      ensures var e := HandleRegisterEffect(formData, reply);
        && requests == old(requests) + AsLog(e.request)
        && notices == old(notices) + [e.notice]
        && history == old(history) + AsLog(e.navigate)
      ensures !loading
    {
      var check := ValidateInput(formData);
      if check.Pass? {
        loading := true;
        requests := requests + [PostRegister(formData.username, formData.password)];
        match reply {
          case Ok(_, _) =>
            notices := notices + [Notice(REGISTERED, Success)];
            history := history + [LOGIN_PATH];
          case _ =>
            notices := notices + [AuthFailureNotice(reply)];
        }
      } else {
        notices := notices + [Notice(check.message, Warning)];
      }
      loading := false;
    }
  }
}
