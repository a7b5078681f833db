/** The login form: its two fields, the validation run before submitting, the
    handling of the `POST /auth/login` reply, and the session it stores in
    local storage (a map from key to text). */
module Login {
  import opened Backend
  import opened Forms

  const LOGGED_IN := "Logged in successfully"
  const SOMETHING_WRONG := "Something went wrong. Check that the backend is running, reachable, and returns valid JSON."
  const HOME_PATH := "/"
  const TOKEN_KEY := "token"
  const USERNAME_KEY := "username"
  const BALANCE_KEY := "balance"

  /** The form's `formData` record, which is also the body of the request. */
  datatype LoginData = LoginData(username: string, password: string)

  /** The `name` attribute of each of the form's text fields. */
  datatype Field = Username | Password

  /** The body of a successful login reply. The balance is kept as the text
      local storage ends up holding. */
  datatype LoginResponse = LoginResponse(token: string, username: string, balance: string)

  function Get(d: LoginData, f: Field): (v: string)
  {
    match f
    case Username => d.username
    case Password => d.password
  }

  /** `{ ...formData, [name]: value }`: the named field takes the new value
      and the other keeps its own. */
  function SetField(d: LoginData, name: Field, value: string): (r: LoginData)
    ensures Get(r, name) == value
    ensures forall f :: f != name ==> Get(r, f) == Get(d, f)
  {
    match name
    case Username => d.(username := value)
    case Password => d.(password := value)
  }

  /** The checks of `validateInput`, in the order the code runs them. */
  function LoginRules(d: LoginData): (rules: seq<Rule>)
  {
    [ Rule(d.username != "", USERNAME_REQUIRED),
      Rule(d.password != "", PASSWORD_REQUIRED) ]
  }

  /** `validateInput`: it passes exactly when both fields are non-empty; the
      username is checked first, so when both are empty only the username
      warning is shown. */
  function ValidateInput(d: LoginData): (r: Check)
    ensures r.Pass? <==> d.username != "" && d.password != ""
    ensures d.username == "" ==> r == Fail(USERNAME_REQUIRED)
    ensures d.username != "" && d.password == "" ==> r == Fail(PASSWORD_REQUIRED)
  {
    if d.username == "" then Fail(USERNAME_REQUIRED)
    else if d.password == "" then Fail(PASSWORD_REQUIRED)
    else Pass
  }

  /** The early returns of `validateInput` are the first-failure reading of
      its list of checks. */
  lemma ValidateInputIsFirstFailure(d: LoginData)
    ensures ValidateInput(d) == FirstFailure(LoginRules(d))
  {
    var rules := LoginRules(d);
    FirstFailureUnfold(rules);
    FirstFailureUnfold(rules[1..]);
    assert rules[1..][1..] == [];
  }

  /** `persistLogin`: the three session keys hold the given values and every
      other key keeps its value. */
  function Persist(storage: map<string, string>, token: string, username: string, balance: string): (r: map<string, string>)
    ensures r.Keys == storage.Keys + {TOKEN_KEY, USERNAME_KEY, BALANCE_KEY}
    ensures r[TOKEN_KEY] == token && r[USERNAME_KEY] == username && r[BALANCE_KEY] == balance
    ensures forall k :: k in storage && k != TOKEN_KEY && k != USERNAME_KEY && k != BALANCE_KEY ==> r[k] == storage[k]
  {
    storage[TOKEN_KEY := token][USERNAME_KEY := username][BALANCE_KEY := balance]
  }

  /** Everything one `login` does besides the loading flag and the request:
      the session it stores, the one notice it shows, and where it navigates. */
  datatype LoginEffect = LoginEffect(persist: Option<LoginResponse>, notice: Notice, navigate: Option<string>)

  /** `login`: only a 201 reply stores a session; it then greets the user and
      goes to the home page. Another success status shows the "something went
      wrong" error; a rejection shows the server's message for 400 and the
      generic error otherwise. Nothing but a 201 stores anything or moves. */
  function LoginEffectOf(reply: Http<LoginResponse>): (e: LoginEffect)
    ensures e.persist.Some? <==> reply.Ok? && reply.status == 201
    ensures e.navigate.Some? <==> e.persist.Some?
    ensures e.persist.Some? ==>
      e.persist.value == reply.data && e.notice == Notice(LOGGED_IN, Success) && e.navigate.value == HOME_PATH
    ensures reply.Ok? && reply.status != 201 ==> e.notice == Notice(SOMETHING_WRONG, Error)
    ensures !reply.Ok? ==> e.notice == AuthFailureNotice(reply)
  {
    match reply
    case Ok(status, data) =>
      if status == 201 then LoginEffect(Some(data), Notice(LOGGED_IN, Success), Some(HOME_PATH))
      else LoginEffect(None, Notice(SOMETHING_WRONG, Error), None)
    case _ => LoginEffect(None, AuthFailureNotice(reply), None)
  }

  /** The session a login effect leaves in storage. */
  function StoredAfter(storage: map<string, string>, e: LoginEffect): (r: map<string, string>)
  {
    if e.persist.Some? then Persist(storage, e.persist.value.token, e.persist.value.username, e.persist.value.balance)
    else storage
  }

  class LoginPage {
    var formData: LoginData
    var loading: bool
    var errors: map<string, string>    // the `errors` state; validation only ever stores `{}`
    var notices: seq<Notice>           // every snackbar shown, in order
    var requests: seq<Request>         // every request sent, in order
    var history: seq<string>           // every `history.push`, in order
    var storage: map<string, string>   // `localStorage`

    /** The first render: empty fields, not loading, no field errors. */
    constructor (storage: map<string, string>)
      ensures formData == LoginData("", "") && !loading && errors == map[]
      ensures notices == [] && requests == [] && history == [] && this.storage == storage
    {
      formData := LoginData("", "");
      loading := false;
      errors := map[];
      notices := [];
      requests := [];
      history := [];
      this.storage := storage;
    }

    /** `handleInputChange`: only the field the event names changes. */
    method HandleInputChange(name: Field, value: string)
      modifies this`formData
      ensures formData == SetField(old(formData), name, value)
    {
      formData := SetField(formData, name, value);
    }

    /** `persistLogin`: three writes to local storage, one per session key. */
    method PersistLogin(token: string, username: string, balance: string)
      modifies this`storage
      ensures storage == Persist(old(storage), token, username, balance)
    {
      storage := storage[TOKEN_KEY := token];
      storage := storage[USERNAME_KEY := username];
      storage := storage[BALANCE_KEY := balance];
    }

    /** `login(data)`: one request carrying the form data, then the reply is
        classified; loading is over afterwards in every case. */
    method Login(data: LoginData, reply: Http<LoginResponse>)
      modifies this`loading, this`notices, this`requests, this`history, this`storage
      ensures requests == old(requests) + [PostLogin(data.username, data.password)]
      ensures var e := LoginEffectOf(reply);
        && storage == StoredAfter(old(storage), e)
        && notices == old(notices) + [e.notice]
        && history == old(history) + AsLog(e.navigate)
      ensures !loading
    {
      loading := true;
      requests := requests + [PostLogin(data.username, data.password)];
      match reply {
        case Ok(status, body) =>
          if status == 201 {
            PersistLogin(body.token, body.username, body.balance);
            notices := notices + [Notice(LOGGED_IN, Success)];
            history := history + [HOME_PATH];
          } else {
            notices := notices + [Notice(SOMETHING_WRONG, Error)];
          }
        case _ =>
          notices := notices + [AuthFailureNotice(reply)];
      }
      loading := false;
    }

    /** `handleSubmit`: `login` runs only when validation passes; otherwise
        the one validation warning is shown and nothing else changes. */
    method HandleSubmit(reply: Http<LoginResponse>)
      modifies this`errors, this`loading, this`notices, this`requests, this`history, this`storage
      ensures var check := ValidateInput(formData);
        if check.Fail? then
          && notices == old(notices) + [Notice(check.message, Warning)]
          && requests == old(requests) && history == old(history) && storage == old(storage)
          && errors == old(errors) && loading == old(loading)
        else
          var e := LoginEffectOf(reply);
          && errors == map[]
          && requests == old(requests) + [PostLogin(formData.username, formData.password)]
          && storage == StoredAfter(old(storage), e)
          && notices == old(notices) + [e.notice]
          && history == old(history) + AsLog(e.navigate)
          && !loading
    {
      var check := ValidateInput(formData);
      if check.Fail? {
        notices := notices + [Notice(check.message, Warning)];
        return;
      }
      errors := map[];
      Login(formData, reply);
    }
  }
}
