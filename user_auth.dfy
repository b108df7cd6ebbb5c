/** `UserAuth`: registration, login, logout and the current-user query, which talk to
    the server with `requests` directly, and the input checks of the interactive
    register and login flows. */
module Auth {
  import opened Wrappers
  import opened Json
  import Text
  import Api

  const DefaultBaseUrl: string := "http://localhost:9380"

  /** A request `UserAuth` sends itself (not through the client's session). */
  datatype HttpCall = HttpCall(verb: Api.Verb, url: string, body: Option<Json>, authorization: Option<Json>)

  /** How one `requests` call went: a ConnectionError, any other exception (with the
      text `str(e)` gives), or a response with its status and what `response.json()`
      made of the body. */
  datatype Exchange = CannotConnect | Failure(detail: string) | Answer(status: int, body: Decoded)

  /** `response.json()`: the decoded value, or the text of the ValueError it raised. */
  datatype Decoded = Parsed(value: Json) | NotJson(detail: string)

  const ConnectionMessage: string := "无法连接到服务器，请检查API服务是否启动"

  /** `str(e)` of the AttributeError that `.get` on a non-dict raises. */
  function NoGetText(v: Json): string {
    "'" + TypeName(v) + "' object has no attribute 'get'"
  }

  function HttpErrorText(status: int): string {
    "HTTP错误: " + Text.IntToDecimal(status)
  }

  /** The envelope of a 200 answer, or the text of the exception reading it raises. */
  function Envelope(body: Decoded): Result<Dict, string> {
    match body
    case NotJson(d) => Err(d)
    case Parsed(v) => if v.JObj? then Ok(v.fields) else Err(NoGetText(v))
  }

  /** `data.get('code') == 0`, in Python's equality (so `false` counts as 0). */
  predicate CodeIsZero(data: Dict) {
    EqInt(GetOr(data, "code", JNull), 0)
  }

  /** What `register_user` returns. */
  datatype Registration = Registration(success: bool, message: Json)

  /** `register_user(email, password, nickname)`: `cipher` is what
      `encrypt_password(password)` produced (or the text of its exception), `ex` how
      the POST went. The request is sent only when encryption succeeded. */
  function Register(base: string, email: string, cipher: Result<string, string>, nickname: string, ex: Exchange)
    : (Registration, Option<HttpCall>)
  {
    match cipher
    case Err(d) => (Registration(false, JStr("注册过程中发生错误: " + d)), None)
    case Ok(c) =>
      var call := HttpCall(Api.POST, base + "/v1/user/register",
        Some(JObj([Field("email", JStr(email)), Field("password", JStr(c)), Field("nickname", JStr(nickname))])), None);
      var r := match ex
        case CannotConnect => Registration(false, JStr(ConnectionMessage))
        case Failure(d) => Registration(false, JStr("注册过程中发生错误: " + d))
        case Answer(status, body) =>
          if status != 200 then Registration(false, JStr(HttpErrorText(status)))
          else match Envelope(body)
            case Err(d) => Registration(false, JStr("注册过程中发生错误: " + d))
            case Ok(data) =>
              if CodeIsZero(data) then Registration(true, JStr("注册成功"))
              else Registration(false, GetOr(data, "message", JStr("注册失败")));
      (r, Some(call))
  }

  /** Registration succeeds exactly on status 200 with a dict envelope whose code is
      0; a refusal carries the server's message or `注册失败`, another status its
      `HTTP错误` text, and a failed encryption sends nothing. */
  lemma RegisterOutcome(base: string, email: string, cipher: Result<string, string>, nickname: string, ex: Exchange)
    ensures var (r, sent) := Register(base, email, cipher, nickname, ex);
      && (r.success <==> cipher.Ok? && ex.Answer? && ex.status == 200 && Envelope(ex.body).Ok? && CodeIsZero(Envelope(ex.body).value))
      && (sent.Some? <==> cipher.Ok?)
      && (cipher.Ok? && ex.Answer? && ex.status != 200 ==> r.message == JStr(HttpErrorText(ex.status)))
      && (cipher.Ok? && ex.Answer? && ex.status == 200 && Envelope(ex.body).Ok? && !CodeIsZero(Envelope(ex.body).value) ==>
            r.message == GetOr(Envelope(ex.body).value, "message", JStr("注册失败")))
  {
  }

  /** The user `login_user` records. */
  datatype CurrentUser = CurrentUser(email: string, nickname: Json, token: Json)

  /** What `login_user` returns, and the user it logs in when it succeeds. */
  datatype Login = Login(success: bool, message: Json, token: Option<Json>, user: Option<CurrentUser>)

  /** The branch of `login_user` a 200 answer with envelope `data` takes. */
  function LoginAnswer(email: string, data: Dict): Login {
    if !CodeIsZero(data) then Login(false, GetOr(data, "message", JStr("登录失败")), None, None)
    else
      var info := GetOr(data, "data", JObj([]));
      if !info.JObj? then Login(false, JStr("登录过程中发生错误: " + NoGetText(info)), None, None)
      else
        var token := GetOr(info.fields, "access_token", JNull);
        var nickname := GetOr(info.fields, "nickname", JStr(email));
        if Truthy(token) then Login(true, JStr("登录成功"), Some(token), Some(CurrentUser(email, nickname, token)))
        else Login(false, JStr("登录响应中没有找到认证令牌"), None, None)
  }

  /** `login_user(email, password)` as a value: `cipher` is the encrypted password
      (or the text of the exception encryption raised), `ex` how the POST went. */
  function LoginVerdict(email: string, cipher: Result<string, string>, ex: Exchange): (r: Login)
    ensures r.success <==> r.user.Some?
    ensures r.success ==> r.token.Some? && r.user.value.token == r.token.value && Truthy(r.token.value)
    ensures !r.success ==> r.token.None?
  {
    match cipher
    case Err(d) => Login(false, JStr("登录过程中发生错误: " + d), None, None)
    case Ok(_) =>
      match ex
      case CannotConnect => Login(false, JStr(ConnectionMessage), None, None)
      case Failure(d) => Login(false, JStr("登录过程中发生错误: " + d), None, None)
      case Answer(status, body) =>
        if status != 200 then Login(false, JStr(HttpErrorText(status)), None, None)
        else match Envelope(body)
          case Err(d) => Login(false, JStr("登录过程中发生错误: " + d), None, None)
          case Ok(data) => LoginAnswer(email, data)
  }

  /** Login succeeds exactly on status 200, code 0 and a truthy `access_token`; the
      user then recorded has the email given, the server's nickname (the email when
      there is none) and the token. */
  lemma LoginSucceeds(email: string, cipher: Result<string, string>, ex: Exchange)
    ensures var r := LoginVerdict(email, cipher, ex);
      r.success <==>
        && cipher.Ok? && ex.Answer? && ex.status == 200 && Envelope(ex.body).Ok?
        && CodeIsZero(Envelope(ex.body).value)
        && GetOr(Envelope(ex.body).value, "data", JObj([])).JObj?
        && Truthy(GetOr(GetOr(Envelope(ex.body).value, "data", JObj([])).fields, "access_token", JNull))
    ensures var r := LoginVerdict(email, cipher, ex);
      r.success ==>
        var info := GetOr(Envelope(ex.body).value, "data", JObj([])).fields;
        r.user == Some(CurrentUser(email, GetOr(info, "nickname", JStr(email)), GetOr(info, "access_token", JNull)))
  {
  }

  /** The refusals: another status gives its `HTTP错误` text, a nonzero code the
      server's message (or `登录失败`), code 0 without a token a fixed text. */
  lemma LoginRefusals(email: string, c: string, status: int, data: Dict)
    ensures status != 200 ==>
      LoginVerdict(email, Ok(c), Answer(status, Parsed(JObj(data)))) == Login(false, JStr(HttpErrorText(status)), None, None)
    ensures !CodeIsZero(data) ==>
      LoginVerdict(email, Ok(c), Answer(200, Parsed(JObj(data)))) == Login(false, GetOr(data, "message", JStr("登录失败")), None, None)
    ensures (CodeIsZero(data) && GetOr(data, "data", JObj([])).JObj?
      && !Truthy(GetOr(GetOr(data, "data", JObj([])).fields, "access_token", JNull))) ==>
      LoginVerdict(email, Ok(c), Answer(200, Parsed(JObj(data)))) == Login(false, JStr("登录响应中没有找到认证令牌"), None, None)
  {
  }

  /** `check_server_status`: the server is up exactly when `/v1/system/config` answers 200. */
  function ServerUp(ex: Exchange): bool {
    ex.Answer? && ex.status == 200
  }

  /** The login state of one `UserAuth` object and the client whose session it
      updates. */
  class UserAuth {
    const baseUrl: string
    const client: Api.ApiClient
    var currentUser: Option<CurrentUser>
    var authToken: Json

    /** Logged in exactly when the token is truthy, and then the user holds that token
        and the client's session sends it. */
    ghost predicate Valid()
      reads this, client
    {
      && (currentUser.Some? <==> Truthy(authToken))
      && (currentUser.Some? ==> currentUser.value.token == authToken)
      && (Truthy(authToken) ==>
            Api.AuthorizationKey in client.headers && client.headers[Api.AuthorizationKey] == Api.Bearer(authToken))
    }

    constructor (baseUrl: string, client: Api.ApiClient)
      ensures Valid()
      ensures this.baseUrl == Text.StripEndChar(baseUrl, '/') && this.client == client
      ensures currentUser == None && authToken == JNull
    {
      this.baseUrl := Text.StripEndChar(baseUrl, '/');
      this.client := client;
      currentUser := None;
      authToken := JNull;
    }

    /** `register_user`: no state changes. */
    function RegisterUser(email: string, cipher: Result<string, string>, nickname: string, ex: Exchange)
      : (Registration, Option<HttpCall>)
      reads this
    {
      Register(baseUrl, email, cipher, nickname, ex)
    }

    /** `login_user`: on success the token and user are recorded and the client's
        session sends `Bearer <token>`; on any failure nothing changes. */
    method LoginUser(email: string, cipher: Result<string, string>, ex: Exchange)
      returns (success: bool, message: Json, token: Option<Json>, sent: Option<HttpCall>)
      requires Valid()
      modifies this, client`headers
      ensures Valid()
      ensures var v := LoginVerdict(email, cipher, ex);
        success == v.success && message == v.message && token == v.token
      ensures sent == if cipher.Ok? then
          Some(HttpCall(Api.POST, baseUrl + "/v1/user/login",
            Some(JObj([Field("email", JStr(email)), Field("password", JStr(cipher.value))])), None))
        else None
      ensures success ==> (authToken == token.value && currentUser == LoginVerdict(email, cipher, ex).user
        && client.headers == Api.WithToken(old(client.headers), token.value))
      ensures !success ==> (authToken == old(authToken) && currentUser == old(currentUser)
        && client.headers == old(client.headers))
      ensures client.baseUrl == old(client.baseUrl)
    {
      sent := None;
      if cipher.Ok? {
        sent := Some(HttpCall(Api.POST, baseUrl + "/v1/user/login",
          Some(JObj([Field("email", JStr(email)), Field("password", JStr(cipher.value))])), None));
      }
      var v := LoginVerdict(email, cipher, ex);
      success, message, token := v.success, v.message, v.token;
      if v.success {
        authToken := v.token.value;
        currentUser := v.user;
        client.SetAuthToken(v.token.value);
      }
    }

    /** `logout`: without a token nothing is sent and it fails; a 200 answer clears the
        user, the token and the client's Authorization; anything else keeps the state. */
    method Logout(ex: Exchange) returns (ok: bool, sent: Option<HttpCall>)
      requires Valid()
      modifies this, client`headers
      ensures Valid()
      ensures !Truthy(old(authToken)) ==> (!ok && sent.None? && authToken == old(authToken)
        && currentUser == old(currentUser) && client.headers == old(client.headers))
      ensures Truthy(old(authToken)) ==>
        sent == Some(HttpCall(Api.GET, baseUrl + "/v1/user/logout", None, Some(Api.Bearer(old(authToken)))))
      ensures Truthy(old(authToken)) ==> (ok <==> ServerUp(ex))
      ensures ok ==> currentUser.None? && authToken == JNull && client.headers == Api.WithoutToken(old(client.headers))
      ensures !ok ==> authToken == old(authToken) && currentUser == old(currentUser) && client.headers == old(client.headers)
    {
      if !Truthy(authToken) {
        return false, None;
      }
      sent := Some(HttpCall(Api.GET, baseUrl + "/v1/user/logout", None, Some(Api.Bearer(authToken))));
      if ex.Answer? && ex.status == 200 {
        currentUser := None;
        authToken := JNull;
        client.ClearAuthToken();
        ok := true;
      } else {
        ok := false;
      }
    }

    /** `get_current_user`: `None` without a token (nothing sent); otherwise the
        envelope's `data` for status 200 and code 0, else `None`. */
    function GetCurrentUser(ex: Exchange): (Json, Option<HttpCall>)
      reads this
    {
      if !Truthy(authToken) then (JNull, None)
      else
        var call := HttpCall(Api.GET, baseUrl + "/v1/user/info", None, Some(Api.Bearer(authToken)));
        if ex.Answer? && ex.status == 200 && Envelope(ex.body).Ok? && CodeIsZero(Envelope(ex.body).value)
        then (GetOr(Envelope(ex.body).value, "data", JNull), Some(call))
        else (JNull, Some(call))
    }
  }

  /** What `get_current_user` gives: nothing is asked while logged out; logged in,
      it sends a GET of `/v1/user/info` with the bearer token, and a 200 answer with
      code 0 yields its `data` (`None` when absent), any other answer `None`. */
  lemma CurrentUserQuery(a: UserAuth, ex: Exchange)
    ensures !Truthy(a.authToken) ==> a.GetCurrentUser(ex) == (JNull, None)
    ensures Truthy(a.authToken) ==>
      a.GetCurrentUser(ex).1 == Some(HttpCall(Api.GET, a.baseUrl + "/v1/user/info", None, Some(Api.Bearer(a.authToken))))
    ensures Truthy(a.authToken) && ex.Answer? && ex.status == 200 && Envelope(ex.body).Ok? && CodeIsZero(Envelope(ex.body).value) ==>
      a.GetCurrentUser(ex).0 == (if "data" in Keys(Envelope(ex.body).value) then Get(Envelope(ex.body).value, "data").value else JNull)
    ensures a.GetCurrentUser(ex).0 != JNull ==>
      ex.Answer? && ex.status == 200 && Envelope(ex.body).Ok? && CodeIsZero(Envelope(ex.body).value)
  {
  }

  /** Why an interactive flow stops before contacting the register or login endpoint. */
  datatype Rejection = EmailEmpty | PasswordEmpty | PasswordMismatch | NicknameEmpty

  /** The inputs of `interactive_register` once checked: email and nickname stripped,
      the password as typed. */
  datatype SignUp = SignUp(email: string, password: string, nickname: string)

  /** The checks of `interactive_register`, in the order the prompts come. */
  function CheckRegistration(email: string, password: string, confirm: string, nickname: string)
    : Result<SignUp, Rejection>
  {
    var e := Text.Strip(email);
    if e == [] then Err(EmailEmpty)
    else if password == [] then Err(PasswordEmpty)
    else if password != confirm then Err(PasswordMismatch)
    else if Text.Strip(nickname) == [] then Err(NicknameEmpty)
    else Ok(SignUp(e, password, Text.Strip(nickname)))
  }

  /** Registration input is accepted exactly when the email and nickname are not all
      whitespace, the password is not empty and the confirmation repeats it; the
      first failing check names the rejection. */
  lemma RegistrationChecks(email: string, password: string, confirm: string, nickname: string)
    ensures var r := CheckRegistration(email, password, confirm, nickname);
      && (r.Ok? <==> !Text.AllSpace(email) && password != [] && password == confirm && !Text.AllSpace(nickname))
      && (Text.AllSpace(email) ==> r == Err(EmailEmpty))
      && (!Text.AllSpace(email) && password == [] ==> r == Err(PasswordEmpty))
      && (r.Ok? ==> (r.value.password == password && r.value.email == Text.Strip(email)
            && r.value.nickname == Text.Strip(nickname) && r.value.email != [] && r.value.nickname != []))
  {
  }

  /** The checks of `interactive_login`: the same email and password checks. */
  function CheckLogin(email: string, password: string): Result<(string, string), Rejection> {
    var e := Text.Strip(email);
    if e == [] then Err(EmailEmpty)
    else if password == [] then Err(PasswordEmpty)
    else Ok((e, password))
  }

  /** Login input passes exactly the checks registration applies to email and password. */
  lemma LoginChecksMatchRegistration(email: string, password: string, nickname: string)
    requires !Text.AllSpace(nickname)
    ensures CheckLogin(email, password).Ok? <==> CheckRegistration(email, password, password, nickname).Ok?
    ensures CheckLogin(email, password).Err? ==>
      CheckLogin(email, password).error == CheckRegistration(email, password, password, nickname).error
  {
  }

  /** How an interactive flow ends: the result it returns, an exception raised while
      `UserAuth()` builds its `APIClient`, or an exception that escapes later (with the
      type name of the value it failed on). */
  datatype FlowEnd = Reported(ok: bool) | SetupRaised(error: Api.SetupError) | Escaped(onType: string)

  /** `interactive_register`: `UserAuth()` (which builds an `APIClient` from the
      configuration), the server check, the input checks, then `register_user`. The
      second part is what, if anything, was registered. */
  function InteractiveRegister(config: Json, status: Exchange, email: string, password: string, confirm: string,
                               nickname: string, cipher: Result<string, string>, ex: Exchange): (FlowEnd, Option<SignUp>)
  {
    match Api.Build(config)
    case Err(e) => (SetupRaised(e), None)
    case Ok(_) =>
      if !ServerUp(status) then (Reported(false), None)
      else match CheckRegistration(email, password, confirm, nickname)
        case Err(_) => (Reported(false), None)
        case Ok(s) => (Reported(Register(DefaultBaseUrl, s.email, cipher, s.nickname, ex).0.success), Some(s))
  }

  /** A configuration the client refuses stops the flow before anything else with the
      client's error; otherwise nothing is registered when the server is down or an
      input check fails, and a reported success always registered the checked inputs. */
  lemma InteractiveRegisterGuards(config: Json, status: Exchange, email: string, password: string, confirm: string,
                                  nickname: string, cipher: Result<string, string>, ex: Exchange)
    ensures var (end, reg) := InteractiveRegister(config, status, email, password, confirm, nickname, cipher, ex);
      && (end.SetupRaised? <==> Api.Build(config).Err?)
      && (end.SetupRaised? ==> end.error == Api.Build(config).error)
      && (reg.Some? <==> Api.Build(config).Ok? && ServerUp(status) && CheckRegistration(email, password, confirm, nickname).Ok?)
      && (end == Reported(true) ==> reg == Some(CheckRegistration(email, password, confirm, nickname).value))
  {
  }

  /** `interactive_login`: `UserAuth()`, the server check, the input checks, then
      `login_user`; on success it shows `token[:20]`, which raises for a token that is
      neither a string nor a list. The second part is the input login was tried with. */
  function InteractiveLogin(config: Json, status: Exchange, email: string, password: string,
                            cipher: Result<string, string>, ex: Exchange): (FlowEnd, Option<(string, string)>)
  {
    match Api.Build(config)
    case Err(e) => (SetupRaised(e), None)
    case Ok(_) =>
      if !ServerUp(status) then (Reported(false), None)
      else match CheckLogin(email, password)
        case Err(_) => (Reported(false), None)
        case Ok(p) =>
          var v := LoginVerdict(p.0, cipher, ex);
          if !v.success then (Reported(false), Some(p))
          else if v.token.value.JStr? || v.token.value.JArr? then (Reported(true), Some(p))
          else (Escaped(TypeName(v.token.value)), Some(p))
  }

  /** A configuration the client refuses stops the flow first with the client's error;
      otherwise login is tried exactly when the server is up and the input passes its
      checks, with the stripped email, and a reported success means login succeeded. */
  lemma InteractiveLoginGuards(config: Json, status: Exchange, email: string, password: string,
                               cipher: Result<string, string>, ex: Exchange)
    ensures var (end, tried) := InteractiveLogin(config, status, email, password, cipher, ex);
      && (end.SetupRaised? <==> Api.Build(config).Err?)
      && (end.SetupRaised? ==> end.error == Api.Build(config).error)
      && (tried.Some? <==> Api.Build(config).Ok? && ServerUp(status) && !Text.AllSpace(email) && password != [])
      && (tried.Some? ==> tried.value == (Text.Strip(email), password))
      && (end == Reported(true) ==> tried.Some? && LoginVerdict(tried.value.0, cipher, ex).success)
      && (end.Escaped? ==> tried.Some? && LoginVerdict(tried.value.0, cipher, ex).success)
  {
  }

  /** The command-line entry of the authentication script. */
  datatype AuthCommand = Usage | SetupFailed(error: Api.SetupError) | RunRegister | RunLogin | RunLogout
                       | UnknownCommand(name: string)

  /** `main`: without an argument the usage text; otherwise `UserAuth()` is built
      first, and then the first argument, lower-cased, picks the flow. */
  function AuthDispatch(config: Json, args: seq<string>): (c: AuthCommand)
    ensures |args| < 1 <==> c == Usage
    ensures |args| >= 1 && Api.Build(config).Err? ==> c == SetupFailed(Api.Build(config).error)
    ensures |args| >= 1 && Api.Build(config).Ok? ==>
      && (c == RunRegister <==> Text.Lower(args[0]) == "register")
      && (c == RunLogin <==> Text.Lower(args[0]) == "login")
      && (c == RunLogout <==> Text.Lower(args[0]) == "logout")
    ensures c.UnknownCommand? ==> (c.name == Text.Lower(args[0])
      && c.name != "register" && c.name != "login" && c.name != "logout")
  {
    if |args| < 1 then Usage
    else
      var command := Text.Lower(args[0]);
      match Api.Build(config)
      case Err(e) => SetupFailed(e)
      case Ok(_) =>
        if command == "register" then RunRegister
        else if command == "login" then RunLogin
        else if command == "logout" then RunLogout
        else UnknownCommand(command)
  }
}
