/** The response and session layer of `APIClient`: reading the `api` section of the
    configuration into the session, joining request URLs, classifying decoded
    responses, and installing or removing the `Authorization` header. */
module Api {
  import opened Wrappers
  import opened Json
  import Text

  const DefaultBaseUrl: string := "http://localhost:9380"
  const DefaultTimeout: int := 30

  /** requests keeps session headers in a case-insensitive dict; names are compared
      after folding their case, so the model keys the header map by the folded name. */
  function HeaderKey(name: string): string {
    Text.Lower(name)
  }

  const AuthorizationKey: string := "authorization"

  /** The one form of credential the client writes into a header. */
  function Bearer(token: Json): Json {
    JStr("Bearer " + PyStr(token))
  }

  /** What `_setup_session` takes from the `api` section of the configuration. */
  datatype Settings = Settings(baseUrl: string, timeout: Json, headers: Dict, authToken: Json)

  /** The exceptions `_setup_session` and `_setup_logging` raise on a configuration
      of the wrong shape. */
  datatype SetupError =
    | NoGet(onType: string)            // `.get` on a value that is not a dict
    | NotIterable(onType: string)      // `headers.update` of a scalar
    | NotPair(item: Json)              // an item of `headers` that does not unpack into two values
    | NoLower(onType: string)          // a header name that is not a string has no `.lower`
    | NoRstrip(onType: string)         // `.rstrip` on a base URL that is not a string
    | NotAttributeName(onType: string) // `getattr(logging, level)` with a level that is not a string
    | NotALevel(name: string)          // a level name that names no logging level
    | BadFormat(format: Json)          // a log format the logging formatter refuses

  /** One item of a non-dict `headers` as `update` unpacks it: exactly two values,
      the first the header name, which must be a string. */
  function HeaderPair(item: Json): Result<Field, SetupError> {
    match Iterate(item)
    case None => Err(NotPair(item))
    case Some(parts) =>
      if |parts| != 2 then Err(NotPair(item))
      else if !parts[0].JStr? then Err(NoLower(TypeName(parts[0])))
      else Ok(Field(parts[0].s, parts[1]))
  }

  /** The items of a non-dict `headers`, in order; the first that does not unpack
      into a name and a value raises. */
  function HeaderPairs(items: seq<Json>): (r: Result<Dict, SetupError>)
    ensures r.Ok? <==> forall i :: 0 <= i < |items| ==> HeaderPair(items[i]).Ok?
    ensures r.Ok? ==> |r.value| == |items| && forall i :: 0 <= i < |items| ==> r.value[i] == HeaderPair(items[i]).value
    ensures r.Err? ==> exists i :: 0 <= i < |items| && HeaderPair(items[i]).Err? && r.error == HeaderPair(items[i]).error
  {
    if items == [] then Ok([])
    else
      assert forall i :: 1 <= i < |items| ==> items[i] == items[1..][i - 1];
      match HeaderPair(items[0])
      case Err(e) => Err(e)
      case Ok(f) =>
        match HeaderPairs(items[1..])
        case Err(e) => Err(e)
        case Ok(rest) => Ok([f] + rest)
  }

  /** What `session.headers.update(headers)` installs, in order: a dict's entries, or
      else the name and value pairs of any iterable, as `MutableMapping.update` reads
      them; a scalar is not iterable. */
  function HeaderEntries(headers: Json): Result<Dict, SetupError> {
    if headers.JObj? then Ok(headers.fields)
    else
      match Iterate(headers)
      case None => Err(NotIterable(TypeName(headers)))
      case Some(items) => HeaderPairs(items)
  }

  /** An empty list and an empty string install nothing; a list of two-item lists
      installs each pair; a string item must have exactly two characters. */
  lemma HeaderEntriesOfPairs(name: string, value: Json, s: string)
    ensures HeaderEntries(JArr([])) == Ok([]) && HeaderEntries(JStr("")) == Ok([])
    ensures HeaderEntries(JArr([JArr([JStr(name), value])])) == Ok([Field(name, value)])
    ensures |s| != 2 ==> HeaderEntries(JArr([JStr(s)])) == Err(NotPair(JStr(s)))
    ensures |s| == 2 ==> HeaderEntries(JArr([JStr(s)])) == Ok([Field([s[0]], JStr([s[1]]))])
  {
    var item := JArr([JStr(name), value]);
    assert Iterate(item) == Some([JStr(name), value]);
    assert [item][1..] == [] && HeaderPairs([]) == Ok([]);
    assert HeaderPair(item) == Ok(Field(name, value));
    assert [Field(name, value)] + [] == [Field(name, value)];
    var t := JStr(s);
    assert [t][1..] == [];
    if |s| == 2 {
      assert Iterate(t).value[0] == JStr([s[0]]) && Iterate(t).value[1] == JStr([s[1]]);
      assert HeaderPair(t) == Ok(Field([s[0]], JStr([s[1]])));
      assert [Field([s[0]], JStr([s[1]]))] + [] == [Field([s[0]], JStr([s[1]]))];
    }
  }

  /** `_setup_session`'s reading of the configuration, with its defaults and the
      order in which Python would fail on a malformed one. */
  function ReadSettings(config: Json): (r: Result<Settings, SetupError>)
    ensures r.Ok? ==> config.JObj?
    ensures r.Ok? ==> r.value.baseUrl == [] || r.value.baseUrl[|r.value.baseUrl| - 1] != '/'
  {
    if !config.JObj? then Err(NoGet(TypeName(config)))
    else
      var api := GetOr(config.fields, "api", JObj([]));
      if !api.JObj? then Err(NoGet(TypeName(api)))
      else
        var base := GetOr(api.fields, "base_url", JStr(DefaultBaseUrl));
        var timeout := GetOr(api.fields, "timeout", JInt(DefaultTimeout));
        match HeaderEntries(GetOr(api.fields, "headers", JObj([])))
        case Err(e) => Err(e)
        case Ok(headers) =>
          if !base.JStr? then Err(NoRstrip(TypeName(base)))
          else Ok(Settings(Text.StripEndChar(base.s, '/'), timeout, headers, GetOr(api.fields, "auth_token", JNull)))
  }

  /** A configuration whose `api` section sets nothing gets the default base URL,
      the 30-second timeout, no extra headers and no token. */
  lemma SettingsDefaults(config: Json)
    requires config.JObj?
    requires Get(config.fields, "api").None? || Get(config.fields, "api") == Some(JObj([]))
    ensures ReadSettings(config) == Ok(Settings(DefaultBaseUrl, JInt(30), [], JNull))
  {
    assert Text.StripEndChar(DefaultBaseUrl, '/') == DefaultBaseUrl by {
      assert DefaultBaseUrl[|DefaultBaseUrl| - 1] == '0';
    }
  }

  /** Setup fails exactly on the shapes Python cannot handle: a configuration or `api`
      section that is not a dict, `headers` that `update` cannot read, or a base URL
      that is not a string; the headers installed are the entries `update` reads. */
  lemma SettingsAccepted(config: Json)
    ensures ReadSettings(config).Ok? <==>
      && config.JObj?
      && GetOr(config.fields, "api", JObj([])).JObj?
      && HeaderEntries(GetOr(GetOr(config.fields, "api", JObj([])).fields, "headers", JObj([]))).Ok?
      && GetOr(GetOr(config.fields, "api", JObj([])).fields, "base_url", JStr(DefaultBaseUrl)).JStr?
    ensures ReadSettings(config).Ok? ==>
      ReadSettings(config).value.headers == HeaderEntries(GetOr(GetOr(config.fields, "api", JObj([])).fields, "headers", JObj([]))).value
  {
  }

  // ---------------------------------------------------------------- logging

  const DefaultLogLevel: string := "INFO"
  const DefaultLogFormat: string := "%(asctime)s - %(name)s - %(levelname)s - %(message)s"

  /** The names `getattr(logging, level)` turns into a level number. */
  const LevelNames: set<string> := {"CRITICAL", "FATAL", "ERROR", "WARN", "WARNING", "INFO", "DEBUG", "NOTSET"}

  predicate WordChar(c: char) {
    'a' <= c <= 'z' || 'A' <= c <= 'Z' || '0' <= c <= '9' || c == '_'
  }

  predicate DigitChar(c: char) {
    '0' <= c <= '9'
  }

  /** Past a run of word characters starting at `i`. */
  function SkipWord(s: string, i: nat): (j: nat)
    ensures i <= j && (i <= |s| ==> j <= |s|)
    decreases |s| - i
  {
    if i < |s| && WordChar(s[i]) then SkipWord(s, i + 1) else i
  }

  /** Past a run of the conversion flags `#0+ -` starting at `i`. */
  function SkipFlags(s: string, i: nat): (j: nat)
    ensures i <= j && (i <= |s| ==> j <= |s|)
    decreases |s| - i
  {
    if i < |s| && s[i] in "#0+ -" then SkipFlags(s, i + 1) else i
  }

  /** Past a run of digits starting at `i`. */
  function SkipDigits(s: string, i: nat): (j: nat)
    ensures i <= j && (i <= |s| ==> j <= |s|)
    decreases |s| - i
  {
    if i < |s| && DigitChar(s[i]) then SkipDigits(s, i + 1) else i
  }

  /** A `%`-style field starts at `i`: `%(name)`, then flags, an optional width, an
      optional precision and a conversion character, in any case. */
  predicate FieldAt(s: string, i: nat) {
    i + 2 <= |s| && s[i] == '%' && s[i + 1] == '(' &&
    var j := SkipWord(s, i + 2);
    i + 2 < j < |s| && s[j] == ')' &&
    var k := SkipFlags(s, j + 1);
    var w := if k < |s| && s[k] == '*' then k + 1 else SkipDigits(s, k);
    var p := if w + 1 < |s| && s[w] == '.' && s[w + 1] == '*' then w + 2
             else if w + 1 < |s| && s[w] == '.' && DigitChar(s[w + 1]) then SkipDigits(s, w + 1)
             else w;
    p < |s| && s[p] in "diouxefgcrsaDIOUXEFGCRSA%"
  }

  /** The check the `%`-style formatter makes of a format: some field occurs in it. */
  predicate HasField(s: string) {
    exists i :: 0 <= i < |s| && FieldAt(s, i)
  }

  /** `_setup_logging` on a configuration `_setup_session` accepted: the `logging`
      section must be a dict, its `level` must name a logging level, and a truthy
      `format` must be a string holding a field. */
  function LoggingFailure(config: Dict): Option<SetupError> {
    var log := GetOr(config, "logging", JObj([]));
    if !log.JObj? then Some(NoGet(TypeName(log)))
    else
      var level := GetOr(log.fields, "level", JStr(DefaultLogLevel));
      var format := GetOr(log.fields, "format", JStr(DefaultLogFormat));
      if !level.JStr? then Some(NotAttributeName(TypeName(level)))
      else if level.s !in LevelNames then Some(NotALevel(level.s))
      else if Truthy(format) && !(format.JStr? && HasField(format.s)) then Some(BadFormat(format))
      else None
  }

  /** A format that holds `%(message)s` anywhere passes the formatter's check. */
  lemma MessageField(s: string, i: nat)
    requires i + 11 <= |s| && s[i..i + 11] == "%(message)s"
    ensures HasField(s)
  {
    assert s[i] == '%' && s[i + 1] == '(' && s[i + 9] == ')' && s[i + 10] == 's';
    assert forall t :: i + 2 <= t < i + 9 ==> s[t] == "%(message)s"[t - i];
    assert SkipWord(s, i + 9) == i + 9;
    assert SkipWord(s, i + 2) == i + 9 by {
      SkipWordRun(s, i + 2, i + 9);
    }
    assert SkipFlags(s, i + 10) == i + 10;
    assert SkipDigits(s, i + 10) == i + 10;
    assert FieldAt(s, i);
  }

  /** Word characters from `i` up to `j`, where the run stops, are skipped together. */
  lemma {:induction false} SkipWordRun(s: string, i: nat, j: nat)
    requires i <= j <= |s| && forall t :: i <= t < j ==> WordChar(s[t])
    requires SkipWord(s, j) == j
    ensures SkipWord(s, i) == j
    decreases j - i
  {
    if i < j {
      SkipWordRun(s, i + 1, j);
    }
  }

  /** A format without any `%` has no field and is refused. */
  lemma NoPercentNoField(s: string)
    requires forall i :: 0 <= i < |s| ==> s[i] != '%'
    ensures !HasField(s)
  {
  }

  /** The default format holds a field. */
  lemma DefaultFormatField()
    ensures HasField(DefaultLogFormat)
  {
    var d := DefaultLogFormat;
    assert d[|d| - 11..] == "%(message)s";
    MessageField(d, |d| - 11);
  }

  /** With no `logging` section the defaults, `INFO` and the default format, pass. */
  lemma LoggingDefaults(config: Dict)
    requires Get(config, "logging").None?
    ensures LoggingFailure(config).None?
  {
    DefaultFormatField();
  }

  /** A level must be spelled as the logging module spells it: `info` and `VERBOSE`
      name no level. */
  lemma LevelSpelling(config: Dict, log: Dict, level: string)
    requires Get(config, "logging") == Some(JObj(log)) && Get(log, "level") == Some(JStr(level))
    requires level == "info" || level == "VERBOSE"
    ensures LoggingFailure(config) == Some(NotALevel(level))
  {
    assert level !in LevelNames by {
      assert level[0] == 'i' || level[0] == 'V';
    }
  }

  /** `APIClient()` on a loaded configuration: `_setup_session`, then
      `_setup_logging`. */
  function Build(config: Json): (r: Result<Settings, SetupError>)
  {
    match ReadSettings(config)
    case Err(e) => Err(e)
    case Ok(s) =>
      match LoggingFailure(config.fields)
      case Some(e) => Err(e)
      case None => Ok(s)
  }

  /** The session is set up before logging: a session error is raised first, logging
      is looked at only on a configuration the session accepted, and a built client
      has the session's settings. */
  lemma BuildOrder(config: Json)
    ensures ReadSettings(config).Err? ==> Build(config) == ReadSettings(config)
    ensures Build(config).Ok? <==> ReadSettings(config).Ok? && LoggingFailure(config.fields).None?
    ensures Build(config).Ok? ==> Build(config).value == ReadSettings(config).value
  {
  }

  /** `session.headers.update(d)`: each entry in turn, a later one replacing an
      earlier one of the same (case-folded) name. */
  function Install(h: map<string, Json>, d: Dict): map<string, Json>
    decreases d
  {
    if d == [] then h else Install(h[HeaderKey(d[0].key) := d[0].val], d[1..])
  }

  /** The value of the last entry of `d` whose name folds to `key`. */
  function LastFor(d: Dict, key: string): Option<Json> {
    if d == [] then None
    else
      var later := LastFor(d[1..], key);
      if later.Some? then later
      else if HeaderKey(d[0].key) == key then Some(d[0].val)
      else None
  }

  /** After `update`, a header named in `d` has the value of its last occurrence
      there, and every other header is as it was. */
  lemma {:induction false} InstallLookup(h: map<string, Json>, d: Dict, key: string)
    ensures key in Install(h, d) <==> key in h || LastFor(d, key).Some?
    ensures LastFor(d, key).Some? ==> Install(h, d)[key] == LastFor(d, key).value
    ensures LastFor(d, key).None? && key in h ==> Install(h, d)[key] == h[key]
    decreases d
  {
    if d != [] {
      InstallLookup(h[HeaderKey(d[0].key) := d[0].val], d[1..], key);
    }
  }

  /** The session's headers once `_setup_session` has run: the library's defaults,
      then the configured headers, then `Bearer <auth_token>` when the token is truthy. */
  function SessionHeaders(initial: map<string, Json>, s: Settings): map<string, Json> {
    var h := Install(initial, s.headers);
    if Truthy(s.authToken) then h[AuthorizationKey := Bearer(s.authToken)] else h
  }

  /** A truthy `auth_token` installs `Bearer <token>`, overriding any configured
      Authorization header (in any case); otherwise Authorization is whatever the
      configuration and the defaults gave. No other header depends on the token. */
  lemma SessionAuthorization(initial: map<string, Json>, s: Settings)
    ensures Truthy(s.authToken) ==>
      AuthorizationKey in SessionHeaders(initial, s) && SessionHeaders(initial, s)[AuthorizationKey] == Bearer(s.authToken)
    ensures !Truthy(s.authToken) ==> SessionHeaders(initial, s) == Install(initial, s.headers)
    ensures forall k :: k != AuthorizationKey ==>
      (k in SessionHeaders(initial, s) <==> k in Install(initial, s.headers))
  {
  }

  /** A configured header survives setup under its folded name, with its last
      configured value, unless it is Authorization and a token is set. */
  lemma SessionConfiguredHeader(initial: map<string, Json>, s: Settings, name: string)
    requires LastFor(s.headers, HeaderKey(name)).Some?
    requires HeaderKey(name) != AuthorizationKey || !Truthy(s.authToken)
    ensures HeaderKey(name) in SessionHeaders(initial, s)
    ensures SessionHeaders(initial, s)[HeaderKey(name)] == LastFor(s.headers, HeaderKey(name)).value
  {
    InstallLookup(initial, s.headers, HeaderKey(name));
  }

  /** The request URL: the base URL without its trailing slashes, then the endpoint
      verbatim. */
  function JoinUrl(base: string, endpoint: string): string {
    Text.StripEndChar(base, '/') + endpoint
  }

  /** The URL ends with the endpoint, the part before it is the base URL less only
      slashes at its end, and no slash of the base stands right before the endpoint. */
  lemma UrlShape(base: string, endpoint: string)
    ensures var u := JoinUrl(base, endpoint); var p := Text.StripEndChar(base, '/');
      && u[|p|..] == endpoint
      && u[..|p|] == p == base[..|p|]
      && (forall k :: |p| <= k < |base| ==> base[k] == '/')
      && (p == [] || u[|p| - 1] != '/')
  {
    var p := Text.StripEndChar(base, '/');
    var u := p + endpoint;
    assert u[..|p|] == p;
    assert u[|p|..] == endpoint;
  }

  /** Joining an already stripped base changes nothing about it. */
  lemma UrlStable(base: string, endpoint: string)
    ensures JoinUrl(Text.StripEndChar(base, '/'), endpoint) == JoinUrl(base, endpoint)
  {
    Text.StripEndCharIdempotent(base, '/');
  }

  datatype Verb = GET | POST | PUT | PATCH | DELETE

  /** What the session call gave back: a transport exception (connection refused,
      timeout, ...), or a response with its status, its text and, when that text
      parses as JSON, the decoded value. */
  datatype Reply = Unreachable(detail: string) | Response(status: int, text: string, json: Option<Json>)

  /** An empty body never parses as JSON. */
  predicate WellFormedReply(r: Reply) {
    r.Response? && r.text == "" ==> r.json.None?
  }

  /** What a client call hands its caller: the value it returns, or the exception it raises. */
  datatype Outcome = Done(value: Json) | Raised(fault: Fault)

  datatype Fault =
    | Transport(detail: string)   // requests' RequestException, re-raised
    | HttpStatus(status: int)     // raise_for_status
    | ApiError(message: string)   // an error envelope, see HandleResponse
    | Other(detail: string)       // any other exception (a call the client cannot take)

  /** The envelope codes `_handle_response` turns into exceptions, with the text
      each one's message is prefixed with. */
  function ErrorPrefix(code: int): (p: Option<string>)
    ensures p.Some? <==> code in {100, 401, 403, 404}
  {
    if code == 100 then Some("API错误: ")
    else if code == 401 then Some("认证失败: ")
    else if code == 403 then Some("权限不足: ")
    else if code == 404 then Some("资源不存在: ")
    else None
  }

  /** Which of the error codes the envelope's `code` equals (in Python's `==`). */
  function ErrorCode(data: Dict): Option<int> {
    var code := GetOr(data, "code", JNull);
    if EqInt(code, 100) then Some(100)
    else if EqInt(code, 401) then Some(401)
    else if EqInt(code, 403) then Some(403)
    else if EqInt(code, 404) then Some(404)
    else None
  }

  /** `_handle_response`: a body that is not JSON comes back as `{"text": body}`; a
      decoded dict whose `code` is 100, 401, 403 or 404 raises; anything else decoded
      is returned as it is. */
  function HandleResponse(text: string, json: Option<Json>): Outcome {
    match json
    case None => Done(JObj([Field("text", JStr(text))]))
    case Some(data) =>
      if data.JObj? && ErrorCode(data.fields).Some? then
        Raised(ApiError(ErrorPrefix(ErrorCode(data.fields).value).value + PyStr(GetOr(data.fields, "message", JStr("")))))
      else Done(data)
  }

  /** A decoded dict whose code is an error code fails with that code's prefix and its
      `message` (the empty string when absent). */
  lemma ErrorEnvelope(text: string, data: Dict, code: int)
    requires code in {100, 401, 403, 404}
    requires EqInt(GetOr(data, "code", JNull), code)
    ensures HandleResponse(text, Some(JObj(data))) ==
      Raised(ApiError(ErrorPrefix(code).value + PyStr(GetOr(data, "message", JStr("")))))
  {
    var v := GetOr(data, "code", JNull);
    forall c | c in {100, 401, 403, 404} && EqInt(v, c) ensures c == code {
      EqIntUnique(v, c, code);
    }
  }

  /** Every other decoded value comes back unchanged: a dict with another code or
      none, and any value that is not a dict. */
  lemma PassThrough(text: string, data: Json)
    requires data.JObj? ==> forall c :: c in {100, 401, 403, 404} ==> !EqInt(GetOr(data.fields, "code", JNull), c)
    ensures HandleResponse(text, Some(data)) == Done(data)
  {
  }

  /** A body that is not JSON is wrapped as `{"text": body}` and never raises. */
  lemma NonJsonBody(text: string)
    ensures HandleResponse(text, None) == Done(JObj([Field("text", JStr(text))]))
    ensures HandleResponse(text, None).Done?
  {
  }

  /** The error messages of distinct codes differ, so the message tells the code. */
  lemma ErrorPrefixesDistinct(c1: int, c2: int, m1: string, m2: string)
    requires ErrorPrefix(c1).Some? && ErrorPrefix(c2).Some?
    requires ErrorPrefix(c1).value + m1 == ErrorPrefix(c2).value + m2
    ensures c1 == c2
  {
    var a, b := ErrorPrefix(c1).value + m1, ErrorPrefix(c2).value + m2;
    assert a[0] == b[0];
  }

  /** `response.raise_for_status()`: requests raises for 4xx and 5xx statuses only. */
  predicate FailingStatus(status: int) {
    400 <= status < 600
  }

  /** One call of `get`, `post`, `put` or `delete` after the session answered `reply`. */
  function Complete(verb: Verb, reply: Reply): Outcome {
    match reply
    case Unreachable(d) => Raised(Transport(d))
    case Response(status, text, json) =>
      if FailingStatus(status) then Raised(HttpStatus(status))
      else if verb == DELETE && text == "" then Done(JObj([]))
      else HandleResponse(text, json)
  }

  /** A failing status raises before the body is looked at. */
  lemma StatusFirst(verb: Verb, status: int, text: string, json: Option<Json>)
    requires FailingStatus(status)
    ensures Complete(verb, Response(status, text, json)) == Raised(HttpStatus(status))
  {
  }

  /** DELETE with an empty body returns `{}` without decoding; with a body it is
      handled like any other verb. Other verbs turn an empty body into `{"text": ""}`. */
  lemma DeleteBody(verb: Verb, status: int, text: string, json: Option<Json>)
    requires !FailingStatus(status)
    requires WellFormedReply(Response(status, text, json))
    ensures verb == DELETE && text == "" ==> Complete(verb, Response(status, text, json)) == Done(JObj([]))
    ensures verb != DELETE && text == "" ==> Complete(verb, Response(status, text, json)) == Done(JObj([Field("text", JStr(""))]))
    ensures text != "" ==> Complete(verb, Response(status, text, json)) == HandleResponse(text, json)
  {
  }

  /** `set_auth_token`: Authorization becomes `Bearer <token>`; nothing else changes. */
  function WithToken(h: map<string, Json>, token: Json): (r: map<string, Json>)
    ensures r.Keys == h.Keys + {AuthorizationKey}
    ensures r[AuthorizationKey] == Bearer(token)
    ensures forall k :: k in h && k != AuthorizationKey ==> r[k] == h[k]
  {
    h[AuthorizationKey := Bearer(token)]
  }

  /** `clear_auth_token`: Authorization is removed if present; nothing else changes. */
  function WithoutToken(h: map<string, Json>): (r: map<string, Json>)
    ensures r.Keys == h.Keys - {AuthorizationKey}
    ensures forall k :: k in r ==> r[k] == h[k]
  {
    h - {AuthorizationKey}
  }

  /** Clearing is idempotent, and clearing after setting forgets the token entirely. */
  lemma ClearFacts(h: map<string, Json>, token: Json)
    ensures WithoutToken(WithoutToken(h)) == WithoutToken(h)
    ensures WithoutToken(WithToken(h, token)) == WithoutToken(h)
    ensures AuthorizationKey !in h ==> WithoutToken(h) == h
  {
  }

  /** The client: its configuration, and the session state `_setup_session`,
      `set_auth_token` and `clear_auth_token` change. */
  class ApiClient {
    const config: Json
    var baseUrl: string
    var timeout: Json
    var headers: map<string, Json>

    /** `APIClient(...)` on a configuration already loaded, with `initial` the
        headers a fresh requests session starts with. */
    constructor (config: Json, initial: map<string, Json>)
      requires Build(config).Ok?
      ensures this.config == config
      ensures baseUrl == Build(config).value.baseUrl
      ensures timeout == Build(config).value.timeout
      ensures headers == SessionHeaders(initial, Build(config).value)
    {
      var s := Build(config).value;
      this.config := config;
      headers := Install(initial, s.headers);
      timeout := s.timeout;
      baseUrl := s.baseUrl;
      new;
      if Truthy(s.authToken) {
        headers := headers[AuthorizationKey := Bearer(s.authToken)];
      }
    }

    /** The constructor with its failure: a configuration the session or logging
        setup refuses raises instead of producing a client. */
    static method Open(config: Json, initial: map<string, Json>) returns (r: Result<ApiClient, SetupError>)
      ensures r.Ok? <==> ReadSettings(config).Ok? && LoggingFailure(config.fields).None?
      ensures r.Err? ==> r.error == Build(config).error
      ensures r.Ok? ==> (fresh(r.value) && r.value.config == config
        && r.value.baseUrl == ReadSettings(config).value.baseUrl
        && r.value.headers == SessionHeaders(initial, ReadSettings(config).value))
    {
      var s := Build(config);
      if s.Err? {
        r := Err(s.error);
      } else {
        var c := new ApiClient(config, initial);
        r := Ok(c);
      }
    }

    /** The URL every request method builds: `f"{self.base_url}{endpoint}"`. */
    function Url(endpoint: string): string
      reads this
    {
      baseUrl + endpoint
    }

    method SetAuthToken(token: Json)
      modifies this`headers
      ensures headers == WithToken(old(headers), token)
    {
      headers := headers[AuthorizationKey := Bearer(token)];
    }

    method ClearAuthToken()
      modifies this`headers
      ensures headers == WithoutToken(old(headers))
    {
      if AuthorizationKey in headers {
        headers := headers - {AuthorizationKey};
      }
    }
  }

  /** A client built from `config` requests `base_url` less its trailing slashes,
      then the endpoint. */
  lemma ClientUrl(c: ApiClient, base: string, endpoint: string)
    requires ReadSettings(c.config).Ok? && c.baseUrl == ReadSettings(c.config).value.baseUrl
    requires c.config.JObj? && GetOr(GetOr(c.config.fields, "api", JObj([])).fields, "base_url", JStr(DefaultBaseUrl)) == JStr(base)
    ensures c.Url(endpoint) == JoinUrl(base, endpoint)
  {
  }
}
