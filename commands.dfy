/** What the command modules share: the client calls they make, the client seen as
    an abstract answer to each call, the API-token gate, the exceptions a command
    catches, and what a command shows. */
module Commands {
  import opened Wrappers
  import opened Json
  import Text
  import Api
  import Output

  /** One call of the client's `get`/`post`/`put`/`delete` (or `patch`): the
      endpoint, the `params` of a GET, the `json_data` body, and the Authorization
      header a command passes as `headers={'Authorization': ...}`. */
  datatype Call = Call(verb: Api.Verb, endpoint: string, query: Option<Dict>, body: Option<Json>, authorization: Option<Json>)

  function GetCall(endpoint: string): Call { Call(Api.GET, endpoint, None, None, None) }
  function PostCall(endpoint: string, body: Option<Json>): Call { Call(Api.POST, endpoint, None, body, None) }
  function PutCall(endpoint: string, body: Option<Json>): Call { Call(Api.PUT, endpoint, None, body, None) }
  function DeleteCall(endpoint: string): Call { Call(Api.DELETE, endpoint, None, None, None) }

  /** The same call carrying `headers={'Authorization': f"Bearer {token}"}`. */
  function WithBearer(c: Call, token: Json): Call {
    c.(authorization := Some(Api.Bearer(token)))
  }

  /** The client as a command sees it: what its `k`-th call returns or raises. */
  type Client = (nat, Call) -> Api.Outcome

  /** A client whose every call reaches the session: the `k`-th call gets the
      answer `server(k, call)` and completes as `APIClient` completes it. */
  function Corrected(server: (nat, Call) -> Api.Reply): Client {
    (k: nat, c: Call) => Api.Complete(c.verb, server(k, c))
  }

  /** The text of the TypeError a request method raises when given `headers=`. */
  function HeadersText(verb: Api.Verb): string {
    var name := match verb
      case GET => "get" case POST => "post" case PUT => "put" case PATCH => "patch" case DELETE => "delete";
    "APIClient." + name + "() got an unexpected keyword argument 'headers'"
  }

  const NoPatchText: string := "'APIClient' object has no attribute 'patch'"

  /** The client as the code is written: `APIClient` has no `patch` method, and its
      `get`, `post`, `put` and `delete` take no `headers` argument, so those calls
      raise before any request is made; every other call reaches the session. */
  function AsWritten(server: (nat, Call) -> Api.Reply): Client {
    (k: nat, c: Call) =>
      if c.verb == Api.PATCH then Api.Raised(Api.Other(NoPatchText))
      else if c.authorization.Some? then Api.Raised(Api.Other(HeadersText(c.verb)))
      else Api.Complete(c.verb, server(k, c))
  }

  /** Both clients agree on calls without `headers=` and other than `patch`; as
      written, every other call raises. */
  lemma ClientsAgree(server: (nat, Call) -> Api.Reply, k: nat, c: Call)
    ensures c.verb != Api.PATCH && c.authorization.None? ==> AsWritten(server)(k, c) == Corrected(server)(k, c)
    ensures c.verb == Api.PATCH || c.authorization.Some? ==> AsWritten(server)(k, c).Raised?
    ensures Corrected(server)(k, c) == Api.Complete(c.verb, server(k, c))
  {
  }

  /** Why a command stops before its first request. */
  datatype Stop = SetupFailed(error: Api.SetupError) | NoToken | Cancelled

  /** `client.config.get('api', {}).get('api_token')` on a configuration the client
      accepted. */
  function ApiToken(config: Json): Json
    requires Api.Build(config).Ok?
  {
    GetOr(GetOr(config.fields, "api", JObj([])).fields, "api_token", JNull)
  }

  /** Building the client, then the token check every dataset and team command
      starts with. */
  function TokenGate(config: Json): (r: Result<Json, Stop>)
    ensures r.Ok? ==> Truthy(r.value)
  {
    match Api.Build(config)
    case Err(e) => Err(SetupFailed(e))
    case Ok(_) => if Truthy(ApiToken(config)) then Ok(ApiToken(config)) else Err(NoToken)
  }

  /** The gate passes exactly with an accepted configuration whose `api.api_token`
      is truthy, and hands on that token. */
  lemma GateFacts(config: Json)
    ensures TokenGate(config).Ok? <==> Api.Build(config).Ok? && Truthy(ApiToken(config))
    ensures TokenGate(config).Ok? ==> TokenGate(config).value == ApiToken(config)
    ensures TokenGate(config) == Err(NoToken) <==> Api.Build(config).Ok? && !Truthy(ApiToken(config))
  {
  }

  /** The exceptions a command's `except` clauses catch. */
  datatype Failure =
    | ClientFailed(fault: Api.Fault)              // raised by a client call
    | NoAttribute(onType: string, name: string)   // AttributeError, e.g. `.get` on a list
    | NotIterable(onType: string)                 // TypeError of a `for` over a scalar
    | FormatFailed(error: Output.Failure)         // raised while shaping a table
    | Unsubscriptable(onType: string)             // TypeError of `x[...]` or `len(x)`
    | BadOperand(onType: string)                  // an operand of this type refused by `+`, `', '.join` or a `:.4f` format spec
    | FloatOverflow                               // OverflowError of an int too large to convert to float
    | SetupRaised(setup: Api.SetupError)          // raised while building the client

  /** `response.get(key, default)` on what a call returned. */
  function Lookup(v: Json, key: string, default: Json): Result<Json, Failure> {
    if v.JObj? then Ok(GetOr(v.fields, key, default)) else Err(NoAttribute(TypeName(v), "get"))
  }

  /** `response.get('code') == 0` (Python equality, so `False` counts). */
  predicate CodeZero(v: Json) {
    v.JObj? && EqInt(GetOr(v.fields, "code", JNull), 0)
  }

  /** What a command shows. */
  datatype Display =
    | Note(level: Output.Level, text: string)                    // print_success/error/warning/info(text)
    | Crash(level: Output.Level, prefix: string, cause: Failure) // print_error(f"{prefix}{e}") and the like
    | Table(data: Json, title: string)                           // print_rich_table(data, title)
    | Formatted(format: string, data: Json)                      // print(formatter.format_output(data))
    | Echo(text: string)                                         // click.echo(text)
    | EchoFailure(prefix: string, cause: Failure)                // click.echo(f"{prefix}{e}")

  /** `print_rich_table(data, title)` inside a command's `try`: an exception it
      raises is reported by the command's `except` with `prefix`. */
  function ShowTable(data: Json, title: string, prefix: string): (r: seq<Display>)
    ensures Output.PrintRichTable(data).Ok? ==> r == [Table(data, title)]
    ensures Output.PrintRichTable(data).Err? ==> r == [Crash(Output.Error, prefix, FormatFailed(Output.PrintRichTable(data).error))]
  {
    match Output.PrintRichTable(data)
    case Ok(_) => [Table(data, title)]
    case Err(e) => [Crash(Output.Error, prefix, FormatFailed(e))]
  }

  /** `print_rich_table(data, title)` in a command whose `except` echoes the
      exception after `prefix`. */
  function EchoTable(data: Json, title: string, prefix: string): (r: seq<Display>)
    ensures Output.PrintRichTable(data).Ok? ==> r == [Table(data, title)]
    ensures Output.PrintRichTable(data).Err? ==> r == [EchoFailure(prefix, FormatFailed(Output.PrintRichTable(data).error))]
  {
    match Output.PrintRichTable(data)
    case Ok(_) => [Table(data, title)]
    case Err(e) => [EchoFailure(prefix, FormatFailed(e))]
  }

  /** A click option that is given and not empty (`if option:`). */
  predicate Given(option: Option<string>) {
    option.Some? && option.value != ""
  }

  /** Rows already collected, followed by what is collected next. */
  function Then(first: Result<seq<Json>, Failure>, next: Result<seq<Json>, Failure>): Result<seq<Json>, Failure> {
    match first
    case Err(e) => Err(e)
    case Ok(rows) =>
      match next
      case Err(e) => Err(e)
      case Ok(more) => Ok(rows + more)
  }

  /** Nothing to add leaves the rows as they are. */
  lemma ThenNothing(r: Result<seq<Json>, Failure>)
    ensures Then(Ok([]), r) == r && Then(r, Ok([])) == r
  {
    if r.Ok? {
      assert [] + r.value == r.value && r.value + [] == r.value;
    }
  }

  /** Collecting in three steps does not depend on how the steps are grouped. */
  lemma ThenAssoc(x: Result<seq<Json>, Failure>, y: Result<seq<Json>, Failure>, z: Result<seq<Json>, Failure>)
    ensures Then(x, Then(y, z)) == Then(Then(x, y), z)
  {
    if x.Ok? && y.Ok? && z.Ok? {
      assert x.value + (y.value + z.value) == (x.value + y.value) + z.value;
    }
  }

  /** The message a stopped dataset or team command shows. */
  function StopDisplay(s: Stop, prefix: string): seq<Display> {
    match s
    case SetupFailed(e) => [Crash(Output.Error, prefix, SetupRaised(e))]
    case NoToken => [Note(Output.Error, "未找到API令牌，请先登录")]
    case Cancelled => []
  }

  /** The index, within `chain`, of the first call that succeeds when the calls are
      made in order as call number `k`, `k + 1`, ...; none if every one raises. */
  function FirstSuccess(client: Client, k: nat, chain: seq<Call>): (r: Option<nat>)
    ensures r.Some? ==> r.value < |chain| && client(k + r.value, chain[r.value]).Done?
    ensures r.Some? ==> forall j :: 0 <= j < r.value ==> client(k + j, chain[j]).Raised?
    ensures r.None? ==> forall j :: 0 <= j < |chain| ==> client(k + j, chain[j]).Raised?
    decreases |chain|
  {
    if chain == [] then None
    else if client(k, chain[0]).Done? then Some(0)
    else
      var rest := FirstSuccess(client, k + 1, chain[1..]);
      assert forall j :: 1 <= j < |chain| ==> chain[j] == chain[1..][j - 1] && k + j == (k + 1) + (j - 1);
      match rest
      case None => None
      case Some(i) => Some(i + 1)
  }

  /** The chain stops at the first success: at `i` when call `i` succeeds and every
      call before it raised. */
  lemma FirstSuccessAt(client: Client, k: nat, chain: seq<Call>, i: nat)
    requires i < |chain| && client(k + i, chain[i]).Done?
    requires forall j :: 0 <= j < i ==> client(k + j, chain[j]).Raised?
    ensures FirstSuccess(client, k, chain) == Some(i)
  {
    var r := FirstSuccess(client, k, chain);
    if r.None? {
      assert false;
    } else if r.value < i {
      assert false;
    } else if r.value > i {
      assert false;
    }
  }

  /** A chain whose every call raises has no success. */
  lemma FirstSuccessNone(client: Client, k: nat, chain: seq<Call>)
    requires forall j :: 0 <= j < |chain| ==> client(k + j, chain[j]).Raised?
    ensures FirstSuccess(client, k, chain).None?
  {
    var r := FirstSuccess(client, k, chain);
    if r.Some? {
      assert false;
    }
  }

  /** A chain of two or three calls, step by step. */
  lemma FirstSuccessOfTwo(client: Client, k: nat, a: Call, b: Call)
    ensures FirstSuccess(client, k, [a, b]) ==
      if client(k, a).Done? then Some(0) else if client(k + 1, b).Done? then Some(1) else None
  {
    assert [a, b][1..] == [b];
    assert [b][1..] == [];
  }

  lemma FirstSuccessOfThree(client: Client, k: nat, a: Call, b: Call, c: Call)
    ensures FirstSuccess(client, k, [a, b, c]) ==
      if client(k, a).Done? then Some(0) else if client(k + 1, b).Done? then Some(1)
      else if client(k + 2, c).Done? then Some(2) else None
  {
    assert [a, b, c][1..] == [b, c];
    FirstSuccessOfTwo(client, k + 1, b, c);
  }

  /** The calls a fallback chain makes: up to and including the first success. */
  function Tried(client: Client, k: nat, chain: seq<Call>): (r: seq<Call>)
    ensures |r| <= |chain| && r == chain[..|r|]
  {
    match FirstSuccess(client, k, chain)
    case None => chain
    case Some(i) => chain[..i + 1]
  }

  /** A later call of a chain is made only when every earlier one raised, and the
      chain stops at its first success. */
  lemma TriedOnlyAfterFailures(client: Client, k: nat, chain: seq<Call>, i: nat)
    requires i < |Tried(client, k, chain)|
    ensures forall j :: 0 <= j < i ==> client(k + j, chain[j]).Raised?
    ensures client(k + i, chain[i]).Done? ==> |Tried(client, k, chain)| == i + 1
  {
  }

  /** `[s.strip() for s in text.split(',')]`. */
  function SplitStripped(text: string): (r: seq<string>)
    ensures |r| == |Text.Split(text, ',')| == Text.Count(text, ',') + 1
    ensures forall i :: 0 <= i < |r| ==> r[i] == Text.Strip(Text.Split(text, ',')[i])
  {
    Text.SplitCount(text, ',');
    var parts := Text.Split(text, ',');
    seq(|parts|, i requires 0 <= i < |parts| => Text.Strip(parts[i]))
  }

  /** Every piece is stripped and none contains a comma. */
  lemma SplitStrippedPieces(text: string)
    ensures forall i :: 0 <= i < |SplitStripped(text)| ==>
      Text.Strip(SplitStripped(text)[i]) == SplitStripped(text)[i] && ',' !in SplitStripped(text)[i]
  {
    var parts := Text.Split(text, ',');
    forall i | 0 <= i < |parts|
      ensures Text.Strip(Text.Strip(parts[i])) == Text.Strip(parts[i])
      ensures ',' !in Text.Strip(parts[i])
    {
      Text.StripIdempotent(parts[i]);
      assert parts[i] in parts;
      Text.StripKeepsAbsent(parts[i], ',');
    }
  }

  /** The strings of a list as a JSON array. */
  function Strings(xs: seq<string>): (r: Json)
    ensures r.JArr? && |r.items| == |xs| && forall i :: 0 <= i < |xs| ==> r.items[i] == JStr(xs[i])
  {
    JArr(seq(|xs|, i requires 0 <= i < |xs| => JStr(xs[i])))
  }
}
