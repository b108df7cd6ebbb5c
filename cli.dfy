/** The top-level command group: the context the group stores, `api-list` (the
    endpoints of the server's OpenAPI document as a table) and `api-call` (one call
    to any endpoint). */
module Cli {
  import opened Wrappers
  import opened Json
  import Text
  import Api
  import Output
  import opened Commands

  // ---------------------------------------------------------------- cli

  const DefaultConfig: string := "config.yaml"

  /** The group callback: `ctx.ensure_object(dict)` (a new dict when there is none),
      then the config path (`config.yaml` unless given) and the debug flag are stored
      in it; every other entry is kept. */
  method SetupContext(obj: Option<Dict>, config: Option<string>, debug: bool) returns (r: Dict)
    ensures Get(r, "config") == Some(JStr(if config.Some? then config.value else DefaultConfig))
    ensures Get(r, "debug") == Some(JBool(debug))
    ensures forall k :: k != "config" && k != "debug" ==> Get(r, k) == if obj.Some? then Get(obj.value, k) else None
  {
    r := if obj.Some? then obj.value else [];
    r := Put(r, "config", JStr(config.GetOr(DefaultConfig)));
    r := Put(r, "debug", JBool(debug));
  }

  // ---------------------------------------------------------------- api-list

  const ListPrefix: string := "获取API列表失败: "
  const SpecEndpoint: string := "/apispec.json"
  const ApiColumns: seq<string> := ["path", "method", "summary", "tags"]

  /** The first item of a list that is not a string. */
  function FirstNonText(items: seq<Json>): (i: nat)
    requires exists j :: 0 <= j < |items| && !items[j].JStr?
    ensures i < |items| && !items[i].JStr? && forall j :: 0 <= j < i ==> items[j].JStr?
  {
    if !items[0].JStr? then 0
    else
      assert exists j :: 0 <= j < |items[1..]| && !items[1..][j].JStr? by {
        var j :| 0 <= j < |items| && !items[j].JStr?;
        assert items[1..][j - 1] == items[j];
      }
      var i := FirstNonText(items[1..]);
      assert forall j :: 1 <= j < i + 1 ==> items[j] == items[1..][j - 1];
      i + 1
  }

  /** `', '.join(tags)`: the strings of an iterable joined by `, `; an iterable with
      an item that is not a string, or a value that cannot be iterated, raises. */
  function TagsText(tags: Json): (r: Result<string, Failure>)
    ensures r.Ok? <==> (match Iterate(tags) case None => false
                         case Some(items) => forall i :: 0 <= i < |items| ==> items[i].JStr?)
  {
    match Iterate(tags)
    case None => Err(NotIterable(TypeName(tags)))
    case Some(items) =>
      if forall i :: 0 <= i < |items| ==> items[i].JStr? then
        Ok(Text.Join(seq(|items|, i requires 0 <= i < |items| => items[i].s), ", "))
      else Err(BadOperand(TypeName(items[FirstNonText(items)])))
  }

  /** A list of strings is joined as it is. */
  lemma TagsOfStrings(xs: seq<string>)
    ensures TagsText(Strings(xs)) == Ok(Text.Join(xs, ", "))
  {
    var items := Strings(xs).items;
    assert seq(|items|, i requires 0 <= i < |items| => items[i].s) == xs;
  }

  /** The row of one operation: its path, its method upper-cased, its summary (`''`
      when missing) and its tags joined. An operation that is not a dict has no `.get`. */
  function ApiRow(path: string, verb: string, info: Json): (r: Result<Json, Failure>)
    ensures r.Ok? <==> info.JObj? && TagsText(GetOr(info.fields, "tags", JArr([]))).Ok?
    ensures r.Ok? ==> && r.value.JObj? && Keys(r.value.fields) == ApiColumns
                      && r.value.fields[0].val == JStr(path)
                      && r.value.fields[1].val == JStr(Text.Upper(verb))
                      && r.value.fields[2].val == GetOr(info.fields, "summary", JStr(""))
                      && r.value.fields[3].val == JStr(TagsText(GetOr(info.fields, "tags", JArr([]))).value)
  {
    if !info.JObj? then Err(NoAttribute(TypeName(info), "get"))
    else
      match TagsText(GetOr(info.fields, "tags", JArr([])))
      case Err(e) => Err(e)
      case Ok(tags) =>
        Ok(JObj([Field("path", JStr(path)), Field("method", JStr(Text.Upper(verb))),
                 Field("summary", GetOr(info.fields, "summary", JStr(""))), Field("tags", JStr(tags))]))
  }

  /** The rows of one path's operations, in order; the first that raises stops. */
  function MethodRows(path: string, methods: Dict): (r: Result<seq<Json>, Failure>)
    ensures r.Ok? <==> forall i :: 0 <= i < |methods| ==> ApiRow(path, methods[i].key, methods[i].val).Ok?
    ensures r.Ok? ==> (|r.value| == |methods| &&
      forall i :: 0 <= i < |methods| ==> r.value[i] == ApiRow(path, methods[i].key, methods[i].val).value)
  {
    if methods == [] then Ok([])
    else
      assert forall i :: 1 <= i < |methods| ==> methods[i] == methods[1..][i - 1];
      match ApiRow(path, methods[0].key, methods[0].val)
      case Err(e) => Err(e)
      case Ok(row) =>
        match MethodRows(path, methods[1..])
        case Err(e) => Err(e)
        case Ok(rest) => Ok([row] + rest)
  }

  /** `methods.items()`: a path whose value is not a dict raises. */
  function PathMethods(path: string, methods: Json): Result<seq<Json>, Failure> {
    if methods.JObj? then MethodRows(path, methods.fields) else Err(NoAttribute(TypeName(methods), "items"))
  }

  /** The rows of every path, one after the other. */
  function PathRows(paths: Dict): Result<seq<Json>, Failure> {
    if paths == [] then Ok([])
    else Then(PathMethods(paths[0].key, paths[0].val), PathRows(paths[1..]))
  }

  /** `apis`: the rows of `response['paths']`, or none when the answer is not a dict
      with `paths`. */
  function ApiListing(response: Json): Result<seq<Json>, Failure> {
    if response.JObj? && "paths" in Keys(response.fields) then
      var paths := Get(response.fields, "paths").value;
      if paths.JObj? then PathRows(paths.fields) else Err(NoAttribute(TypeName(paths), "items"))
    else Ok([])
  }

  /** The number of (path, method) pairs. */
  function PairCount(paths: Dict): nat {
    if paths == [] then 0
    else (if paths[0].val.JObj? then |paths[0].val.fields| else 0) + PairCount(paths[1..])
  }

  /** One row per (path, method) pair. */
  lemma {:induction false} PathRowsCount(paths: Dict)
    requires PathRows(paths).Ok?
    ensures |PathRows(paths).value| == PairCount(paths)
  {
    if paths != [] {
      PathRowsCount(paths[1..]);
    }
  }

  /** Every row has the four columns, a path of the document and an upper-cased method. */
  lemma {:induction false} PathRowsShape(paths: Dict)
    requires PathRows(paths).Ok?
    ensures forall i :: 0 <= i < |PathRows(paths).value| ==>
      var row := PathRows(paths).value[i];
      && row.JObj? && Keys(row.fields) == ApiColumns
      && row.fields[0].val.JStr? && row.fields[0].val.s in Keys(paths)
      && row.fields[1].val.JStr? && Text.Upper(row.fields[1].val.s) == row.fields[1].val.s
  {
    if paths != [] {
      KeysCons(paths[0], paths[1..]);
      assert paths == [paths[0]] + paths[1..];
      PathRowsShape(paths[1..]);
      var first := PathMethods(paths[0].key, paths[0].val).value;
      var rest := PathRows(paths[1..]).value;
      assert PathRows(paths).value == first + rest;
      forall i | 0 <= i < |first|
        ensures first[i].fields[0].val == JStr(paths[0].key)
        ensures Text.Upper(first[i].fields[1].val.s) == first[i].fields[1].val.s
      {
        var m := paths[0].val.fields[i].key;
        assert first[i].fields[1].val == JStr(Text.Upper(m));
        UpperIdempotent(m);
      }
    }
  }

  lemma UpperIdempotent(s: string)
    ensures Text.Upper(Text.Upper(s)) == Text.Upper(s)
  {
  }

  /** The rows of a dict's paths written one after the other are the rows of each. */
  lemma {:induction false} PathRowsAppend(a: Dict, b: Dict)
    ensures PathRows(a + b) == Then(PathRows(a), PathRows(b))
  {
    if a == [] {
      assert a + b == b;
      ThenNothing(PathRows(b));
    } else {
      assert (a + b)[0] == a[0] && (a + b)[1..] == a[1..] + b;
      PathRowsAppend(a[1..], b);
      ThenAssoc(PathMethods(a[0].key, a[0].val), PathRows(a[1..]), PathRows(b));
    }
  }

  /** The inner loop of `api-list`: one row per operation of a path, appended to the
      rows collected so far. */
  method AppendMethodRows(path: string, methods: Dict, table: seq<Json>) returns (r: Result<seq<Json>, Failure>)
    ensures r == Then(Ok(table), MethodRows(path, methods))
  {
    var rows: seq<Json> := [];
    var j := 0;
    while j < |methods|
      invariant 0 <= j <= |methods| && |rows| == j
      invariant forall k :: 0 <= k < j ==>
        ApiRow(path, methods[k].key, methods[k].val).Ok? && rows[k] == ApiRow(path, methods[k].key, methods[k].val).value
    {
      var row := ApiRow(path, methods[j].key, methods[j].val);
      if row.Err? {
        MethodRowsFirstFailure(path, methods, j);
        return Err(row.error);
      }
      var next := rows + [row.value];
      assert forall k :: 0 <= k < j ==> next[k] == rows[k];
      rows := next;
      j := j + 1;
    }
    MethodRowsAll(path, methods, rows);
    r := Ok(table + rows);
  }

  /** Rows built for every operation are the rows of the path. */
  lemma MethodRowsAll(path: string, methods: Dict, rows: seq<Json>)
    requires |rows| == |methods|
    requires forall k :: 0 <= k < |methods| ==>
      ApiRow(path, methods[k].key, methods[k].val).Ok? && rows[k] == ApiRow(path, methods[k].key, methods[k].val).value
    ensures MethodRows(path, methods) == Ok(rows)
  {
    var r := MethodRows(path, methods);
    assert r.Ok?;
    assert r.value == rows;
  }

  /** When the first `j` operations give rows and the next one raises, so do the rows. */
  lemma {:induction false} MethodRowsFirstFailure(path: string, methods: Dict, j: nat)
    requires j < |methods| && ApiRow(path, methods[j].key, methods[j].val).Err?
    requires forall k :: 0 <= k < j ==> ApiRow(path, methods[k].key, methods[k].val).Ok?
    ensures MethodRows(path, methods) == Err(ApiRow(path, methods[j].key, methods[j].val).error)
  {
    if j > 0 {
      assert forall k :: 0 <= k < j - 1 ==> methods[1..][k] == methods[k + 1];
      MethodRowsFirstFailure(path, methods[1..], j - 1);
    }
  }

  /** The nested loop of `api-list` over `response['paths'].items()`. */
  method ListApis(paths: Dict) returns (r: Result<seq<Json>, Failure>)
    ensures r == PathRows(paths)
  {
    var apis: seq<Json> := [];
    var i := 0;
    assert paths[0..] == paths;
    ThenNothing(PathRows(paths));
    while i < |paths|
      invariant 0 <= i <= |paths|
      invariant PathRows(paths) == Then(Ok(apis), PathRows(paths[i..]))
    {
      ghost var before := apis;
      assert paths[i..][0] == paths[i] && paths[i..][1..] == paths[i + 1..];
      var path, methods := paths[i].key, paths[i].val;
      if !methods.JObj? {
        return Err(NoAttribute(TypeName(methods), "items"));
      }
      var more := AppendMethodRows(path, methods.fields, apis);
      if more.Err? {
        return Err(more.error);
      }
      apis := more.value;
      ThenAssoc(Ok(before), MethodRows(path, methods.fields), PathRows(paths[i + 1..]));
      i := i + 1;
    }
    assert paths[i..] == [];
    ThenNothing(Ok(apis));
    r := Ok(apis);
  }

  /** `api-list`: fetch the OpenAPI document once and show its operations. */
  function ApiList(config: Json, format: string, client: Client): (seq<Display>, seq<Call>) {
    match Api.Build(config)
    case Err(e) => ([Crash(Output.Error, ListPrefix, SetupRaised(e))], [])
    case Ok(_) =>
      var call := GetCall(SpecEndpoint);
      match client(0, call)
      case Raised(f) => ([Crash(Output.Error, ListPrefix, ClientFailed(f))], [call])
      case Done(response) =>
        if format != "table" then ([Formatted(format, response)], [call])
        else match ApiListing(response)
          case Err(e) => ([Crash(Output.Error, ListPrefix, e)], [call])
          case Ok(rows) => (ShowTable(JArr(rows), "可用API端点", ListPrefix), [call])
  }

  /** An answer that is not a dict with `paths` gives no rows, which the table
      shows as "no data". */
  lemma NoPathsNoRows(config: Json, response: Json, client: Client)
    requires Api.Build(config).Ok? && client(0, GetCall(SpecEndpoint)) == Api.Done(response)
    requires !response.JObj? || "paths" !in Keys(response.fields)
    ensures ApiListing(response) == Ok([])
    ensures ApiList(config, "table", client).0 == [Table(JArr([]), "可用API端点")]
    ensures Output.PrintRichTable(JArr([])) == Ok(Output.NoData)
  {
  }

  // ---------------------------------------------------------------- api-call

  const CallPrefix: string := "API调用失败: "
  const BadData: string := "请求数据格式错误，请使用有效的JSON格式"

  /** `json.loads(text)`: the value, or none for a `JSONDecodeError`. */
  type Decoder = string -> Option<Json>

  function VerbName(verb: Api.Verb): string {
    match verb
    case GET => "GET" case POST => "POST" case PUT => "PUT" case PATCH => "PATCH" case DELETE => "DELETE"
  }

  /** `json_data=` of a call: a decoded `null` is Python's `None`, which sends no body. */
  function Body(data: Json): Option<Json> {
    if data.JNull? then None else Some(data)
  }

  /** The call `api-call` makes for `--method`; GET and DELETE send no body. */
  function Dispatch(verb: Api.Verb, endpoint: string, data: Json): (c: Call)
    requires verb != Api.PATCH
    ensures c.verb == verb && c.endpoint == endpoint && c.query.None? && c.authorization.None?
    ensures c.body == if verb == Api.POST || verb == Api.PUT then Body(data) else None
  {
    match verb
    case GET => GetCall(endpoint)
    case POST => PostCall(endpoint, Body(data))
    case PUT => PutCall(endpoint, Body(data))
    case DELETE => DeleteCall(endpoint)
  }

  /** The rows of the table: a list answer as it is, any other answer as one row. */
  function CallRows(response: Json): (rows: Json)
    ensures rows.JArr?
    ensures response.JArr? ==> rows == response
    ensures !response.JArr? ==> rows.items == [response]
  {
    if response.JArr? then response else JArr([response])
  }

  /** `api-call`: the client is built, `--data` (when non-empty) is decoded, and a
      malformed one ends the command before any call; otherwise one call is made and
      its answer shown. */
  function ApiCall(config: Json, endpoint: string, verb: Api.Verb, data: Option<string>, format: string,
                   decode: Decoder, client: Client): (seq<Display>, seq<Call>)
    requires verb != Api.PATCH
  {
    match Api.Build(config)
    case Err(e) => ([Crash(Output.Error, CallPrefix, SetupRaised(e))], [])
    case Ok(_) =>
      if Given(data) && decode(data.value).None? then ([Note(Output.Error, BadData)], [])
      else
        var json := if Given(data) then decode(data.value).value else JNull;
        var call := Dispatch(verb, endpoint, json);
        match client(0, call)
        case Raised(f) => ([Crash(Output.Error, CallPrefix, ClientFailed(f))], [call])
        case Done(response) =>
          if format == "table" then (ShowTable(CallRows(response), VerbName(verb) + " " + endpoint, CallPrefix), [call])
          else ([Formatted(format, response)], [call])
  }

  /** Malformed `--data` is reported and nothing is sent. */
  lemma MalformedDataNoRequest(config: Json, endpoint: string, verb: Api.Verb, data: string, format: string,
                               decode: Decoder, client: Client)
    requires verb != Api.PATCH && Api.Build(config).Ok?
    requires data != "" && decode(data).None?
    ensures ApiCall(config, endpoint, verb, Some(data), format, decode, client) == ([Note(Output.Error, BadData)], [])
  {
  }

  /** Otherwise exactly one call is made, with the decoded data as the body of a
      POST or PUT, and in table mode a list answer is the table's rows while any other
      answer is its single row. */
  lemma ApiCallRequest(config: Json, endpoint: string, verb: Api.Verb, data: Option<string>, format: string,
                       decode: Decoder, client: Client)
    requires verb != Api.PATCH && Api.Build(config).Ok?
    requires !Given(data) || decode(data.value).Some?
    ensures var json := if Given(data) then decode(data.value).value else JNull;
      var call := Dispatch(verb, endpoint, json);
      && ApiCall(config, endpoint, verb, data, format, decode, client).1 == [call]
      && (client(0, call).Done? && format == "table" ==>
            ApiCall(config, endpoint, verb, data, format, decode, client).0
              == ShowTable(CallRows(client(0, call).value), VerbName(verb) + " " + endpoint, CallPrefix))
  {
  }

  /** `api-list` and `api-call` pass no `headers=`, so they reach the server with the
      client as written. */
  lemma CliReachesServer(config: Json, endpoint: string, verb: Api.Verb, data: Option<string>, format: string,
                         decode: Decoder, server: (nat, Call) -> Api.Reply)
    requires verb != Api.PATCH
    ensures ApiList(config, format, AsWritten(server)) == ApiList(config, format, Corrected(server))
    ensures ApiCall(config, endpoint, verb, data, format, decode, AsWritten(server))
         == ApiCall(config, endpoint, verb, data, format, decode, Corrected(server))
  {
    ApiListAgrees(config, format, server);
    ApiCallAgrees(config, endpoint, verb, data, format, decode, server);
  }

  lemma ApiListAgrees(config: Json, format: string, server: (nat, Call) -> Api.Reply)
    ensures ApiList(config, format, AsWritten(server)) == ApiList(config, format, Corrected(server))
  {
    ClientsAgree(server, 0, GetCall(SpecEndpoint));
  }

  lemma ApiCallAgrees(config: Json, endpoint: string, verb: Api.Verb, data: Option<string>, format: string,
                      decode: Decoder, server: (nat, Call) -> Api.Reply)
    requires verb != Api.PATCH
    ensures ApiCall(config, endpoint, verb, data, format, decode, AsWritten(server))
         == ApiCall(config, endpoint, verb, data, format, decode, Corrected(server))
  {
    var json := if Given(data) then (if decode(data.value).Some? then decode(data.value).value else JNull) else JNull;
    ClientsAgree(server, 0, Dispatch(verb, endpoint, json));
  }
}
