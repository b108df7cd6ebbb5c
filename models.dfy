/** The `models` command group: LLM configurations under `/v1/llm/...`. Every
    command builds an `APIClient`, makes its calls without `headers=`, counts an
    answer as a success when it is a dict whose `code` equals 0, and otherwise
    echoes its `message` (default `'Unknown error'`). */
module Models {
  import opened Wrappers
  import opened Json
  import Api
  import Output
  import opened Commands

  const UnknownError: string := "Unknown error"
  const DefaultMaxTokens: int := 8192

  /** The echo of a refused answer: `f"{prefix}{response.get('message', 'Unknown error')}"`;
      on an answer that is not a dict the `.get` raises and the `except` reports it. */
  function Complaint(prefix: string, response: Json, exceptPrefix: string): seq<Display> {
    match Lookup(response, "message", JStr(UnknownError))
    case Ok(m) => [Echo(prefix + PyStr(m))]
    case Err(e) => [EchoFailure(exceptPrefix, e)]
  }

  /** A refused dict answer shows its message, or `'Unknown error'` when it has none. */
  lemma ComplaintMessage(prefix: string, d: Dict, exceptPrefix: string)
    ensures "message" !in Keys(d) ==> Complaint(prefix, JObj(d), exceptPrefix) == [Echo(prefix + UnknownError)]
    ensures "message" in Keys(d) ==> Complaint(prefix, JObj(d), exceptPrefix) == [Echo(prefix + PyStr(Get(d, "message").value))]
  {
  }

  /** What a command shows for the answer to its one call: `success` when the answer
      counts, the complaint otherwise, and the `except` report when the call raised. */
  function Answered(outcome: Api.Outcome, success: seq<Display>, prefix: string, exceptPrefix: string): (r: seq<Display>)
    ensures outcome.Done? && CodeZero(outcome.value) ==> r == success
    ensures outcome.Raised? ==> r == [EchoFailure(exceptPrefix, ClientFailed(outcome.fault))]
    ensures outcome.Done? && !CodeZero(outcome.value) ==> r == Complaint(prefix, outcome.value, exceptPrefix)
  {
    match outcome
    case Raised(f) => [EchoFailure(exceptPrefix, ClientFailed(f))]
    case Done(response) => if CodeZero(response) then success else Complaint(prefix, response, exceptPrefix)
  }

  // ---------------------------------------------------------------- list

  const ModelColumns: seq<string> := ["Factory", "Model Name", "Type", "Used Tokens"]

  /** The row of one configured model: its factory, then `name` and `type`
      (default `''`) and `used_token` (default 0). */
  function LlmRow(factory: string, llm: Dict): (row: Json)
    ensures row.JObj? && Keys(row.fields) == ModelColumns
    ensures Get(row.fields, "Factory") == Some(JStr(factory))
  {
    JObj([Field("Factory", JStr(factory)), Field("Model Name", GetOr(llm, "name", JStr(""))),
          Field("Type", GetOr(llm, "type", JStr(""))), Field("Used Tokens", GetOr(llm, "used_token", JInt(0)))])
  }

  /** Each other cell of a model's row is the entry's value, or the column's default
      when the entry lacks it: `''` for the name and the type, 0 for the tokens. */
  lemma LlmRowCells(factory: string, llm: Dict)
    ensures var row := LlmRow(factory, llm).fields;
      && Get(row, "Model Name") == Some(if "name" in Keys(llm) then Get(llm, "name").value else JStr(""))
      && Get(row, "Type") == Some(if "type" in Keys(llm) then Get(llm, "type").value else JStr(""))
      && Get(row, "Used Tokens") == Some(if "used_token" in Keys(llm) then Get(llm, "used_token").value else JInt(0))
  {
    var row := LlmRow(factory, llm).fields;
    var b, c, d := GetOr(llm, "name", JStr("")), GetOr(llm, "type", JStr("")), GetOr(llm, "used_token", JInt(0));
    var r1, r2, r3 := row[1..], row[2..], row[3..];
    assert r1 == [Field("Model Name", b), Field("Type", c), Field("Used Tokens", d)];
    assert r2 == [Field("Type", c), Field("Used Tokens", d)] && r2 == r1[1..];
    assert r3 == [Field("Used Tokens", d)] && r3 == r2[1..];
    assert "Factory"[0] != "Model Name"[0] && "Factory"[0] != "Type"[0] && "Factory"[0] != "Used Tokens"[0];
    assert "Model Name"[0] != "Type"[0] && "Model Name"[0] != "Used Tokens"[0] && "Type"[0] != "Used Tokens"[0];
    assert Get(row, "Model Name") == Get(r1, "Model Name") == Some(b);
    assert Get(row, "Type") == Get(r1, "Type");
    assert Get(r1, "Type") == Get(r2, "Type") == Some(c);
    assert Get(row, "Used Tokens") == Get(r1, "Used Tokens");
    assert Get(r1, "Used Tokens") == Get(r2, "Used Tokens");
    assert Get(r2, "Used Tokens") == Get(r3, "Used Tokens") == Some(d);
  }

  /** The rows of one factory's `llm` entries, one per entry in order; the first
      entry that is not a dict raises on `.get`. */
  function LlmRows(factory: string, llms: seq<Json>): (r: Result<seq<Json>, Failure>)
    ensures r.Ok? <==> forall i :: 0 <= i < |llms| ==> llms[i].JObj?
    ensures r.Ok? ==> |r.value| == |llms| && forall i :: 0 <= i < |llms| ==> r.value[i] == LlmRow(factory, llms[i].fields)
    ensures r.Err? ==> exists i :: (0 <= i < |llms| && !llms[i].JObj? && (forall j :: 0 <= j < i ==> llms[j].JObj?)
      && r.error == NoAttribute(TypeName(llms[i]), "get"))
  {
    if llms == [] then Ok([])
    else if !llms[0].JObj? then Err(NoAttribute(TypeName(llms[0]), "get"))
    else
      assert forall i :: 1 <= i < |llms| ==> llms[i] == llms[1..][i - 1];
      match LlmRows(factory, llms[1..])
      case Err(e) => Err(e)
      case Ok(rest) => Ok([LlmRow(factory, llms[0].fields)] + rest)
  }

  /** `config.get('llm', [])` iterated: a configuration that is not a dict has no
      `.get`, and an `llm` entry that is not iterable raises. */
  function FactoryRows(factory: string, config: Json): Result<seq<Json>, Failure> {
    if !config.JObj? then Err(NoAttribute(TypeName(config), "get"))
    else
      var llm := GetOr(config.fields, "llm", JArr([]));
      match Iterate(llm)
      case None => Err(NotIterable(TypeName(llm)))
      case Some(items) => LlmRows(factory, items)
  }

  /** The table of `models list`: the rows of every factory of `data.items()`, in
      order. Every row has the four columns and names a factory of `data`. */
  function ConfiguredRows(data: Dict): Result<seq<Json>, Failure> {
    if data == [] then Ok([])
    else Then(FactoryRows(data[0].key, data[0].val), ConfiguredRows(data[1..]))
  }

  /** Every row of the listing has the four columns and names a factory of `data`. */
  lemma {:induction false} ConfiguredRowsShape(data: Dict)
    requires ConfiguredRows(data).Ok?
    ensures forall i :: 0 <= i < |ConfiguredRows(data).value| ==>
      var row := ConfiguredRows(data).value[i];
      row.JObj? && Keys(row.fields) == ModelColumns &&
      Get(row.fields, "Factory").Some? && Get(row.fields, "Factory").value.JStr? &&
      Get(row.fields, "Factory").value.s in Keys(data)
  {
    if data != [] {
      KeysCons(data[0], data[1..]);
      assert data == [data[0]] + data[1..];
      ConfiguredRowsShape(data[1..]);
      var rows := FactoryRows(data[0].key, data[0].val).value;
      var rest := ConfiguredRows(data[1..]).value;
      assert ConfiguredRows(data).value == rows + rest;
      forall i | 0 <= i < |rows| ensures Get(rows[i].fields, "Factory") == Some(JStr(data[0].key)) && Keys(rows[i].fields) == ModelColumns {
      }
    }
  }

  /** The rows of two dicts one after the other are the rows of each, in order. */
  lemma {:induction false} ConfiguredRowsAppend(a: Dict, b: Dict)
    ensures ConfiguredRows(a + b) == Then(ConfiguredRows(a), ConfiguredRows(b))
  {
    if a == [] {
      assert a + b == b;
      ThenNothing(ConfiguredRows(b));
    } else {
      assert (a + b)[0] == a[0] && (a + b)[1..] == a[1..] + b;
      ConfiguredRowsAppend(a[1..], b);
      ThenAssoc(FactoryRows(a[0].key, a[0].val), ConfiguredRows(a[1..]), ConfiguredRows(b));
    }
  }

  /** A factory without an `llm` entry adds no rows. */
  lemma FactoryWithoutLlm(data: Dict, factory: string, config: Dict)
    requires "llm" !in Keys(config)
    ensures ConfiguredRows(data + [Field(factory, JObj(config))]) == ConfiguredRows(data)
  {
    var one := [Field(factory, JObj(config))];
    ConfiguredRowsAppend(data, one);
    assert one[1..] == [];
    assert GetOr(config, "llm", JArr([])) == JArr([]);
    assert FactoryRows(factory, JObj(config)) == Ok([]);
    ThenNothing(Ok([]));
    assert ConfiguredRows(one) == Ok([]);
    ThenNothing(ConfiguredRows(data));
  }

  /** The inner loop of `models list`: one row per model of a factory, appended to
      the rows collected so far. */
  method AppendLlmRows(factory: string, items: seq<Json>, table: seq<Json>) returns (r: Result<seq<Json>, Failure>)
    ensures r == Then(Ok(table), LlmRows(factory, items))
  {
    var rows := table;
    var j := 0;
    while j < |items|
      invariant 0 <= j <= |items|
      invariant |rows| == |table| + j && rows[..|table|] == table
      invariant forall k :: 0 <= k < j ==> items[k].JObj? && rows[|table| + k] == LlmRow(factory, items[k].fields)
    {
      if !items[j].JObj? {
        var e := LlmRows(factory, items).error;
        ghost var w :| 0 <= w < |items| && !items[w].JObj? && (forall k :: 0 <= k < w ==> items[k].JObj?)
          && e == NoAttribute(TypeName(items[w]), "get");
        assert w == j;
        return Err(e);
      }
      rows := rows + [LlmRow(factory, items[j].fields)];
      j := j + 1;
    }
    assert rows == table + LlmRows(factory, items).value;
    r := Ok(rows);
  }

  /** The nested loop of `models list`, appending one row per model. */
  method FlattenModels(data: Dict) returns (r: Result<seq<Json>, Failure>)
    ensures r == ConfiguredRows(data)
  {
    var table: seq<Json> := [];
    var i := 0;
    assert data[0..] == data;
    ThenNothing(ConfiguredRows(data));
    while i < |data|
      invariant 0 <= i <= |data|
      invariant ConfiguredRows(data) == Then(Ok(table), ConfiguredRows(data[i..]))
    {
      ghost var before := table;
      assert data[i..][0] == data[i] && data[i..][1..] == data[i + 1..];
      var factory, config := data[i].key, data[i].val;
      if !config.JObj? {
        return Err(NoAttribute(TypeName(config), "get"));
      }
      var llm := GetOr(config.fields, "llm", JArr([]));
      var found := Iterate(llm);
      if found.None? {
        return Err(NotIterable(TypeName(llm)));
      }
      var more := AppendLlmRows(factory, found.value, table);
      if more.Err? {
        return Err(more.error);
      }
      table := more.value;
      var rows := LlmRows(factory, found.value).value;
      ThenAssoc(Ok(before), Ok(rows), ConfiguredRows(data[i + 1..]));
      i := i + 1;
    }
    assert data[i..] == [];
    ThenNothing(Ok(table));
    r := Ok(table);
  }

  /** `models list`: the table of configured models, or `data` formatted as asked. */
  function ListModels(config: Json, format: string, client: Client): (seq<Display>, seq<Call>) {
    match Api.Build(config)
    case Err(e) => ([EchoFailure("Error: ", SetupRaised(e))], [])
    case Ok(_) =>
      var call := GetCall("/v1/llm/my_llms");
      var success := match client(0, call)
        case Done(response) =>
          var data := GetOr(if response.JObj? then response.fields else [], "data", JObj([]));
          if format != "table" then [Formatted(format, data)]
          else if !data.JObj? then [EchoFailure("Error: ", NoAttribute(TypeName(data), "items"))]
          else (match ConfiguredRows(data.fields)
            case Err(e) => [EchoFailure("Error: ", e)]
            case Ok(rows) => EchoTable(JArr(rows), "Configured Models", "Error: "))
        case Raised(_) => [];
      (Answered(client(0, call), success, "Error: ", "Error: "), [call])
  }

  /** An accepted listing with at least one model shows the table whose columns are
      Factory, Model Name, Type and Used Tokens. */
  lemma ListModelsColumns(config: Json, client: Client, d: Dict)
    requires Api.Build(config).Ok?
    requires client(0, GetCall("/v1/llm/my_llms")) == Api.Done(JObj(d)) && CodeZero(JObj(d))
    requires GetOr(d, "data", JObj([])).JObj?
    requires ConfiguredRows(GetOr(d, "data", JObj([])).fields).Ok?
    requires ConfiguredRows(GetOr(d, "data", JObj([])).fields).value != []
    ensures var rows := ConfiguredRows(GetOr(d, "data", JObj([])).fields).value;
      && ListModels(config, "table", client).0 == [Table(JArr(rows), "Configured Models")]
      && Output.PrintRichTable(JArr(rows)).Ok?
      && Output.PrintRichTable(JArr(rows)).value.columns == ModelColumns
  {
    var data := GetOr(d, "data", JObj([]));
    var rows := ConfiguredRows(data.fields).value;
    ConfiguredRowsShape(data.fields);
    ModelsTable(rows);
  }

  /** Rows that all have the four columns make a table with those columns. */
  lemma ModelsTable(rows: seq<Json>)
    requires rows != []
    requires forall i :: 0 <= i < |rows| ==> rows[i].JObj? && Keys(rows[i].fields) == ModelColumns
    ensures Output.PrintRichTable(JArr(rows)).Ok?
    ensures Output.PrintRichTable(JArr(rows)).value.columns == ModelColumns
    ensures EchoTable(JArr(rows), "Configured Models", "Error: ") == [Table(JArr(rows), "Configured Models")]
  {
    assert Output.RichRows(rows).Ok?;
    assert Output.PrintRichTable(JArr(rows)) == Ok(Output.Table(Keys(rows[0].fields), Output.RichRows(rows).value));
  }

  // ---------------------------------------------------------------- set-default, add, delete

  /** `models set-default`: POST the model type, factory and name. */
  function SetDefaultPayload(modelType: string, factory: string, name: string): (r: Dict)
    ensures Keys(r) == ["model_type", "llm_factory", "llm_name"]
    ensures Values(r) == [JStr(modelType), JStr(factory), JStr(name)]
  {
    [Field("model_type", JStr(modelType)), Field("llm_factory", JStr(factory)), Field("llm_name", JStr(name))]
  }

  function SetDefault(config: Json, modelType: string, factory: string, name: string, client: Client): (seq<Display>, seq<Call>) {
    match Api.Build(config)
    case Err(e) => ([EchoFailure("❌ Error: ", SetupRaised(e))], [])
    case Ok(_) =>
      var call := PostCall("/v1/llm/set_default_model", Some(JObj(SetDefaultPayload(modelType, factory, name))));
      var done := [Echo("✅ Default " + modelType + " model set to " + name + " in factory " + factory)];
      (Answered(client(0, call), done, "❌ Error: ", "❌ Error: "), [call])
  }

  /** `models add`: `api_key or ''` and `base_url or ''`, so a missing or empty option
      sends the empty string; `max_tokens` defaults to 8192. */
  function AddPayload(factory: string, name: string, modelType: string, apiKey: Option<string>,
                      baseUrl: Option<string>, maxTokens: Option<int>): Dict {
    AddHead(factory, name, modelType) + AddSettings(apiKey, baseUrl, maxTokens)
  }

  /** The model the payload of `add` names. */
  function AddHead(factory: string, name: string, modelType: string): (r: Dict)
    ensures Keys(r) == ["llm_factory", "llm_name", "model_type"]
  {
    [Field("llm_factory", JStr(factory)), Field("llm_name", JStr(name)), Field("model_type", JStr(modelType))]
  }

  /** The settings the payload of `add` carries. */
  function AddSettings(apiKey: Option<string>, baseUrl: Option<string>, maxTokens: Option<int>): (r: Dict)
    ensures Keys(r) == ["api_key", "api_base", "max_tokens"]
  {
    var key := if apiKey.Some? && apiKey.value != "" then apiKey.value else "";
    var base := if baseUrl.Some? && baseUrl.value != "" then baseUrl.value else "";
    [Field("api_key", JStr(key)), Field("api_base", JStr(base)),
     Field("max_tokens", JInt(if maxTokens.Some? then maxTokens.value else DefaultMaxTokens))]
  }

  /** The payload of `add` has the six keys in order; a missing or empty key or base URL
      is sent as `''` and any other as given; `max_tokens` defaults to 8192. */
  lemma AddPayloadFields(factory: string, name: string, modelType: string, apiKey: Option<string>,
                         baseUrl: Option<string>, maxTokens: Option<int>)
    ensures var r := AddPayload(factory, name, modelType, apiKey, baseUrl, maxTokens);
      && Keys(r) == Keys(AddHead(factory, name, modelType)) + ["api_key", "api_base", "max_tokens"]
      && (Get(r, "api_key") == Some(JStr("")) <==> apiKey.None? || apiKey == Some(""))
      && (Get(r, "api_base") == Some(JStr("")) <==> baseUrl.None? || baseUrl == Some(""))
      && (apiKey.Some? ==> Get(r, "api_key") == Some(JStr(apiKey.value)))
      && (baseUrl.Some? ==> Get(r, "api_base") == Some(JStr(baseUrl.value)))
      && Get(r, "max_tokens") == Some(JInt(if maxTokens.Some? then maxTokens.value else DefaultMaxTokens))
  {
    KeysAppend(AddHead(factory, name, modelType), AddSettings(apiKey, baseUrl, maxTokens));
    AddPayloadGets(factory, name, modelType, apiKey, baseUrl, maxTokens);
  }

  /** `get` on the payload of `add` finds the settings. */
  lemma AddPayloadGets(factory: string, name: string, modelType: string, apiKey: Option<string>,
                       baseUrl: Option<string>, maxTokens: Option<int>)
    ensures var r := AddPayload(factory, name, modelType, apiKey, baseUrl, maxTokens);
      && Get(r, "api_key") == Some(JStr(if apiKey.Some? && apiKey.value != "" then apiKey.value else ""))
      && Get(r, "api_base") == Some(JStr(if baseUrl.Some? && baseUrl.value != "" then baseUrl.value else ""))
      && Get(r, "max_tokens") == Some(JInt(if maxTokens.Some? then maxTokens.value else DefaultMaxTokens))
  {
    var head, tail := AddHead(factory, name, modelType), AddSettings(apiKey, baseUrl, maxTokens);
    assert "api_key" !in Keys(head) && "api_base" !in Keys(head) && "max_tokens" !in Keys(head);
    assert UniqueKeys(tail);
    GetConcat(head, tail, "api_key");
    GetConcat(head, tail, "api_base");
    GetConcat(head, tail, "max_tokens");
    GetAt(tail, 0);
    GetAt(tail, 1);
    GetAt(tail, 2);
  }

  function AddModel(config: Json, factory: string, name: string, modelType: string, apiKey: Option<string>,
                    baseUrl: Option<string>, maxTokens: Option<int>, client: Client): (seq<Display>, seq<Call>) {
    match Api.Build(config)
    case Err(e) => ([EchoFailure("Error: ", SetupRaised(e))], [])
    case Ok(_) =>
      var call := PostCall("/v1/llm/add_llm", Some(JObj(AddPayload(factory, name, modelType, apiKey, baseUrl, maxTokens))));
      (Answered(client(0, call), [Echo("Model added successfully!")], "Error: ", "Error: "), [call])
  }

  /** The factory and name that `edit`, `show` and `delete` send. */
  function ModelKey(factory: string, name: string): (r: Dict)
    ensures Keys(r) == ["llm_factory", "llm_name"]
    ensures Values(r) == [JStr(factory), JStr(name)]
  {
    [Field("llm_factory", JStr(factory)), Field("llm_name", JStr(name))]
  }

  function DeleteModel(config: Json, factory: string, name: string, client: Client): (seq<Display>, seq<Call>) {
    match Api.Build(config)
    case Err(e) => ([EchoFailure("Error: ", SetupRaised(e))], [])
    case Ok(_) =>
      var call := PostCall("/v1/llm/delete_llm", Some(JObj(ModelKey(factory, name))));
      (Answered(client(0, call), [Echo("Model deleted successfully!")], "Error: ", "Error: "), [call])
  }

  /** `GET /v1/llm/get_llm_config` with the factory and name as query parameters. */
  function ConfigCall(factory: string, name: string): Call {
    Call(Api.GET, "/v1/llm/get_llm_config", Some(ModelKey(factory, name)), None, None)
  }

  // ---------------------------------------------------------------- edit

  /** The update `edit` sends: an option that was given wins, even when empty;
      otherwise the current configuration's value, otherwise `''`, `''` and 8192.
      Looking into the current configuration needs it to be a dict. */
  function EditPayload(factory: string, name: string, apiKey: Option<string>, baseUrl: Option<string>,
                       maxTokens: Option<int>, current: Json): (r: Result<Dict, Failure>)
    ensures r.Err? <==> (apiKey.None? || baseUrl.None? || maxTokens.None?) && !current.JObj?
    ensures r.Err? ==> r.error == NoAttribute(TypeName(current), "get")
  {
    if (apiKey.None? || baseUrl.None? || maxTokens.None?) && !current.JObj? then Err(NoAttribute(TypeName(current), "get"))
    else
      var key := if apiKey.Some? then JStr(apiKey.value) else GetOr(current.fields, "api_key", JStr(""));
      var base := if baseUrl.Some? then JStr(baseUrl.value) else GetOr(current.fields, "api_base", JStr(""));
      var tokens := if maxTokens.Some? then JInt(maxTokens.value) else GetOr(current.fields, "max_tokens", JInt(DefaultMaxTokens));
      Ok(ModelKey(factory, name) + [Field("api_key", key), Field("api_base", base), Field("max_tokens", tokens)])
  }

  /** The update names the model and carries the three settings, each taken from
      its option when given and from the current configuration otherwise. */
  lemma EditPayloadFields(factory: string, name: string, apiKey: Option<string>, baseUrl: Option<string>,
                          maxTokens: Option<int>, current: Json)
    ensures var r := EditPayload(factory, name, apiKey, baseUrl, maxTokens, current);
      r.Ok? ==> (
        && Keys(r.value) == Keys(ModelKey(factory, name)) + ["api_key", "api_base", "max_tokens"]
        && Get(r.value, "api_key") == Some(
             if apiKey.Some? then JStr(apiKey.value) else GetOr(current.fields, "api_key", JStr("")))
        && Get(r.value, "api_base") == Some(
             if baseUrl.Some? then JStr(baseUrl.value) else GetOr(current.fields, "api_base", JStr("")))
        && Get(r.value, "max_tokens") == Some(
             if maxTokens.Some? then JInt(maxTokens.value) else GetOr(current.fields, "max_tokens", JInt(DefaultMaxTokens))))
  {
    var r := EditPayload(factory, name, apiKey, baseUrl, maxTokens, current);
    if r.Ok? {
      var key := if apiKey.Some? then JStr(apiKey.value) else GetOr(current.fields, "api_key", JStr(""));
      var base := if baseUrl.Some? then JStr(baseUrl.value) else GetOr(current.fields, "api_base", JStr(""));
      var tokens := if maxTokens.Some? then JInt(maxTokens.value) else GetOr(current.fields, "max_tokens", JInt(DefaultMaxTokens));
      var head := ModelKey(factory, name);
      var tail := [Field("api_key", key), Field("api_base", base), Field("max_tokens", tokens)];
      assert r.value == head + tail;
      KeysAppend(head, tail);
      assert Keys(tail) == ["api_key", "api_base", "max_tokens"];
      assert "api_key" !in Keys(head) && "api_base" !in Keys(head) && "max_tokens" !in Keys(head);
      assert UniqueKeys(tail);
      GetConcat(head, tail, "api_key");
      GetConcat(head, tail, "api_base");
      GetConcat(head, tail, "max_tokens");
      GetAt(tail, 0);
      GetAt(tail, 1);
      GetAt(tail, 2);
    }
  }

  /** With every option given the current configuration plays no part. */
  lemma EditIgnoresCurrent(factory: string, name: string, apiKey: string, baseUrl: string, maxTokens: int, c1: Json, c2: Json)
    ensures EditPayload(factory, name, Some(apiKey), Some(baseUrl), Some(maxTokens), c1)
         == EditPayload(factory, name, Some(apiKey), Some(baseUrl), Some(maxTokens), c2)
  {
  }

  /** With no option given, a configuration that has all three values is sent back
      as it is. */
  lemma EditKeepsCurrent(factory: string, name: string, current: Dict)
    requires "api_key" in Keys(current) && "api_base" in Keys(current) && "max_tokens" in Keys(current)
    ensures var r := EditPayload(factory, name, None, None, None, JObj(current));
      && r.Ok?
      && Get(r.value, "api_key") == Get(current, "api_key")
      && Get(r.value, "api_base") == Get(current, "api_base")
      && Get(r.value, "max_tokens") == Get(current, "max_tokens")
  {
    EditPayloadFields(factory, name, None, None, None, JObj(current));
  }

  /** `models edit`: fetch the configuration, and only when that answer counts
      POST the merged update to `/v1/llm/set_api_key`. */
  function EditModel(config: Json, factory: string, name: string, apiKey: Option<string>, baseUrl: Option<string>,
                     maxTokens: Option<int>, client: Client): (seq<Display>, seq<Call>) {
    match Api.Build(config)
    case Err(e) => ([EchoFailure("Error: ", SetupRaised(e))], [])
    case Ok(_) =>
      var fetch := ConfigCall(factory, name);
      match client(0, fetch)
      case Raised(f) => ([EchoFailure("Error: ", ClientFailed(f))], [fetch])
      case Done(response) =>
        if !CodeZero(response) then (Complaint("Error: Model not found - ", response, "Error: "), [fetch])
        else
          match EditPayload(factory, name, apiKey, baseUrl, maxTokens, GetOr(response.fields, "data", JObj([])))
          case Err(e) => ([EchoFailure("Error: ", e)], [fetch])
          case Ok(payload) =>
            var update := PostCall("/v1/llm/set_api_key", Some(JObj(payload)));
            (Answered(client(1, update), [Echo("Model configuration updated successfully!")], "Error: ", "Error: "),
             [fetch, update])
  }

  /** `edit` always fetches first; it sends the update exactly when the fetch
      counts and the merge succeeds, and a refused fetch reports "Model not found". */
  lemma EditOnlyAfterFetch(config: Json, factory: string, name: string, apiKey: Option<string>, baseUrl: Option<string>,
                           maxTokens: Option<int>, client: Client)
    requires Api.Build(config).Ok?
    ensures var (shown, calls) := EditModel(config, factory, name, apiKey, baseUrl, maxTokens, client);
      var first := client(0, ConfigCall(factory, name));
      && 1 <= |calls| <= 2 && calls[0] == ConfigCall(factory, name)
      && (|calls| == 2 <==> (first.Done? && CodeZero(first.value)
            && EditPayload(factory, name, apiKey, baseUrl, maxTokens, GetOr(first.value.fields, "data", JObj([]))).Ok?))
      && (|calls| == 2 ==> (calls[1].endpoint == "/v1/llm/set_api_key"
            && calls[1].body == Some(JObj(EditPayload(factory, name, apiKey, baseUrl, maxTokens, GetOr(first.value.fields, "data", JObj([]))).value))))
      && (first.Done? && first.value.JObj? && !CodeZero(first.value) ==>
            shown == [Echo("Error: Model not found - " + PyStr(GetOr(first.value.fields, "message", JStr(UnknownError))))])
  {
  }

  // ---------------------------------------------------------------- show

  /** `'*' * 10` when the key is set (truthy), `'Not set'` otherwise. */
  const Masked: string := "**********"

  function KeyMask(key: Json): (r: string)
    ensures Truthy(key) ==> r == Masked && |r| == 10 && forall i :: 0 <= i < |r| ==> r[i] == '*'
    ensures !Truthy(key) ==> r == "Not set"
  {
    if Truthy(key) then Masked else "Not set"
  }

  const ShowHeading: string := "Model Configuration:"

  /** The eight lines `show` echoes for a configuration. */
  function ShowLines(c: Dict): (lines: seq<string>)
    ensures |lines| == 8 && lines[0] == ShowHeading
    ensures lines[4] == "  API Key: " + KeyMask(GetOr(c, "api_key", JNull))
  {
    [ShowHeading,
     "  Factory: " + PyStr(GetOr(c, "llm_factory", JStr(""))),
     "  Name: " + PyStr(GetOr(c, "llm_name", JStr(""))),
     "  Type: " + PyStr(GetOr(c, "model_type", JStr(""))),
     "  API Key: " + KeyMask(GetOr(c, "api_key", JNull)),
     "  Base URL: " + PyStr(GetOr(c, "api_base", JStr("Not set"))),
     "  Max Tokens: " + PyStr(GetOr(c, "max_tokens", JInt(DefaultMaxTokens))),
     "  Used Tokens: " + PyStr(GetOr(c, "used_tokens", JInt(0)))]
  }

  /** `show` never reveals the key: two configurations that differ only in a set key
      show the same lines, and an unset key reads "Not set". */
  lemma ShowHidesKey(c: Dict, k1: Json, k2: Json)
    requires Truthy(k1) && Truthy(k2)
    ensures ShowLines(Put(c, "api_key", k1)) == ShowLines(Put(c, "api_key", k2))
    ensures ShowLines(Put(c, "api_key", k1))[4] == "  API Key: " + Masked
    ensures "api_key" !in Keys(c) ==> ShowLines(c)[4] == "  API Key: " + "Not set"
  {
    ShowSameLines(c, k1, k2);
    ShowSetKey(c, k1);
    ShowUnsetKey(c);
  }

  lemma ShowSameLines(c: Dict, k1: Json, k2: Json)
    requires Truthy(k1) && Truthy(k2)
    ensures ShowLines(Put(c, "api_key", k1)) == ShowLines(Put(c, "api_key", k2))
  {
    var c1, c2 := Put(c, "api_key", k1), Put(c, "api_key", k2);
    forall k | k in ShownKeys
      ensures Get(c1, k) == Get(c2, k)
    {
      assert |k| != |"api_key"|;
    }
    assert KeyMask(GetOr(c1, "api_key", JNull)) == Masked == KeyMask(GetOr(c2, "api_key", JNull));
    ShowLinesDepend(c1, c2);
  }

  lemma ShowSetKey(c: Dict, k: Json)
    requires Truthy(k)
    ensures ShowLines(Put(c, "api_key", k))[4] == "  API Key: " + Masked
  {
    var c1 := Put(c, "api_key", k);
    assert GetOr(c1, "api_key", JNull) == k;
  }

  lemma ShowUnsetKey(c: Dict)
    ensures "api_key" !in Keys(c) ==> ShowLines(c)[4] == "  API Key: " + "Not set"
  {
    if "api_key" !in Keys(c) {
      assert GetOr(c, "api_key", JNull) == JNull;
    }
  }

  /** The keys `show` reads besides the API key. */
  const ShownKeys: seq<string> := ["llm_factory", "llm_name", "model_type", "api_base", "max_tokens", "used_tokens"]

  /** The lines depend only on the shown keys and the masked key. */
  lemma ShowLinesDepend(c1: Dict, c2: Dict)
    requires forall k :: k in ShownKeys ==> Get(c1, k) == Get(c2, k)
    requires KeyMask(GetOr(c1, "api_key", JNull)) == KeyMask(GetOr(c2, "api_key", JNull))
    ensures ShowLines(c1) == ShowLines(c2)
  {
    assert "llm_factory" in ShownKeys && "llm_name" in ShownKeys && "model_type" in ShownKeys;
    assert "api_base" in ShownKeys && "max_tokens" in ShownKeys && "used_tokens" in ShownKeys;
  }

  function ShowModel(config: Json, factory: string, name: string, client: Client): (seq<Display>, seq<Call>) {
    match Api.Build(config)
    case Err(e) => ([EchoFailure("Error: ", SetupRaised(e))], [])
    case Ok(_) =>
      var call := ConfigCall(factory, name);
      var success := match client(0, call)
        case Done(response) =>
          var c := GetOr(if response.JObj? then response.fields else [], "data", JObj([]));
          if !Truthy(c) then [Echo("Model not found")]
          else if !c.JObj? then [Echo(ShowHeading), EchoFailure("Error: ", NoAttribute(TypeName(c), "get"))]
          else
            var lines := ShowLines(c.fields);
            seq(|lines|, i requires 0 <= i < |lines| => Echo(lines[i]))
        case Raised(_) => [];
      (Answered(client(0, call), success, "Error: ", "Error: "), [call])
  }

  /** An accepted answer with a non-empty dict echoes exactly its eight lines; an
      empty or missing `data` echoes "Model not found"; any other truthy `data` gets
      the heading, then the AttributeError of its `.get`. */
  lemma ShowModelLines(config: Json, factory: string, name: string, client: Client, d: Dict)
    requires Api.Build(config).Ok?
    requires client(0, ConfigCall(factory, name)) == Api.Done(JObj(d)) && CodeZero(JObj(d))
    ensures var c := GetOr(d, "data", JObj([]));
      var shown := ShowModel(config, factory, name, client).0;
      && (!Truthy(c) ==> shown == [Echo("Model not found")])
      && (Truthy(c) && c.JObj? ==> |shown| == 8 && forall i :: 0 <= i < 8 ==> shown[i] == Echo(ShowLines(c.fields)[i]))
      && (Truthy(c) && !c.JObj? ==> shown == [Echo(ShowHeading), EchoFailure("Error: ", NoAttribute(TypeName(c), "get"))])
  {
  }

  // ---------------------------------------------------------------- factories

  const FactoryColumns: seq<string> := ["Name", "Tags", "Logo"]

  /** The row of one factory: its `name`, `tags` and `logo`, each `''` when absent. */
  function FactoryRow(factory: Dict): (row: Json)
    ensures row.JObj? && Keys(row.fields) == FactoryColumns
  {
    JObj([Field("Name", GetOr(factory, "name", JStr(""))), Field("Tags", GetOr(factory, "tags", JStr(""))),
          Field("Logo", GetOr(factory, "logo", JStr("")))])
  }

  /** Each cell of a factory's row is the factory's value, `''` when it lacks one. */
  lemma FactoryRowCells(factory: Dict)
    ensures var row := FactoryRow(factory).fields;
      && Get(row, "Name") == Some(if "name" in Keys(factory) then Get(factory, "name").value else JStr(""))
      && Get(row, "Tags") == Some(if "tags" in Keys(factory) then Get(factory, "tags").value else JStr(""))
      && Get(row, "Logo") == Some(if "logo" in Keys(factory) then Get(factory, "logo").value else JStr(""))
  {
    var row := FactoryRow(factory).fields;
    var a, b, c := GetOr(factory, "name", JStr("")), GetOr(factory, "tags", JStr("")), GetOr(factory, "logo", JStr(""));
    var r1, r2 := row[1..], row[2..];
    assert r1 == [Field("Tags", b), Field("Logo", c)];
    assert r2 == [Field("Logo", c)] && r2 == r1[1..];
    assert "Name"[0] != "Tags"[0] && "Name"[0] != "Logo"[0] && "Tags"[0] != "Logo"[0];
    assert Get(row, "Name") == Some(a);
    assert Get(row, "Tags") == Get(r1, "Tags") == Some(b);
    assert Get(row, "Logo") == Get(r1, "Logo");
    assert Get(r1, "Logo") == Get(r2, "Logo") == Some(c);
  }

  /** One row per factory, in order; the first factory that is not a dict raises. */
  function FactoryTable(factories: seq<Json>): (r: Result<seq<Json>, Failure>)
    ensures r.Ok? <==> forall i :: 0 <= i < |factories| ==> factories[i].JObj?
    ensures r.Ok? ==> |r.value| == |factories| && forall i :: 0 <= i < |factories| ==> r.value[i] == FactoryRow(factories[i].fields)
    ensures r.Err? ==> exists i :: (0 <= i < |factories| && !factories[i].JObj? && (forall j :: 0 <= j < i ==> factories[j].JObj?)
      && r.error == NoAttribute(TypeName(factories[i]), "get"))
  {
    if factories == [] then Ok([])
    else if !factories[0].JObj? then Err(NoAttribute(TypeName(factories[0]), "get"))
    else
      assert forall i :: 1 <= i < |factories| ==> factories[i] == factories[1..][i - 1];
      match FactoryTable(factories[1..])
      case Err(e) => Err(e)
      case Ok(rest) => Ok([FactoryRow(factories[0].fields)] + rest)
  }

  /** The loop of `models factories`. */
  method BuildFactoryTable(factories: seq<Json>) returns (r: Result<seq<Json>, Failure>)
    ensures r == FactoryTable(factories)
  {
    var table: seq<Json> := [];
    var i := 0;
    while i < |factories|
      invariant 0 <= i <= |factories| && |table| == i
      invariant forall k :: 0 <= k < i ==> factories[k].JObj? && table[k] == FactoryRow(factories[k].fields)
    {
      if !factories[i].JObj? {
        assert FactoryTable(factories).Err?;
        return Err(NoAttribute(TypeName(factories[i]), "get"));
      }
      table := table + [FactoryRow(factories[i].fields)];
      i := i + 1;
    }
    assert table == FactoryTable(factories).value;
    r := Ok(table);
  }

  function ListFactories(config: Json, format: string, client: Client): (seq<Display>, seq<Call>) {
    match Api.Build(config)
    case Err(e) => ([EchoFailure("Error: ", SetupRaised(e))], [])
    case Ok(_) =>
      var call := GetCall("/v1/llm/factories");
      var success := match client(0, call)
        case Done(response) =>
          var data := GetOr(if response.JObj? then response.fields else [], "data", JArr([]));
          if format != "table" then [Formatted(format, data)]
          else (match Iterate(data)
            case None => [EchoFailure("Error: ", NotIterable(TypeName(data)))]
            case Some(items) =>
              match FactoryTable(items)
              case Err(e) => [EchoFailure("Error: ", e)]
              case Ok(rows) => EchoTable(JArr(rows), "Available LLM Factories", "Error: "))
        case Raised(_) => [];
      (Answered(client(0, call), success, "Error: ", "Error: "), [call])
  }

  // ---------------------------------------------------------------- default

  /** A line `models default` echoes in table mode. */
  datatype DefaultLine =
    | Heading                              // "Default Model Configuration:"
    | SourceLine(source: Json)             // "  Source: {source}"
    | Gap                                  // click.echo()
    | ModelLine(modelType: string, id: Json) // "  {model_type}: {model_id}"
    | Detail(caption: string, value: Json) // "    {caption}: {value}"

  function DefaultText(l: DefaultLine): string {
    match l
    case Heading => "Default Model Configuration:"
    case SourceLine(s) => "  Source: " + PyStr(s)
    case Gap => ""
    case ModelLine(t, id) => "  " + t + ": " + PyStr(id)
    case Detail(caption, v) => "    " + caption + ": " + PyStr(v)
  }

  /** `t` occurs in `s` as a substring. */
  predicate Occurs(t: string, s: string)
    decreases |s|
  {
    |t| <= |s| && (s[..|t|] == t || (|s| > 0 && Occurs(t, s[1..])))
  }

  /** `model_type in api_configs`, for whatever `api_configs` holds. */
  function Member(key: string, container: Json): Result<bool, Failure> {
    match container
    case JObj(d) => Ok(key in Keys(d))
    case JArr(items) => Ok(JStr(key) in items)
    case JStr(s) => Ok(Occurs(key, s))
    case _ => Err(NotIterable(TypeName(container)))
  }

  /** `api_configs[model_type]` once `model_type in api_configs` held. */
  function Entry(key: string, container: Json): Result<Json, Failure> {
    match container
    case JObj(d) => Ok(GetOr(d, key, JNull))
    case _ => Err(Unsubscriptable(TypeName(container)))
  }

  /** The detail lines of one model's API configuration: each field only when truthy. */
  function Details(c: Dict): (r: seq<DefaultLine>)
    ensures forall l :: l in r ==> l.Detail? && Truthy(l.value)
    ensures Detail("API Base", GetOr(c, "api_base", JNull)) in r <==> Truthy(GetOr(c, "api_base", JNull))
    ensures Detail("Max Tokens", GetOr(c, "max_tokens", JNull)) in r <==> Truthy(GetOr(c, "max_tokens", JNull))
    ensures Detail("API Key", GetOr(c, "api_key", JNull)) in r <==> Truthy(GetOr(c, "api_key", JNull))
  {
    var base := GetOr(c, "api_base", JNull);
    var tokens := GetOr(c, "max_tokens", JNull);
    var key := GetOr(c, "api_key", JNull);
    (if Truthy(base) then [Detail("API Base", base)] else []) +
    (if Truthy(tokens) then [Detail("Max Tokens", tokens)] else []) +
    (if Truthy(key) then [Detail("API Key", key)] else [])
  }

  /** The lines of one entry of `models.items()`, or the exception it raises after
      echoing the lines before it. */
  function EntryLines(modelType: string, id: Json, apiConfigs: Json): (r: (seq<DefaultLine>, Option<Failure>))
    ensures !Truthy(id) ==> r == ([], None)
    ensures Truthy(id) ==> |r.0| >= 1 && r.0[0] == ModelLine(modelType, id)
    ensures forall i :: 1 <= i < |r.0| ==> !r.0[i].ModelLine?
    ensures forall l :: l in r.0 ==> (l.ModelLine? ==> l == ModelLine(modelType, id)) && (l.Detail? ==> Truthy(l.value))
    ensures r.1.None? && Truthy(id) ==> r.0[|r.0| - 1] == Gap
  {
    if !Truthy(id) then ([], None)
    else
      match Member(modelType, apiConfigs)
      case Err(e) => ([ModelLine(modelType, id)], Some(e))
      case Ok(false) => ([ModelLine(modelType, id), Gap], None)
      case Ok(true) =>
        match Entry(modelType, apiConfigs)
        case Err(e) => ([ModelLine(modelType, id)], Some(e))
        case Ok(c) =>
          if !c.JObj? then ([ModelLine(modelType, id)], Some(NoAttribute(TypeName(c), "get")))
          else ([ModelLine(modelType, id)] + Details(c.fields) + [Gap], None)
  }

  /** The lines for every entry in order, up to the first exception. Every model line
      shown has a truthy id, and every detail line a truthy value. */
  function DefaultEntries(models: Dict, apiConfigs: Json): (seq<DefaultLine>, Option<Failure>) {
    if models == [] then ([], None)
    else
      var entry := EntryLines(models[0].key, models[0].val, apiConfigs);
      if entry.1.Some? then entry
      else
        var rest := DefaultEntries(models[1..], apiConfigs);
        (entry.0 + rest.0, rest.1)
  }

  /** Every model line shown is an entry of `models` with a truthy id, and every
      detail line shows a truthy value, whether or not something raised. */
  lemma {:induction false} DefaultEntriesTruthy(models: Dict, apiConfigs: Json)
    ensures forall l :: l in DefaultEntries(models, apiConfigs).0 ==>
      (l.ModelLine? ==> Field(l.modelType, l.id) in models && Truthy(l.id)) && (l.Detail? ==> Truthy(l.value))
  {
    if models != [] {
      DefaultEntriesTruthy(models[1..], apiConfigs);
      assert forall f :: f in models[1..] ==> f in models;
    }
  }

  /** The model types with a truthy id, in order. */
  function Shown(models: Dict): seq<DefaultLine> {
    if models == [] then []
    else (if Truthy(models[0].val) then [ModelLine(models[0].key, models[0].val)] else []) + Shown(models[1..])
  }

  /** The model lines among `lines`. */
  function ModelLines(lines: seq<DefaultLine>): seq<DefaultLine> {
    if lines == [] then []
    else (if lines[0].ModelLine? then [lines[0]] else []) + ModelLines(lines[1..])
  }

  lemma {:induction false} ModelLinesAppend(a: seq<DefaultLine>, b: seq<DefaultLine>)
    ensures ModelLines(a + b) == ModelLines(a) + ModelLines(b)
  {
    if a == [] {
      assert a + b == b;
    } else {
      assert (a + b)[0] == a[0] && (a + b)[1..] == a[1..] + b;
      ModelLinesAppend(a[1..], b);
    }
  }

  lemma {:induction false} NoModelLines(lines: seq<DefaultLine>)
    requires forall l :: l in lines ==> !l.ModelLine?
    ensures ModelLines(lines) == []
  {
    if lines != [] {
      assert lines[0] in lines;
      assert forall l :: l in lines[1..] ==> l in lines;
      NoModelLines(lines[1..]);
    }
  }

  /** When nothing raises, the model lines are exactly the entries with a truthy id,
      in their order. */
  lemma {:induction false} DefaultShowsTruthy(models: Dict, apiConfigs: Json)
    requires DefaultEntries(models, apiConfigs).1.None?
    ensures ModelLines(DefaultEntries(models, apiConfigs).0) == Shown(models)
  {
    if models != [] {
      var lines := EntryLines(models[0].key, models[0].val, apiConfigs).0;
      var more := DefaultEntries(models[1..], apiConfigs).0;
      assert DefaultEntries(models, apiConfigs).0 == lines + more;
      DefaultShowsTruthy(models[1..], apiConfigs);
      ModelLinesAppend(lines, more);
      EntryModelLines(models[0].key, models[0].val, apiConfigs);
    }
  }

  /** The lines of one entry hold one model line when its id is truthy and none otherwise. */
  lemma EntryModelLines(modelType: string, id: Json, apiConfigs: Json)
    ensures ModelLines(EntryLines(modelType, id, apiConfigs).0) == if Truthy(id) then [ModelLine(modelType, id)] else []
  {
    var lines := EntryLines(modelType, id, apiConfigs).0;
    if Truthy(id) {
      var rest := lines[1..];
      assert lines == [lines[0]] + rest;
      ModelLinesAppend([lines[0]], rest);
      forall l | l in rest ensures !l.ModelLine? {
        var i :| 0 <= i < |rest| && rest[i] == l;
        assert l == lines[i + 1];
      }
      NoModelLines(rest);
      assert [lines[0]][1..] == [];
    }
  }

  /** The body of the loop of `models default`, for one entry: echo the model line,
      look up its API configuration, echo the truthy detail lines and a blank line. */
  method EchoEntry(modelType: string, id: Json, apiConfigs: Json) returns (entry: seq<DefaultLine>, failure: Option<Failure>)
    ensures (entry, failure) == EntryLines(modelType, id, apiConfigs)
  {
    entry, failure := [], None;
    if !Truthy(id) {
      return;
    }
    entry := [ModelLine(modelType, id)];
    var member := Member(modelType, apiConfigs);
    if member.Err? {
      return entry, Some(member.error);
    }
    if member.value {
      var config := Entry(modelType, apiConfigs);
      if config.Err? {
        return entry, Some(config.error);
      }
      if !config.value.JObj? {
        return entry, Some(NoAttribute(TypeName(config.value), "get"));
      }
      entry := entry + Details(config.value.fields);
    }
    assert [ModelLine(modelType, id)] + [Gap] == [ModelLine(modelType, id), Gap];
    entry := entry + [Gap];
  }

  /** The loop invariant of `ShowDefaults`: `lines` are the lines of the entries before
      `i`, and the entries from `i` on give the rest and the outcome. */
  predicate ShownSoFar(models: Dict, apiConfigs: Json, i: nat, lines: seq<DefaultLine>)
    requires i <= |models|
  {
    var rest := DefaultEntries(models[i..], apiConfigs);
    DefaultEntries(models, apiConfigs) == (lines + rest.0, rest.1)
  }

  /** The entries from `i` on start with entry `i`'s lines. */
  lemma DefaultEntriesAt(models: Dict, apiConfigs: Json, i: nat)
    requires i < |models|
    ensures var e := EntryLines(models[i].key, models[i].val, apiConfigs);
      var next := DefaultEntries(models[i + 1..], apiConfigs);
      DefaultEntries(models[i..], apiConfigs) == if e.1.Some? then e else (e.0 + next.0, next.1)
  {
    var tail := models[i..];
    assert tail[0] == models[i] && tail[1..] == models[i + 1..];
  }

  /** One turn of the loop for an entry that raises: the output ends there. */
  lemma DefaultEntriesStop(models: Dict, apiConfigs: Json, i: nat, lines: seq<DefaultLine>)
    requires i < |models| && ShownSoFar(models, apiConfigs, i, lines)
    requires EntryLines(models[i].key, models[i].val, apiConfigs).1.Some?
    ensures DefaultEntries(models, apiConfigs) == (lines + EntryLines(models[i].key, models[i].val, apiConfigs).0,
      EntryLines(models[i].key, models[i].val, apiConfigs).1)
  {
    DefaultEntriesAt(models, apiConfigs, i);
  }

  /** One turn of the loop for an entry that does not raise: the output grows by it. */
  lemma DefaultEntriesStep(models: Dict, apiConfigs: Json, i: nat, lines: seq<DefaultLine>)
    requires i < |models| && ShownSoFar(models, apiConfigs, i, lines)
    requires EntryLines(models[i].key, models[i].val, apiConfigs).1.None?
    ensures ShownSoFar(models, apiConfigs, i + 1, lines + EntryLines(models[i].key, models[i].val, apiConfigs).0)
  {
    var e := EntryLines(models[i].key, models[i].val, apiConfigs).0;
    var next := DefaultEntries(models[i + 1..], apiConfigs);
    DefaultEntriesAt(models, apiConfigs, i);
    assert lines + (e + next.0) == (lines + e) + next.0;
  }

  /** The loop of `models default` over `models.items()`. */
  method ShowDefaults(models: Dict, apiConfigs: Json) returns (lines: seq<DefaultLine>, failure: Option<Failure>)
    ensures (lines, failure) == DefaultEntries(models, apiConfigs)
  {
    lines, failure := [], None;
    var i := 0;
    assert models[0..] == models;
    assert [] + DefaultEntries(models, apiConfigs).0 == DefaultEntries(models, apiConfigs).0;
    while i < |models|
      invariant 0 <= i <= |models|
      invariant ShownSoFar(models, apiConfigs, i, lines)
    {
      var entry, stop := EchoEntry(models[i].key, models[i].val, apiConfigs);
      if stop.Some? {
        DefaultEntriesStop(models, apiConfigs, i, lines);
        return lines + entry, stop;
      }
      DefaultEntriesStep(models, apiConfigs, i, lines);
      lines := lines + entry;
      i := i + 1;
    }
    assert models[i..] == [];
    assert lines + [] == lines;
  }

  /** `models default`: in table mode the heading, the source, a blank line and the
      entries' lines, each echoed as it is reached. */
  function DefaultModels(config: Json, format: string, client: Client): (seq<Display>, seq<Call>) {
    match Api.Build(config)
    case Err(e) => ([EchoFailure("Error: ", SetupRaised(e))], [])
    case Ok(_) =>
      var call := GetCall("/v1/llm/default_models");
      var success := match client(0, call)
        case Done(response) =>
          var data := GetOr(if response.JObj? then response.fields else [], "data", JObj([]));
          if format != "table" then [Formatted(format, data)]
          else Echoed(DefaultReport(data))
        case Raised(_) => [];
      (Answered(client(0, call), success, "Error: ", "Error: "), [call])
  }

  /** The lines of the table mode of `default`, and the exception that ends it early. */
  function DefaultReport(data: Json): (r: (seq<DefaultLine>, Option<Failure>))
    ensures r.0 != [] && r.0[0] == Heading
    ensures data.JObj? ==>
      |r.0| >= 3 && r.0[..3] == [Heading, SourceLine(GetOr(data.fields, "source", JStr("unknown"))), Gap]
  {
    if !data.JObj? then ([Heading], Some(NoAttribute(TypeName(data), "get")))
    else
      var top := [Heading, SourceLine(GetOr(data.fields, "source", JStr("unknown"))), Gap];
      var models := GetOr(data.fields, "models", JObj([]));
      if !models.JObj? then (top, Some(NoAttribute(TypeName(models), "items")))
      else
        var (lines, failure) := DefaultEntries(models.fields, GetOr(data.fields, "api_configs", JObj([])));
        assert (top + lines)[..3] == top;
        (top + lines, failure)
  }

  /** The echoes of the lines, then the `except` report if something raised. */
  function Echoed(report: (seq<DefaultLine>, Option<Failure>)): seq<Display> {
    seq(|report.0|, i requires 0 <= i < |report.0| => Echo(DefaultText(report.0[i]))) +
      if report.1.Some? then [EchoFailure("Error: ", report.1.value)] else []
  }

  // ---------------------------------------------------------------- all commands

  /** Every command makes no call when the client cannot be built, and otherwise
      its first call is the one it is named for. */
  lemma ModelsSetup(config: Json, format: string, modelType: string, factory: string, name: string,
                    apiKey: Option<string>, baseUrl: Option<string>, maxTokens: Option<int>, client: Client)
    ensures Api.Build(config).Err? ==>
      && ListModels(config, format, client).1 == []
      && SetDefault(config, modelType, factory, name, client).1 == []
      && AddModel(config, factory, name, modelType, apiKey, baseUrl, maxTokens, client).1 == []
      && EditModel(config, factory, name, apiKey, baseUrl, maxTokens, client).1 == []
      && DeleteModel(config, factory, name, client).1 == []
      && ShowModel(config, factory, name, client).1 == []
      && ListFactories(config, format, client).1 == []
      && DefaultModels(config, format, client).1 == []
    ensures Api.Build(config).Ok? ==>
      && ListModels(config, format, client).1 == [GetCall("/v1/llm/my_llms")]
      && SetDefault(config, modelType, factory, name, client).1[0].endpoint == "/v1/llm/set_default_model"
      && AddModel(config, factory, name, modelType, apiKey, baseUrl, maxTokens, client).1[0].endpoint == "/v1/llm/add_llm"
      && DeleteModel(config, factory, name, client).1 == [PostCall("/v1/llm/delete_llm", Some(JObj(ModelKey(factory, name))))]
      && ShowModel(config, factory, name, client).1 == [ConfigCall(factory, name)]
      && ListFactories(config, format, client).1 == [GetCall("/v1/llm/factories")]
      && DefaultModels(config, format, client).1 == [GetCall("/v1/llm/default_models")]
  {
  }

  /** None of these calls carries `headers=`, so they reach the server the same way
      in the code as written and in the corrected client. */
  lemma ModelsCallsReachServer(config: Json, factory: string, name: string, server: (nat, Call) -> Api.Reply)
    requires Api.Build(config).Ok?
    ensures var c := DeleteModel(config, factory, name, AsWritten(server)).1[0];
      AsWritten(server)(0, c) == Corrected(server)(0, c)
    ensures DeleteModel(config, factory, name, AsWritten(server)) == DeleteModel(config, factory, name, Corrected(server))
    ensures ShowModel(config, factory, name, AsWritten(server)) == ShowModel(config, factory, name, Corrected(server))
  {
  }
}
