/** The `datasets` command group: the token check, the lookup of a dataset by id in
    the listing, the fallback chains of `delete`, `purge` and `set_embedding_model`,
    the model name `fix_embedding_model` extracts, and the `create`/`update`
    payloads. */
module Datasets {
  import opened Wrappers
  import opened Json
  import Text
  import Api
  import Output
  import opened Commands

  const Endpoint: string := "/api/v1/datasets"
  const UnknownDataset: string := "未知数据集"

  /** `client.get('/api/v1/datasets', headers=...)`. */
  function ListCall(token: Json): Call {
    WithBearer(GetCall(Endpoint), token)
  }

  /** `dataset.get('id') == dataset_id` for a listed entry that is a dict. */
  predicate HasId(entry: Json, id: string) {
    entry.JObj? && GetOr(entry.fields, "id", JNull) == JStr(id)
  }

  /** The `for dataset in datasets: if dataset.get('id') == dataset_id: ... break`
      search as a value: the first entry with that id, none, or the AttributeError of
      an entry before it that is not a dict. */
  function Scan(items: seq<Json>, id: string): Result<Option<Dict>, Failure> {
    if items == [] then Ok(None)
    else if !items[0].JObj? then Err(NoAttribute(TypeName(items[0]), "get"))
    else if HasId(items[0], id) then Ok(Some(items[0].fields))
    else Scan(items[1..], id)
  }

  /** The search over `response.get('data', [])` of what the listing call returned. */
  function Listing(response: Api.Outcome, id: string): Result<Option<Dict>, Failure> {
    match response
    case Raised(f) => Err(ClientFailed(f))
    case Done(v) =>
      match Lookup(v, "data", JArr([]))
      case Err(e) => Err(e)
      case Ok(data) =>
        match Iterate(data)
        case None => Err(NotIterable(TypeName(data)))
        case Some(items) => Scan(items, id)
  }

  /** The search finds nothing exactly when every entry is a dict without the id. */
  lemma {:induction false} ScanNone(items: seq<Json>, id: string)
    ensures Scan(items, id) == Ok(None) <==> forall i :: 0 <= i < |items| ==> items[i].JObj? && !HasId(items[i], id)
  {
    if items != [] {
      ScanNone(items[1..], id);
      assert forall i :: 1 <= i < |items| ==> items[i] == items[1..][i - 1];
    }
  }

  /** What the search finds is the first entry carrying the id, and every entry before
      it is a dict without it. */
  lemma {:induction false} ScanWitness(items: seq<Json>, id: string) returns (i: nat)
    requires Scan(items, id).Ok? && Scan(items, id).value.Some?
    ensures i < |items| && HasId(items[i], id) && Scan(items, id).value.value == items[i].fields
    ensures forall j :: 0 <= j < i ==> items[j].JObj? && !HasId(items[j], id)
  {
    if HasId(items[0], id) {
      i := 0;
    } else {
      var t := ScanWitness(items[1..], id);
      i := t + 1;
      assert forall j :: 1 <= j <= i ==> items[j] == items[1..][j - 1];
    }
  }

  /** An entry carrying the id is found when every entry before it is a dict. */
  lemma {:induction false} ScanReaches(items: seq<Json>, id: string, i: nat)
    requires i < |items| && HasId(items[i], id)
    requires forall j :: 0 <= j < i ==> items[j].JObj?
    ensures Scan(items, id).Ok? && Scan(items, id).value.Some?
  {
    if i > 0 && !HasId(items[0], id) {
      assert forall j :: 1 <= j <= i ==> items[j] == items[1..][j - 1];
      ScanReaches(items[1..], id, i - 1);
    }
  }

  /** The search loop of `delete`, `purge` and `set_embedding_model`. */
  method FindDataset(response: Api.Outcome, id: string) returns (r: Result<Option<Dict>, Failure>)
    ensures r == Listing(response, id)
  {
    if response.Raised? {
      return Err(ClientFailed(response.fault));
    }
    var data := Lookup(response.value, "data", JArr([]));
    if data.Err? {
      return Err(data.error);
    }
    var datasets := Iterate(data.value);
    if datasets.None? {
      return Err(NotIterable(TypeName(data.value)));
    }
    var items := datasets.value;
    var i := 0;
    r := Ok(None);
    while i < |items|
      invariant 0 <= i <= |items|
      invariant Scan(items, id) == Scan(items[i..], id)
    {
      assert items[i..][1..] == items[i + 1..];
      var dataset := items[i];
      if !dataset.JObj? {
        return Err(NoAttribute(TypeName(dataset), "get"));
      }
      if GetOr(dataset.fields, "id", JNull) == JStr(id) {
        return Ok(Some(dataset.fields));
      }
      i := i + 1;
    }
  }

  /** The payload of `create` and `update`: `{'name': name}`, plus the description
      when it is given and not empty. */
  function NamedPayload(name: string, description: Option<string>): (r: Dict)
    ensures Keys(r) == ["name"] + if description.Some? && description.value != "" then ["description"] else []
    ensures Get(r, "name") == Some(JStr(name))
    ensures Get(r, "description") == if description.Some? && description.value != "" then Some(JStr(description.value)) else None
  {
    if description.Some? && description.value != "" then [Field("name", JStr(name)), Field("description", JStr(description.value))]
    else [Field("name", JStr(name))]
  }

  /** The payload dict built in place, as `create` and `update` build it. */
  method BuildNamedPayload(name: string, description: Option<string>) returns (payload: Dict)
    ensures payload == NamedPayload(name, description)
  {
    payload := [Field("name", JStr(name))];
    if description.Some? && description.value != "" {
      PutNew(payload, "description", JStr(description.value));
      payload := Put(payload, "description", JStr(description.value));
    }
  }

  /** `datasets list`. */
  function ListDatasets(config: Json, format: string, client: Client): (seq<Display>, seq<Call>)
  {
    var prefix := "获取数据集列表失败: ";
    match TokenGate(config)
    case Err(s) => (StopDisplay(s, prefix), [])
    case Ok(token) =>
      var call := ListCall(token);
      var shown := match client(0, call)
        case Raised(f) => [Crash(Output.Error, prefix, ClientFailed(f))]
        case Done(response) =>
          if format == "table" || format == "simple" then
            match Lookup(response, "data", JArr([]))
            case Err(e) => [Crash(Output.Error, prefix, e)]
            case Ok(datasets) =>
              if !Truthy(datasets) then [Note(Output.Info, "暂无数据集")]
              else if format == "table" then ShowTable(datasets, "数据集列表", prefix)
              else [Crash(Output.Error, prefix, NoAttribute("OutputFormatter", "print_simple_list"))]
          else [Formatted(format, response)];
      (shown, [call])
  }

  /** `datasets show`. */
  function ShowDataset(config: Json, id: string, format: string, client: Client): (seq<Display>, seq<Call>)
  {
    var prefix := "获取数据集详情失败: ";
    match TokenGate(config)
    case Err(s) => (StopDisplay(s, prefix), [])
    case Ok(token) =>
      var call := WithBearer(GetCall(Endpoint + "/" + id), token);
      var shown := match client(0, call)
        case Raised(f) => [Crash(Output.Error, prefix, ClientFailed(f))]
        case Done(response) =>
          if format == "table" then
            match Lookup(response, "data", JObj([]))
            case Err(e) => [Crash(Output.Error, prefix, e)]
            case Ok(dataset) =>
              if Truthy(dataset) then ShowTable(JArr([dataset]), "数据集 " + id + " 详情", prefix)
              else [Note(Output.Error, "数据集不存在")]
          else [Formatted(format, response)];
      (shown, [call])
  }

  /** What `create` and `update` show once their call returned `response`. */
  function Written(success: string, format: string, response: Json, title: string, prefix: string): seq<Display> {
    [Note(Output.Success, success)] +
      if format == "table" then
        match Lookup(response, "data", JObj([]))
        case Err(e) => [Crash(Output.Error, prefix, e)]
        case Ok(dataset) => if Truthy(dataset) then ShowTable(JArr([dataset]), title, prefix) else []
      else [Formatted(format, response)]
  }

  /** `datasets create`: POST the named payload. */
  function CreateDataset(config: Json, name: string, description: Option<string>, format: string, client: Client)
    : (seq<Display>, seq<Call>)
  {
    var prefix := "创建数据集失败: ";
    match TokenGate(config)
    case Err(s) => (StopDisplay(s, prefix), [])
    case Ok(token) =>
      var call := WithBearer(PostCall(Endpoint, Some(JObj(NamedPayload(name, description)))), token);
      match client(0, call)
      case Raised(f) => ([Crash(Output.Error, prefix, ClientFailed(f))], [call])
      case Done(response) => (Written("数据集 " + name + " 创建成功", format, response, "创建的数据集", prefix), [call])
  }

  /** `datasets update`: PUT the named payload to the dataset. */
  function UpdateDataset(config: Json, id: string, name: string, description: Option<string>, format: string, client: Client)
    : (seq<Display>, seq<Call>)
  {
    var prefix := "更新数据集失败: ";
    match TokenGate(config)
    case Err(s) => (StopDisplay(s, prefix), [])
    case Ok(token) =>
      var call := WithBearer(PutCall(Endpoint + "/" + id, Some(JObj(NamedPayload(name, description)))), token);
      match client(0, call)
      case Raised(f) => ([Crash(Output.Error, prefix, ClientFailed(f))], [call])
      case Done(response) => (Written("数据集 " + id + " 更新成功", format, response, "更新后的数据集", prefix), [call])
  }

  /** Without a token (or a client) the listing, show, create and update commands
      make no call; create and update send the named payload. */
  lemma SimpleCommandsGate(config: Json, id: string, name: string, description: Option<string>, format: string, client: Client)
    ensures TokenGate(config).Err? ==>
      && ListDatasets(config, format, client).1 == []
      && ShowDataset(config, id, format, client).1 == []
      && CreateDataset(config, name, description, format, client).1 == []
      && UpdateDataset(config, id, name, description, format, client).1 == []
    ensures TokenGate(config) == Err(NoToken) ==>
      ListDatasets(config, format, client).0 == [Note(Output.Error, "未找到API令牌，请先登录")]
    ensures TokenGate(config).Ok? ==>
      && CreateDataset(config, name, description, format, client).1[0].body == Some(JObj(NamedPayload(name, description)))
      && UpdateDataset(config, id, name, description, format, client).1[0].endpoint == Endpoint + "/" + id
      && UpdateDataset(config, id, name, description, format, client).1[0].body == Some(JObj(NamedPayload(name, description)))
  {
  }

  /** `--format simple` on a non-empty listing calls `print_simple_list`, which
      `OutputFormatter` does not define, so the command reports an AttributeError. */
  lemma SimpleListingFails(config: Json, client: Client)
    requires TokenGate(config).Ok?
    requires client(0, ListCall(TokenGate(config).value)).Done?
    requires Lookup(client(0, ListCall(TokenGate(config).value)).value, "data", JArr([])).Ok?
    requires Truthy(Lookup(client(0, ListCall(TokenGate(config).value)).value, "data", JArr([])).value)
    ensures ListDatasets(config, "simple", client).0 ==
      [Crash(Output.Error, "获取数据集列表失败: ", NoAttribute("OutputFormatter", "print_simple_list"))]
  {
  }

  // ---------------------------------------------------------------- delete

  /** The three ways `delete` (and `purge`) try: DELETE, POST `.../delete`, and PUT
      `{'status': 'deleted'}`. */
  function ByDelete(id: string, token: Json): Call { WithBearer(DeleteCall(Endpoint + "/" + id), token) }
  function ByPost(id: string, token: Json): Call { WithBearer(PostCall(Endpoint + "/" + id + "/delete", None), token) }
  function ByMark(id: string, token: Json): Call {
    WithBearer(PutCall(Endpoint + "/" + id, Some(JObj([Field("status", JStr("deleted"))]))), token)
  }

  function DeleteChain(id: string, token: Json): seq<Call> {
    [ByDelete(id, token), ByPost(id, token), ByMark(id, token)]
  }

  /** How a delete that found the dataset ends. */
  datatype Verdict =
    | AllFailed              // every attempt raised; nothing re-listed
    | Gone                   // the re-listing no longer has the id
    | MarkedOnly             // only the status PUT succeeded, and the id is still listed
    | StillThere             // DELETE or POST succeeded, but the id is still listed
    | Unverified(cause: Failure)  // the re-listing raised

  datatype DeleteEnd = DeleteStopped(stop: Stop) | NotFound | Attempted(name: Json, verdict: Verdict)

  /** The attempts of `delete` once the dataset was found, as a value: the chain up
      to its first success, then the re-listing after it (call number `2 + i`). */
  function AttemptSpec(client: Client, id: string, token: Json): (Verdict, seq<Call>) {
    var chain := DeleteChain(id, token);
    var list := ListCall(token);
    match FirstSuccess(client, 1, chain)
    case None => (AllFailed, chain)
    case Some(i) =>
      (Recheck(Listing(client(2 + i, list), id), i == 2), chain[..i + 1] + [list])
  }

  /** What the re-listing after a successful attempt says; `marked` is set when the
      attempt that succeeded was the status PUT. */
  function Recheck(again: Result<Option<Dict>, Failure>, marked: bool): Verdict {
    if again.Err? then Unverified(again.error)
    else if again.value.None? then Gone
    else if marked then MarkedOnly
    else StillThere
  }

  /** The re-listing decides: an error leaves the delete unverified, a missing id means
      it is gone, and a listed id is a marked-only or a failed delete. */
  lemma RecheckSays(again: Result<Option<Dict>, Failure>, marked: bool)
    ensures var v := Recheck(again, marked);
      && v != AllFailed
      && (v == Gone <==> again == Ok(None))
      && (v.Unverified? <==> again.Err?)
      && (v == MarkedOnly <==> again.Ok? && again.value.Some? && marked)
      && (v == StillThere <==> again.Ok? && again.value.Some? && !marked)
  {
  }

  /** The attempts of `delete` when the DELETE succeeds: it is re-listed as call 2. */
  lemma AttemptByDelete(client: Client, id: string, token: Json)
    requires client(1, ByDelete(id, token)).Done?
    ensures AttemptSpec(client, id, token) ==
      (Recheck(Listing(client(2, ListCall(token)), id), false), [ByDelete(id, token), ListCall(token)])
  {
    var a, b, c, chain := ByDelete(id, token), ByPost(id, token), ByMark(id, token), DeleteChain(id, token);
    FirstSuccessOfThree(client, 1, a, b, c);
    assert chain[..1] + [ListCall(token)] == [a, ListCall(token)];
  }

  /** The attempts of `delete` when the DELETE raises and the POST succeeds. */
  lemma AttemptByPost(client: Client, id: string, token: Json)
    requires client(1, ByDelete(id, token)).Raised? && client(2, ByPost(id, token)).Done?
    ensures AttemptSpec(client, id, token) ==
      (Recheck(Listing(client(3, ListCall(token)), id), false), [ByDelete(id, token), ByPost(id, token), ListCall(token)])
  {
    var a, b, c, chain := ByDelete(id, token), ByPost(id, token), ByMark(id, token), DeleteChain(id, token);
    FirstSuccessOfThree(client, 1, a, b, c);
    assert chain[..2] + [ListCall(token)] == [a, b, ListCall(token)];
  }

  /** The attempts of `delete` when only the status PUT succeeds. */
  lemma AttemptByMark(client: Client, id: string, token: Json)
    requires client(1, ByDelete(id, token)).Raised? && client(2, ByPost(id, token)).Raised?
    requires client(3, ByMark(id, token)).Done?
    ensures AttemptSpec(client, id, token) ==
      (Recheck(Listing(client(4, ListCall(token)), id), true), DeleteChain(id, token) + [ListCall(token)])
  {
    var a, b, c, chain := ByDelete(id, token), ByPost(id, token), ByMark(id, token), DeleteChain(id, token);
    FirstSuccessOfThree(client, 1, a, b, c);
    assert chain[..3] == chain;
  }

  /** The attempts of `delete` when all three raise: nothing is re-listed. */
  lemma AttemptNone(client: Client, id: string, token: Json)
    requires client(1, ByDelete(id, token)).Raised? && client(2, ByPost(id, token)).Raised?
    requires client(3, ByMark(id, token)).Raised?
    ensures AttemptSpec(client, id, token) == (AllFailed, DeleteChain(id, token))
  {
    FirstSuccessOfThree(client, 1, ByDelete(id, token), ByPost(id, token), ByMark(id, token));
  }

  /** `delete` as a value: the gate, the confirmation, the lookup, then the attempts. */
  function DeleteSpec(config: Json, id: string, force: bool, confirmed: bool, client: Client): (DeleteEnd, seq<Call>) {
    match TokenGate(config)
    case Err(s) => (DeleteStopped(s), [])
    case Ok(token) =>
      if !force && !confirmed then (DeleteStopped(Cancelled), [])
      else
        var list := ListCall(token);
        var found := Listing(client(0, list), id);
        if !(found.Ok? && found.value.Some?) then (NotFound, [list])
        else
          var name := GetOr(found.value.value, "name", JStr(UnknownDataset));
          var (verdict, tried) := AttemptSpec(client, id, token);
          (Attempted(name, verdict), [list] + tried)
  }

  /** The attempts of `delete`, with the flags `delete_success` and `mark_deleted`
      updated attempt by attempt, and the re-listing when one of them is set. */
  method TryDelete(client: Client, id: string, token: Json) returns (verdict: Verdict, tried: seq<Call>)
    ensures (verdict, tried) == AttemptSpec(client, id, token)
  {
    var a, b, c, list := ByDelete(id, token), ByPost(id, token), ByMark(id, token), ListCall(token);
    var deleteSuccess := false;
    var markDeleted := false;
    tried := [a];
    if client(1, a).Done? {
      deleteSuccess := true;
    }
    if !deleteSuccess {
      tried := tried + [b];
      if client(2, b).Done? {
        deleteSuccess := true;
      }
    }
    if !deleteSuccess {
      tried := tried + [c];
      if client(3, c).Done? {
        markDeleted := true;
      }
    }
    if deleteSuccess || markDeleted {
      var again := FindDataset(client(|tried| + 1, list), id);
      ghost var k := |tried| + 1;
      tried := tried + [list];
      if again.Err? {
        verdict := Unverified(again.error);
      } else if again.value.None? {
        verdict := Gone;
      } else if markDeleted {
        verdict := MarkedOnly;
      } else {
        verdict := StillThere;
      }
      assert verdict == Recheck(Listing(client(k, list), id), markDeleted);
      if client(1, a).Done? {
        AttemptByDelete(client, id, token);
        assert tried == [a, list];
        assert k == 2;
      } else if client(2, b).Done? {
        AttemptByPost(client, id, token);
        assert tried == [a, b, list];
        assert k == 3;
      } else {
        AttemptByMark(client, id, token);
        assert tried == DeleteChain(id, token) + [list];
        assert k == 4;
      }
    } else {
      verdict := AllFailed;
      AttemptNone(client, id, token);
      assert tried == DeleteChain(id, token);
    }
  }

  /** `datasets delete`. `confirmed` is the answer to the confirmation prompt. */
  method DeleteDataset(config: Json, id: string, force: bool, confirmed: bool, client: Client)
    returns (end: DeleteEnd, calls: seq<Call>)
    ensures (end, calls) == DeleteSpec(config, id, force, confirmed, client)
  {
    var gate := TokenGate(config);
    if gate.Err? {
      return DeleteStopped(gate.error), [];
    }
    var token := gate.value;
    if !force && !confirmed {
      return DeleteStopped(Cancelled), [];
    }
    var list := ListCall(token);
    var found := FindDataset(client(0, list), id);
    if !(found.Ok? && found.value.Some?) {
      return NotFound, [list];
    }
    var name := GetOr(found.value.value, "name", JStr(UnknownDataset));
    var verdict, tried := TryDelete(client, id, token);
    end, calls := Attempted(name, verdict), [list] + tried;
  }

  /** Without a token, or when the prompt is declined, nothing is sent; a dataset the
      listing does not show (or a listing that fails) is never deleted. */
  lemma DeleteGuards(config: Json, id: string, force: bool, confirmed: bool, client: Client)
    ensures var (end, calls) := DeleteSpec(config, id, force, confirmed, client);
      && (TokenGate(config).Err? ==> end == DeleteStopped(TokenGate(config).error) && calls == [])
      && (TokenGate(config).Ok? && !force && !confirmed ==> end == DeleteStopped(Cancelled) && calls == [])
      && (end == NotFound <==> (TokenGate(config).Ok? && (force || confirmed)
            && !(Listing(client(0, ListCall(TokenGate(config).value)), id).Ok?
                 && Listing(client(0, ListCall(TokenGate(config).value)), id).value.Some?)))
      && (end == NotFound ==> calls == [ListCall(TokenGate(config).value)])
      && (end.Attempted? ==>
            var token := TokenGate(config).value;
            && end.name == GetOr(Listing(client(0, ListCall(token)), id).value.value, "name", JStr(UnknownDataset))
            && end.verdict == AttemptSpec(client, id, token).0
            && calls == [ListCall(token)] + AttemptSpec(client, id, token).1)
  {
  }

  /** The attempts run in order: POST only after DELETE raised, the status PUT only
      after both raised; `MarkedOnly` needs that PUT to have run and succeeded, and
      `AllFailed` means all three raised and nothing was re-listed. */
  lemma AttemptOrder(client: Client, id: string, token: Json)
    ensures var (verdict, tried) := AttemptSpec(client, id, token);
      && tried[0] == ByDelete(id, token)
      && (ByPost(id, token) in tried ==> client(1, ByDelete(id, token)).Raised?)
      && (ByMark(id, token) in tried ==> client(1, ByDelete(id, token)).Raised? && client(2, ByPost(id, token)).Raised?)
      && (verdict == MarkedOnly ==> ByMark(id, token) in tried && client(3, ByMark(id, token)).Done?)
  {
    var a, b, c := ByDelete(id, token), ByPost(id, token), ByMark(id, token);
    if client(1, a).Done? {
      AttemptByDelete(client, id, token);
    } else if client(2, b).Done? {
      AttemptByPost(client, id, token);
    } else if client(3, c).Done? {
      AttemptByMark(client, id, token);
    } else {
      AttemptNone(client, id, token);
    }
  }

  /** `AllFailed` means all three attempts raised, and then nothing was re-listed. */
  lemma AttemptAllFailed(client: Client, id: string, token: Json)
    ensures var (verdict, tried) := AttemptSpec(client, id, token);
      && (verdict == AllFailed <==> forall j :: 0 <= j < 3 ==> client(1 + j, DeleteChain(id, token)[j]).Raised?)
      && (verdict == AllFailed ==> tried == DeleteChain(id, token))
  {
    var a, b, c, chain := ByDelete(id, token), ByPost(id, token), ByMark(id, token), DeleteChain(id, token);
    if client(1, a).Done? {
      AttemptByDelete(client, id, token);
      assert chain[0] == a;
    } else if client(2, b).Done? {
      AttemptByPost(client, id, token);
      assert chain[1] == b;
    } else if client(3, c).Done? {
      AttemptByMark(client, id, token);
      assert chain[2] == c;
    } else {
      AttemptNone(client, id, token);
    }
  }

  /** After a successful attempt the re-listing (the last call) decides: gone means
      success, still listed is a warning after the status PUT and an error otherwise. */
  lemma AttemptVerification(client: Client, id: string, token: Json)
    ensures var (verdict, tried) := AttemptSpec(client, id, token);
      verdict != AllFailed ==>
        && tried[|tried| - 1] == ListCall(token)
        && var again := Listing(client(|tried|, ListCall(token)), id);
        && (verdict == Gone <==> again == Ok(None))
        && (verdict.Unverified? <==> again.Err?)
  {
    AttemptCase(client, id, token);
    var (verdict, tried) := AttemptSpec(client, id, token);
    if verdict != AllFailed {
      RecheckSays(Listing(client(|tried|, ListCall(token)), id), |tried| == 4);
    }
  }

  /** A dataset still listed after a successful attempt is a warning when the status
      PUT was what succeeded, and an error when DELETE or POST did. */
  lemma AttemptStillListed(client: Client, id: string, token: Json)
    ensures var (verdict, tried) := AttemptSpec(client, id, token);
      && (verdict == MarkedOnly ==> client(3, ByMark(id, token)).Done?)
      && (verdict == StillThere ==> ByMark(id, token) !in tried)
      && (verdict == MarkedOnly || verdict == StillThere ==>
            var again := Listing(client(|tried|, ListCall(token)), id);
            again.Ok? && again.value.Some?)
  {
    AttemptCase(client, id, token);
    var (verdict, tried) := AttemptSpec(client, id, token);
    if verdict != AllFailed {
      RecheckSays(Listing(client(|tried|, ListCall(token)), id), |tried| == 4);
    }
  }

  /** The case split of the attempts of `delete`, with what the re-listing says. */
  lemma AttemptCase(client: Client, id: string, token: Json)
    ensures var (verdict, tried) := AttemptSpec(client, id, token);
      verdict == AllFailed || (|tried| >= 2 && tried[|tried| - 1] == ListCall(token) &&
        verdict == Recheck(Listing(client(|tried|, ListCall(token)), id), |tried| == 4) &&
        (|tried| == 4 ==> client(3, ByMark(id, token)).Done?) &&
        (|tried| < 4 ==> ByMark(id, token) !in tried))
  {
    var a, b, c, list := ByDelete(id, token), ByPost(id, token), ByMark(id, token), ListCall(token);
    if client(1, a).Done? {
      AttemptByDelete(client, id, token);
    } else if client(2, b).Done? {
      AttemptByPost(client, id, token);
    } else if client(3, c).Done? {
      AttemptByMark(client, id, token);
    } else {
      AttemptNone(client, id, token);
    }
  }

  // ---------------------------------------------------------------- purge

  datatype PurgeVerdict = Purged(via: Api.Verb) | CannotDelete(marked: bool)
  datatype PurgeEnd = PurgeStopped(stop: Stop) | PurgeNotFound | PurgeAttempted(name: Json, verdict: PurgeVerdict)

  /** The attempts of `purge` once the dataset was found: it ends at the first of
      DELETE and POST that succeeds; otherwise it tries the status PUT and reports
      that it cannot delete either way. */
  function PurgeAttemptSpec(client: Client, id: string, token: Json): (PurgeVerdict, seq<Call>) {
    var removal := [ByDelete(id, token), ByPost(id, token)];
    match FirstSuccess(client, 1, removal)
    case Some(i) => (Purged(removal[i].verb), removal[..i + 1])
    case None => (CannotDelete(client(3, ByMark(id, token)).Done?), DeleteChain(id, token))
  }

  function PurgeSpec(config: Json, id: string, force: bool, confirmed: bool, client: Client): (PurgeEnd, seq<Call>) {
    match TokenGate(config)
    case Err(s) => (PurgeStopped(s), [])
    case Ok(token) =>
      if !force && !confirmed then (PurgeStopped(Cancelled), [])
      else
        var list := ListCall(token);
        var found := Listing(client(0, list), id);
        if !(found.Ok? && found.value.Some?) then (PurgeNotFound, [list])
        else
          var (verdict, tried) := PurgeAttemptSpec(client, id, token);
          (PurgeAttempted(GetOr(found.value.value, "name", JStr(UnknownDataset)), verdict), [list] + tried)
  }

  /** The attempts of `purge`, returning at the first success. */
  method TryPurge(client: Client, id: string, token: Json) returns (verdict: PurgeVerdict, tried: seq<Call>)
    ensures (verdict, tried) == PurgeAttemptSpec(client, id, token)
  {
    var a, b, c := ByDelete(id, token), ByPost(id, token), ByMark(id, token);
    PurgeCases(client, id, token);
    tried := [a];
    if client(1, a).Done? {
      verdict := Purged(Api.DELETE);
      return;
    }
    tried := tried + [b];
    if client(2, b).Done? {
      verdict := Purged(Api.POST);
      return;
    }
    tried := tried + [c];
    var marked := client(3, c).Done?;
    verdict := CannotDelete(marked);
  }

  /** The attempts of `purge` written out case by case. */
  lemma PurgeCases(client: Client, id: string, token: Json)
    ensures var a, b, c := ByDelete(id, token), ByPost(id, token), ByMark(id, token);
      PurgeAttemptSpec(client, id, token) ==
        if client(1, a).Done? then (Purged(Api.DELETE), [a])
        else if client(2, b).Done? then (Purged(Api.POST), [a] + [b])
        else (CannotDelete(client(3, c).Done?), [a] + [b] + [c])
  {
    var a, b, c := ByDelete(id, token), ByPost(id, token), ByMark(id, token);
    FirstSuccessOfTwo(client, 1, a, b);
    assert [a, b][..1] == [a] && [a, b][..2] == [a] + [b];
    assert DeleteChain(id, token) == [a] + [b] + [c];
  }

  /** `datasets purge`. */
  method PurgeDataset(config: Json, id: string, force: bool, confirmed: bool, client: Client)
    returns (end: PurgeEnd, calls: seq<Call>)
    ensures (end, calls) == PurgeSpec(config, id, force, confirmed, client)
  {
    var gate := TokenGate(config);
    if gate.Err? {
      return PurgeStopped(gate.error), [];
    }
    var token := gate.value;
    if !force && !confirmed {
      return PurgeStopped(Cancelled), [];
    }
    var list := ListCall(token);
    var found := FindDataset(client(0, list), id);
    if !(found.Ok? && found.value.Some?) {
      return PurgeNotFound, [list];
    }
    var verdict, tried := TryPurge(client, id, token);
    end, calls := PurgeAttempted(GetOr(found.value.value, "name", JStr(UnknownDataset)), verdict), [list] + tried;
  }

  /** Purge succeeds exactly when DELETE or POST succeeds; the status PUT is tried
      exactly when both raised, and reaching it always ends in "cannot delete",
      whether or not the PUT succeeds. */
  lemma PurgeOutcome(client: Client, id: string, token: Json)
    ensures var (verdict, tried) := PurgeAttemptSpec(client, id, token);
      && (verdict.Purged? <==> client(1, ByDelete(id, token)).Done? || client(2, ByPost(id, token)).Done?)
      && (verdict.Purged? && verdict.via == Api.POST ==> client(1, ByDelete(id, token)).Raised?)
      && (ByMark(id, token) in tried <==> verdict.CannotDelete?)
      && (verdict.CannotDelete? ==> verdict.marked == client(3, ByMark(id, token)).Done?)
  {
    FirstSuccessOfTwo(client, 1, ByDelete(id, token), ByPost(id, token));
    var (verdict, tried) := PurgeAttemptSpec(client, id, token);
    if client(1, ByDelete(id, token)).Done? {
      assert tried == [ByDelete(id, token)];
    } else if client(2, ByPost(id, token)).Done? {
      assert tried == [ByDelete(id, token), ByPost(id, token)];
    } else {
      assert tried[2] == ByMark(id, token);
    }
  }

  /** Purge without a token or confirmation sends nothing, and never attempts a
      dataset the listing does not show. */
  lemma PurgeGuards(config: Json, id: string, force: bool, confirmed: bool, client: Client)
    ensures var (end, calls) := PurgeSpec(config, id, force, confirmed, client);
      && (end.PurgeStopped? <==> calls == [])
      && (end == PurgeNotFound ==> |calls| == 1)
      && (end.PurgeAttempted? ==>
            calls == [ListCall(TokenGate(config).value)] + PurgeAttemptSpec(client, id, TokenGate(config).value).1)
  {
  }

  // ---------------------------------------------------------------- embedding model

  /** What `set_embedding_model` shows before it tries: the dataset's name and current
      model (defaults when the id is not listed), or the failure of the listing. */
  datatype Preview = Previewed(name: Json, current: Json) | PreviewFailed(cause: Failure)

  datatype EmbeddingEnd = EmbeddingStopped(stop: Stop) | Switched(preview: Preview, via: Api.Verb) | NotSwitched(preview: Preview)

  function PreviewOf(found: Result<Option<Dict>, Failure>): Preview {
    match found
    case Err(e) => PreviewFailed(e)
    case Ok(None) => Previewed(JStr(UnknownDataset), JStr("未知"))
    case Ok(Some(d)) => Previewed(GetOr(d, "name", JStr(UnknownDataset)), GetOr(d, "embedding_model", JStr("未知")))
  }

  /** PUT, PATCH, then POST `.../update`, each with `{'embedding_model': model}`. */
  function EmbeddingChain(id: string, model: Json, token: Json): seq<Call> {
    var body := Some(JObj([Field("embedding_model", model)]));
    [WithBearer(PutCall(Endpoint + "/" + id, body), token),
     WithBearer(Call(Api.PATCH, Endpoint + "/" + id, None, body, None), token),
     WithBearer(PostCall(Endpoint + "/" + id + "/update", body), token)]
  }

  /** `set_embedding_model` as a value: a failed listing is only shown, and the chain
      stops at its first success. */
  function EmbeddingSpec(config: Json, id: string, model: Json, force: bool, confirmed: bool, client: Client)
    : (EmbeddingEnd, seq<Call>)
  {
    match TokenGate(config)
    case Err(s) => (EmbeddingStopped(s), [])
    case Ok(token) =>
      if !force && !confirmed then (EmbeddingStopped(Cancelled), [])
      else
        var list := ListCall(token);
        var preview := PreviewOf(Listing(client(0, list), id));
        var (via, tried) := SwitchSpec(client, id, model, token);
        (if via.Some? then Switched(preview, via.value) else NotSwitched(preview), [list] + tried)
  }

  /** The update chain: the verb of its first success (none when all three raise),
      and the calls it made. */
  function SwitchSpec(client: Client, id: string, model: Json, token: Json): (Option<Api.Verb>, seq<Call>) {
    var chain := EmbeddingChain(id, model, token);
    match FirstSuccess(client, 1, chain)
    case Some(i) => (Some(chain[i].verb), chain[..i + 1])
    case None => (None, chain)
  }

  /** The update chain stops at the first call that succeeds. */
  lemma SwitchStops(client: Client, id: string, model: Json, token: Json, i: nat)
    requires i < 3 && client(1 + i, EmbeddingChain(id, model, token)[i]).Done?
    requires forall j :: 0 <= j < i ==> client(1 + j, EmbeddingChain(id, model, token)[j]).Raised?
    ensures SwitchSpec(client, id, model, token) ==
      (Some(EmbeddingChain(id, model, token)[i].verb), EmbeddingChain(id, model, token)[..i + 1])
  {
    FirstSuccessAt(client, 1, EmbeddingChain(id, model, token), i);
  }

  /** The update chain written out case by case. */
  lemma SwitchCases(client: Client, id: string, model: Json, token: Json)
    ensures var chain := EmbeddingChain(id, model, token);
      var a, b, c := chain[0], chain[1], chain[2];
      SwitchSpec(client, id, model, token) ==
        if client(1, a).Done? then (Some(Api.PUT), [a])
        else if client(2, b).Done? then (Some(Api.PATCH), [a, b])
        else if client(3, c).Done? then (Some(Api.POST), [a, b, c])
        else (None, [a, b, c])
  {
    var chain := EmbeddingChain(id, model, token);
    var a, b, c := chain[0], chain[1], chain[2];
    assert chain == [a, b, c] && a.verb == Api.PUT && b.verb == Api.PATCH && c.verb == Api.POST;
    if client(1, a).Done? {
      SwitchStops(client, id, model, token, 0);
      assert chain[..1] == [a];
    } else if client(2, b).Done? {
      SwitchStops(client, id, model, token, 1);
      assert chain[..2] == [a, b];
    } else if client(3, c).Done? {
      SwitchStops(client, id, model, token, 2);
      assert chain[..3] == chain;
    } else {
      FirstSuccessNone(client, 1, chain);
    }
  }

  /** The update chain with the flag `success`, as the command runs it. */
  method TrySwitch(client: Client, id: string, model: Json, token: Json) returns (via: Option<Api.Verb>, tried: seq<Call>)
    ensures (via, tried) == SwitchSpec(client, id, model, token)
  {
    var chain := EmbeddingChain(id, model, token);
    var a, b, c := chain[0], chain[1], chain[2];
    var success := false;
    via := None;
    tried := [a];
    if client(1, a).Done? {
      success, via := true, Some(Api.PUT);
    }
    if !success {
      tried := tried + [b];
      if client(2, b).Done? {
        success, via := true, Some(Api.PATCH);
      }
    }
    if !success {
      tried := tried + [c];
      if client(3, c).Done? {
        success, via := true, Some(Api.POST);
      }
    }
    assert [a] + [b] == [a, b] && [a, b] + [c] == [a, b, c];
    SwitchCases(client, id, model, token);
  }

  /** `datasets set-embedding-model`. */
  method SetEmbeddingModel(config: Json, id: string, model: Json, force: bool, confirmed: bool, client: Client)
    returns (end: EmbeddingEnd, calls: seq<Call>)
    ensures (end, calls) == EmbeddingSpec(config, id, model, force, confirmed, client)
  {
    var gate := TokenGate(config);
    if gate.Err? {
      return EmbeddingStopped(gate.error), [];
    }
    var token := gate.value;
    if !force && !confirmed {
      return EmbeddingStopped(Cancelled), [];
    }
    var list := ListCall(token);
    var found := FindDataset(client(0, list), id);
    var preview := PreviewOf(found);
    var via, tried := TrySwitch(client, id, model, token);
    calls := [list] + tried;
    if via.Some? {
      end := Switched(preview, via.value);
    } else {
      end := NotSwitched(preview);
    }
  }

  /** The update succeeds exactly when one of PUT, PATCH and POST does; each is tried
      only after the ones before it raised, and the listing never stops it. */
  lemma EmbeddingOutcome(config: Json, id: string, model: Json, force: bool, confirmed: bool, client: Client)
    requires TokenGate(config).Ok? && (force || confirmed)
    ensures var (end, calls) := EmbeddingSpec(config, id, model, force, confirmed, client);
      var chain := EmbeddingChain(id, model, TokenGate(config).value);
      && (end.Switched? <==> exists j :: 0 <= j < 3 && client(1 + j, chain[j]).Done?)
      && (end.Switched? ==> exists j :: (0 <= j < 3 && client(1 + j, chain[j]).Done? && end.via == chain[j].verb
            && calls == [ListCall(TokenGate(config).value)] + chain[..j + 1]
            && forall i :: 0 <= i < j ==> client(1 + i, chain[i]).Raised?))
  {
    var token := TokenGate(config).value;
    var chain := EmbeddingChain(id, model, token);
    var (end, calls) := EmbeddingSpec(config, id, model, force, confirmed, client);
    var r := FirstSuccess(client, 1, chain);
    assert |chain| == 3;
    if r.Some? {
      var j := r.value;
      assert end.Switched? && end.via == chain[j].verb;
      assert calls == [ListCall(token)] + chain[..j + 1];
    } else {
      assert !end.Switched?;
    }
  }

  // ---------------------------------------------------------------- fix embedding model

  const FallbackModel: string := "bge-m3___OpenAI-API"

  /** What `fix_embedding_model` makes of the answer to `/v1/llm/default_models`: the
      model to set, a stop without a model, or the exception that makes it fall back. */
  datatype DefaultModel = UseModel(model: Json) | NoDefault | FallBack(cause: Failure)

  /** The name before `@` in the `embedding_model` entry (the whole entry when it has
      no `@`); an error stop when that is empty or the answer is not a dict. For an
      entry that is not a string, `'@' in entry` and `.split` behave as Python's. */
  function DefaultModelOf(response: Api.Outcome): DefaultModel {
    match response
    case Raised(f) => FallBack(ClientFailed(f))
    case Done(v) =>
      if !v.JObj? then NoDefault
      else
        var entry := GetOr(v.fields, "embedding_model", JStr(""));
        if !Truthy(entry) then NoDefault
        else match entry
          case JStr(s) =>
            var name := if '@' in s then Text.Split(s, '@')[0] else s;
            if name == "" then NoDefault else UseModel(JStr(name))
          case JArr(items) =>
            if JStr("@") in items then FallBack(NoAttribute("list", "split")) else UseModel(entry)
          case JObj(d) =>
            if "@" in Keys(d) then FallBack(NoAttribute("dict", "split")) else UseModel(entry)
          case _ => FallBack(NotIterable(TypeName(entry)))
  }

  /** For a string entry the model is the text before the first `@`, or the whole
      entry; an empty name stops, and a failed call falls back. */
  lemma DefaultModelName(s: string)
    ensures var v := Api.Done(JObj([Field("embedding_model", JStr(s))]));
      var name := if '@' in s then s[..Text.IndexOf(s, '@')] else s;
      DefaultModelOf(v) == if name == "" then NoDefault else UseModel(JStr(name))
    ensures var d := DefaultModelOf(Api.Done(JObj([Field("embedding_model", JStr(s))])));
      d.UseModel? ==> d.model.JStr? && '@' !in d.model.s
  {
    Text.SplitHead(s, '@');
    if '@' in s {
      var i := Text.IndexOf(s, '@');
      assert Text.Split(s, '@')[0] in Text.Split(s, '@');
    }
  }

  datatype FixEnd = FixStopped(stop: Stop) | FixNoDefault | Delegated(model: Json, fellBack: bool, result: EmbeddingEnd)

  /** The client seen by a command that runs after `n` calls were already made. */
  function After(client: Client, n: nat): Client {
    (k: nat, c: Call) => client(k + n, c)
  }

  /** `datasets fix-embedding-model`: find the default model, falling back on any
      exception, then run `set_embedding_model` with `force=True`. */
  method FixEmbeddingModel(config: Json, id: string, client: Client) returns (end: FixEnd, calls: seq<Call>)
    ensures TokenGate(config).Err? ==> end == FixStopped(TokenGate(config).error) && calls == []
    ensures TokenGate(config).Ok? ==>
      var first := WithBearer(GetCall("/v1/llm/default_models"), TokenGate(config).value);
      var d := DefaultModelOf(client(0, first));
      var model := if d.UseModel? then d.model else JStr(FallbackModel);
      && |calls| >= 1 && calls[0] == first
      && (d == NoDefault ==> end == FixNoDefault && calls == [first])
      && (d != NoDefault ==> (end.Delegated? && end.model == model && end.fellBack == d.FallBack?
            && (end.result, calls[1..]) == EmbeddingSpec(config, id, model, true, true, After(client, 1))))
  {
    var gate := TokenGate(config);
    if gate.Err? {
      return FixStopped(gate.error), [];
    }
    var first := WithBearer(GetCall("/v1/llm/default_models"), gate.value);
    calls := [first];
    var d := DefaultModelOf(client(0, first));
    if d == NoDefault {
      return FixNoDefault, calls;
    }
    var model := if d.UseModel? then d.model else JStr(FallbackModel);
    var result, more := SetEmbeddingModel(config, id, model, true, true, After(client, 1));
    calls := calls + more;
    end := Delegated(model, d.FallBack?, result);
  }

  // ---------------------------------------------------------------- findings

  /** As written every dataset call passes `headers=`, so the listing raises and
      `delete` reports "not found" for every dataset, whatever the server holds. */
  lemma DeleteAsWrittenNeverDeletes(config: Json, id: string, force: bool, confirmed: bool, server: (nat, Call) -> Api.Reply)
    ensures var (end, calls) := DeleteSpec(config, id, force, confirmed, AsWritten(server));
      (end.DeleteStopped? || end == NotFound) && |calls| <= 1
  {
  }

  /** As written the embedding update never succeeds: PUT and POST raise a TypeError
      for `headers=`, and `client.patch` does not exist. */
  lemma EmbeddingAsWrittenFails(config: Json, id: string, model: Json, server: (nat, Call) -> Api.Reply)
    ensures !EmbeddingSpec(config, id, model, true, true, AsWritten(server)).0.Switched?
  {
    if TokenGate(config).Ok? {
      SwitchAsWrittenFails(id, model, TokenGate(config).value, server);
    }
  }

  /** As written, each of PUT, PATCH and POST raises before any request. */
  lemma SwitchAsWrittenFails(id: string, model: Json, token: Json, server: (nat, Call) -> Api.Reply)
    ensures SwitchSpec(AsWritten(server), id, model, token).0.None?
  {
    var chain := EmbeddingChain(id, model, token);
    assert forall j :: 0 <= j < 3 ==> AsWritten(server)(1 + j, chain[j]).Raised?;
    FirstSuccessNone(AsWritten(server), 1, chain);
  }

  /** With calls that reach the server, a dataset the listing shows and a server that
      accepts the DELETE and then lists nothing, `delete` reports it gone. */
  lemma DeleteCorrectedCanDelete(config: Json, id: string)
    requires TokenGate(config).Ok?
    ensures var listed := Api.Response(200, "[...]", Some(JObj([Field("data", JArr([JObj([Field("id", JStr(id))])]))])));
      var empty := Api.Response(200, "[...]", Some(JObj([Field("data", JArr([]))])));
      var server := (k: nat, c: Call) => if k == 0 then listed else if k == 1 then Api.Response(200, "", None) else empty;
      DeleteSpec(config, id, true, false, Corrected(server)).0 == Attempted(JStr(UnknownDataset), Gone)
  {
    DeleteCorrectedGone(id, TokenGate(config).value);
  }

  /** The server of `DeleteCorrectedCanDelete`: the dataset is listed, the DELETE
      succeeds with an empty body, and the re-listing no longer has it. */
  lemma DeleteCorrectedGone(id: string, token: Json)
    ensures var listed := Api.Response(200, "[...]", Some(JObj([Field("data", JArr([JObj([Field("id", JStr(id))])]))])));
      var empty := Api.Response(200, "[...]", Some(JObj([Field("data", JArr([]))])));
      var server := (k: nat, c: Call) => if k == 0 then listed else if k == 1 then Api.Response(200, "", None) else empty;
      && Listing(Corrected(server)(0, ListCall(token)), id) == Ok(Some([Field("id", JStr(id))]))
      && AttemptSpec(Corrected(server), id, token).0 == Gone
  {
    var listed := Api.Response(200, "[...]", Some(JObj([Field("data", JArr([JObj([Field("id", JStr(id))])]))])));
    var empty := Api.Response(200, "[...]", Some(JObj([Field("data", JArr([]))])));
    var server := (k: nat, c: Call) => if k == 0 then listed else if k == 1 then Api.Response(200, "", None) else empty;
    var entry := JObj([Field("id", JStr(id))]);
    assert HasId(entry, id);
    assert Scan([entry], id) == Ok(Some(entry.fields));
    assert server(0, ListCall(token)) == listed;
    assert Api.ErrorCode([Field("data", JArr([entry]))]) == None;
    assert Corrected(server)(0, ListCall(token)) == Api.Done(JObj([Field("data", JArr([entry]))]));
    assert server(2, ListCall(token)) == empty;
    assert Api.ErrorCode([Field("data", JArr([]))]) == None;
    assert Listing(Corrected(server)(0, ListCall(token)), id) == Ok(Some(entry.fields));
    assert Scan([], id) == Ok(None);
    assert Corrected(server)(2, ListCall(token)) == Api.Done(JObj([Field("data", JArr([]))]));
    assert server(1, ByDelete(id, token)) == Api.Response(200, "", None);
    assert ByDelete(id, token).verb == Api.DELETE;
    assert Corrected(server)(1, ByDelete(id, token)) == Api.Done(JObj([]));
    assert FirstSuccess(Corrected(server), 1, DeleteChain(id, token)) == Some(0);
  }


  /** With calls that reach the server, a failing PUT followed by an accepted PATCH
      switches the model by PATCH. */
  lemma EmbeddingCorrectedUsesPatch(config: Json, id: string, model: Json)
    requires TokenGate(config).Ok?
    ensures var server := (k: nat, c: Call) => if k == 1 then Api.Response(500, "", None) else Api.Response(200, "{}", Some(JObj([])));
      var end := EmbeddingSpec(config, id, model, true, true, Corrected(server)).0;
      end.Switched? && end.via == Api.PATCH
  {
    var server := (k: nat, c: Call) => if k == 1 then Api.Response(500, "", None) else Api.Response(200, "{}", Some(JObj([])));
    var chain := EmbeddingChain(id, model, TokenGate(config).value);
    FirstSuccessOfThree(Corrected(server), 1, chain[0], chain[1], chain[2]);
    assert chain == [chain[0], chain[1], chain[2]];
    assert server(1, chain[0]) == Api.Response(500, "", None);
    assert Corrected(server)(1, chain[0]).Raised?;
    assert server(2, chain[1]) == Api.Response(200, "{}", Some(JObj([])));
    assert Api.ErrorCode([]) == None;
    assert Corrected(server)(2, chain[1]).Done?;
  }
}
