/** The `teams` command group. Every command needs an API token, calls
    `/api/v1/teams/...` with `headers={'Authorization': 'Bearer <token>'}`, and
    checks the answer's `code` against 0; listings project each team onto fixed
    columns. */
module Teams {
  import opened Wrappers
  import opened Json
  import Api
  import Output
  import opened Commands

  const UnknownError: string := "未知错误"
  const Endpoint: string := "/api/v1/teams"

  // ---------------------------------------------------------------- row projection

  /** A column of a team table: a field copied with its default, or the `is_public`
      flag shown as '是' or '否'. */
  datatype Column = Copy(header: string, key: string, default: Json) | YesNo(header: string, key: string)

  const Yes: string := "是"
  const No: string := "否"

  /** The value a column takes for one team. */
  function CellValue(c: Column, team: Dict): (v: Json)
    ensures c.Copy? ==> v == GetOr(team, c.key, c.default)
    ensures c.YesNo? ==> v == JStr(if Truthy(GetOr(team, c.key, JBool(false))) then Yes else No)
  {
    match c
    case Copy(_, key, default) => GetOr(team, key, default)
    case YesNo(_, key) => JStr(if Truthy(GetOr(team, key, JBool(false))) then Yes else No)
  }

  /** The flag reads '是' exactly when the team's value is truthy; a team without it reads '否'. */
  lemma YesNoCell(header: string, key: string, team: Dict)
    ensures CellValue(YesNo(header, key), team) == JStr(Yes) <==> Truthy(GetOr(team, key, JBool(false)))
    ensures key !in Keys(team) ==> CellValue(YesNo(header, key), team) == JStr(No)
  {
  }

  function Headers(columns: seq<Column>): (hs: seq<string>)
    ensures |hs| == |columns| && forall i :: 0 <= i < |columns| ==> hs[i] == columns[i].header
  {
    seq(|columns|, i requires 0 <= i < |columns| => columns[i].header)
  }

  /** The row of one team: the columns in order, each with its value. */
  function Row(columns: seq<Column>, team: Dict): (row: Json)
    ensures row.JObj? && Keys(row.fields) == Headers(columns)
    ensures |Values(row.fields)| == |columns| &&
      forall i :: 0 <= i < |columns| ==> Values(row.fields)[i] == CellValue(columns[i], team)
  {
    JObj(seq(|columns|, i requires 0 <= i < |columns| => Field(columns[i].header, CellValue(columns[i], team))))
  }

  /** One row per team, in order; the first team that is not a dict raises on `.get`. */
  function Project(columns: seq<Column>, teams: seq<Json>): (r: Result<seq<Json>, Failure>)
    ensures r.Ok? <==> forall i :: 0 <= i < |teams| ==> teams[i].JObj?
    ensures r.Ok? ==> |r.value| == |teams| && forall i :: 0 <= i < |teams| ==> r.value[i] == Row(columns, teams[i].fields)
    ensures r.Err? ==> exists i :: (0 <= i < |teams| && !teams[i].JObj? && (forall j :: 0 <= j < i ==> teams[j].JObj?)
      && r.error == NoAttribute(TypeName(teams[i]), "get"))
  {
    if teams == [] then Ok([])
    else if !teams[0].JObj? then Err(NoAttribute(TypeName(teams[0]), "get"))
    else
      assert forall i :: 1 <= i < |teams| ==> teams[i] == teams[1..][i - 1];
      match Project(columns, teams[1..])
      case Err(e) => Err(e)
      case Ok(rest) => Ok([Row(columns, teams[0].fields)] + rest)
  }

  /** The `for` loop of the listing commands, appending one row per team. */
  method ProjectRows(columns: seq<Column>, teams: seq<Json>) returns (r: Result<seq<Json>, Failure>)
    ensures r == Project(columns, teams)
  {
    var table: seq<Json> := [];
    var i := 0;
    while i < |teams|
      invariant 0 <= i <= |teams| && |table| == i
      invariant forall k :: 0 <= k < i ==> teams[k].JObj? && table[k] == Row(columns, teams[k].fields)
    {
      if !teams[i].JObj? {
        var e := Project(columns, teams).error;
        ghost var w :| 0 <= w < |teams| && !teams[w].JObj? && (forall k :: 0 <= k < w ==> teams[k].JObj?)
          && e == NoAttribute(TypeName(teams[w]), "get");
        assert w == i;
        return Err(e);
      }
      table := table + [Row(columns, teams[i].fields)];
      i := i + 1;
    }
    assert table == Project(columns, teams).value;
    r := Ok(table);
  }

  const AvailableColumns: seq<Column> := [
    Copy("ID", "id", JStr("")), Copy("团队名称", "name", JStr("")), Copy("描述", "description", JStr("")),
    Copy("成员数量", "member_count", JInt(0)), Copy("创建者", "creator", JStr("")), Copy("状态", "status", JStr("")),
    Copy("创建时间", "create_time", JStr("")), YesNo("是否公开", "is_public")]

  const MyColumns: seq<Column> := [
    Copy("ID", "id", JStr("")), Copy("团队名称", "name", JStr("")), Copy("描述", "description", JStr("")),
    Copy("角色", "role", JStr("")), Copy("加入时间", "join_time", JStr("")), Copy("状态", "status", JStr(""))]

  const MemberColumns: seq<Column> := [
    Copy("用户ID", "user_id", JStr("")), Copy("用户名", "username", JStr("")), Copy("昵称", "nickname", JStr("")),
    Copy("角色", "role", JStr("")), Copy("加入时间", "join_time", JStr("")), Copy("状态", "status", JStr(""))]

  // ---------------------------------------------------------------- listings

  /** What a listing shows for its answer: the error and its message when `code`
      is not 0, an info note for empty `data`, otherwise the projected table (or the
      whole answer formatted). */
  function ListingShown(response: Json, columns: seq<Column>, title: string, prefix: string, empty: string, format: string)
    : seq<Display>
  {
    if !response.JObj? then [Crash(Output.Error, prefix, NoAttribute(TypeName(response), "get"))]
    else if !EqInt(GetOr(response.fields, "code", JNull), 0) then
      [Note(Output.Error, prefix + PyStr(GetOr(response.fields, "message", JStr(UnknownError))))]
    else
      var data := GetOr(response.fields, "data", JArr([]));
      if !Truthy(data) then [Note(Output.Info, empty)]
      else if format != "table" then [Formatted(format, response)]
      else match Iterate(data)
        case None => [Crash(Output.Error, prefix, NotIterable(TypeName(data)))]
        case Some(items) =>
          match Project(columns, items)
          case Err(e) => [Crash(Output.Error, prefix, e)]
          case Ok(rows) => ShowTable(JArr(rows), title, prefix)
  }

  /** A listing command: the token gate, one GET, then what its answer shows. */
  function Listing(config: Json, endpoint: string, columns: seq<Column>, title: string, prefix: string, empty: string,
                   format: string, client: Client): (seq<Display>, seq<Call>)
  {
    match TokenGate(config)
    case Err(s) => (StopDisplay(s, prefix), [])
    case Ok(token) =>
      var call := WithBearer(GetCall(endpoint), token);
      match client(0, call)
      case Raised(f) => ([Crash(Output.Error, prefix, ClientFailed(f))], [call])
      case Done(response) => (ListingShown(response, columns, title, prefix, empty, format), [call])
  }

  /** `teams list-available`. */
  function ListAvailable(config: Json, format: string, client: Client): (seq<Display>, seq<Call>) {
    Listing(config, Endpoint + "/available", AvailableColumns, "可加入的团队列表", "获取团队列表失败: ",
            "暂无可加入的团队", format, client)
  }

  /** `teams my-teams`. */
  function MyTeams(config: Json, format: string, client: Client): (seq<Display>, seq<Call>) {
    Listing(config, Endpoint + "/my", MyColumns, "我的团队列表", "获取我的团队列表失败: ",
            "您还没有加入任何团队", format, client)
  }

  /** `teams members`. */
  function Members(config: Json, id: string, format: string, client: Client): (seq<Display>, seq<Call>) {
    Listing(config, Endpoint + "/" + id + "/members", MemberColumns, "团队 " + id + " 成员列表", "获取团队成员列表失败: ",
            "该团队暂无成员", format, client)
  }

  /** A listing whose answer has a `code` other than 0 (or none) shows that error
      with the answer's message (or '未知错误'); a code of 0 with empty or missing
      `data` shows only the info note. */
  lemma ListingRefusals(response: Dict, columns: seq<Column>, title: string, prefix: string, empty: string, format: string)
    ensures var shown := ListingShown(JObj(response), columns, title, prefix, empty, format);
      && (!EqInt(GetOr(response, "code", JNull), 0) ==>
            shown == [Note(Output.Error, prefix + PyStr(GetOr(response, "message", JStr(UnknownError))))])
      && ("code" !in Keys(response) ==> shown == [Note(Output.Error, prefix + PyStr(GetOr(response, "message", JStr(UnknownError))))])
      && (EqInt(GetOr(response, "code", JNull), 0) && !Truthy(GetOr(response, "data", JArr([]))) ==>
            shown == [Note(Output.Info, empty)])
  {
  }

  /** In table mode an accepted, non-empty list of teams shows one row per team, and
      the table's columns are the listing's headers. */
  lemma ListingTable(response: Dict, items: seq<Json>, columns: seq<Column>, title: string, prefix: string, empty: string)
    requires EqInt(GetOr(response, "code", JNull), 0) && GetOr(response, "data", JArr([])) == JArr(items) && items != []
    requires Project(columns, items).Ok?
    ensures var rows := Project(columns, items).value;
      && ListingShown(JObj(response), columns, title, prefix, empty, "table") == [Table(JArr(rows), title)]
      && Output.PrintRichTable(JArr(rows)).Ok?
      && Output.PrintRichTable(JArr(rows)).value.columns == Headers(columns)
      && |Output.PrintRichTable(JArr(rows)).value.rows| == |items|
  {
    var rows := Project(columns, items).value;
    assert Output.RichRows(rows).Ok?;
    assert Output.PrintRichTable(JArr(rows)) == Ok(Output.Table(Keys(rows[0].fields), Output.RichRows(rows).value));
  }

  // ---------------------------------------------------------------- info

  /** The eight field/value rows of `teams info`, in their fixed order. */
  const InfoColumns: seq<Column> := [
    Copy("团队ID", "id", JStr("")), Copy("团队名称", "name", JStr("")), Copy("描述", "description", JStr("")),
    Copy("成员数量", "member_count", JInt(0)), Copy("创建者", "creator", JStr("")), Copy("创建时间", "create_time", JStr("")),
    YesNo("是否公开", "is_public"), Copy("状态", "status", JStr(""))]

  /** `[{'字段': label, '值': value}, ...]` for the team. */
  function InfoRows(team: Dict): (rows: seq<Json>)
    ensures |rows| == 8
    ensures forall i :: 0 <= i < 8 ==> rows[i] == JObj([Field("字段", JStr(InfoColumns[i].header)), Field("值", CellValue(InfoColumns[i], team))])
  {
    seq(8, i requires 0 <= i < 8 => JObj([Field("字段", JStr(InfoColumns[i].header)), Field("值", CellValue(InfoColumns[i], team))]))
  }

  /** Every info row has the two columns 字段 and 值, and the labels come in the fixed order. */
  lemma InfoRowsShape(team: Dict)
    ensures forall i :: 0 <= i < 8 ==> InfoRows(team)[i].JObj? && Keys(InfoRows(team)[i].fields) == ["字段", "值"]
    ensures Headers(InfoColumns) == ["团队ID", "团队名称", "描述", "成员数量", "创建者", "创建时间", "是否公开", "状态"]
    ensures Values(InfoRows(team)[6].fields)[1] == JStr(if Truthy(GetOr(team, "is_public", JBool(false))) then Yes else No)
  {
  }

  function InfoShown(response: Json, id: string, format: string): seq<Display> {
    var prefix := "获取团队信息失败: ";
    if !response.JObj? then [Crash(Output.Error, prefix, NoAttribute(TypeName(response), "get"))]
    else if !EqInt(GetOr(response.fields, "code", JNull), 0) then
      [Note(Output.Error, prefix + PyStr(GetOr(response.fields, "message", JStr(UnknownError))))]
    else if format != "table" then [Formatted(format, response)]
    else
      var team := GetOr(response.fields, "data", JObj([]));
      if !team.JObj? then [Crash(Output.Error, prefix, NoAttribute(TypeName(team), "get"))]
      else ShowTable(JArr(InfoRows(team.fields)), "团队 " + id + " 详细信息", prefix)
  }

  /** `teams info`. */
  function Info(config: Json, id: string, format: string, client: Client): (seq<Display>, seq<Call>) {
    var prefix := "获取团队信息失败: ";
    match TokenGate(config)
    case Err(s) => (StopDisplay(s, prefix), [])
    case Ok(token) =>
      var call := WithBearer(GetCall(Endpoint + "/" + id), token);
      match client(0, call)
      case Raised(f) => ([Crash(Output.Error, prefix, ClientFailed(f))], [call])
      case Done(response) => (InfoShown(response, id, format), [call])
  }

  /** An accepted answer in table mode shows the eight rows, whatever the team holds. */
  lemma InfoTable(response: Dict, id: string)
    requires EqInt(GetOr(response, "code", JNull), 0) && GetOr(response, "data", JObj([])).JObj?
    ensures InfoShown(JObj(response), id, "table") ==
      [Table(JArr(InfoRows(GetOr(response, "data", JObj([])).fields)), "团队 " + id + " 详细信息")]
  {
    var rows := InfoRows(GetOr(response, "data", JObj([])).fields);
    assert rows[0].JObj?;
    assert Output.RichRows(rows).Ok?;
  }

  // ---------------------------------------------------------------- join, leave, create, delete

  /** `{'team_id': team_id}`, the whole body of `join` and `leave`. */
  function MembershipBody(id: string): (d: Dict)
    ensures Keys(d) == ["team_id"] && Get(d, "team_id") == Some(JStr(id))
  {
    [Field("team_id", JStr(id))]
  }

  /** `{'name': name, 'is_public': is_public}`, plus the description when it is given
      and not empty. */
  function TeamPayload(name: string, description: Option<string>, isPublic: bool): (d: Dict)
    ensures Keys(d) == ["name", "is_public"] + (if description.Some? && description.value != "" then ["description"] else [])
    ensures Get(d, "name") == Some(JStr(name)) && Get(d, "is_public") == Some(JBool(isPublic))
    ensures Get(d, "description") == if description.Some? && description.value != "" then Some(JStr(description.value)) else None
  {
    var base := [Field("name", JStr(name)), Field("is_public", JBool(isPublic))];
    if description.Some? && description.value != "" then
      var d := base + [Field("description", JStr(description.value))];
      GetAt(d, 2);
      d
    else base
  }

  /** The payload dict of `create`, filled in place. */
  method BuildTeamPayload(name: string, description: Option<string>, isPublic: bool) returns (d: Dict)
    ensures d == TeamPayload(name, description, isPublic)
  {
    d := [Field("name", JStr(name)), Field("is_public", JBool(isPublic))];
    if description.Some? && description.value != "" {
      PutNew(d, "description", JStr(description.value));
      d := Put(d, "description", JStr(description.value));
    }
  }

  /** What a command that changes a team shows for its answer: success exactly when
      `code` equals 0, then the answer's `data` as a table (or the answer formatted). */
  function ActionShown(response: Json, success: string, title: string, prefix: string, format: string): seq<Display> {
    if !response.JObj? then [Crash(Output.Error, prefix, NoAttribute(TypeName(response), "get"))]
    else if !EqInt(GetOr(response.fields, "code", JNull), 0) then
      [Note(Output.Error, prefix + PyStr(GetOr(response.fields, "message", JStr(UnknownError))))]
    else
      [Note(Output.Success, success)] +
        if format == "table" then ShowTable(JArr([GetOr(response.fields, "data", JObj([]))]), title, prefix)
        else [Formatted(format, response)]
  }

  /** A command that changes a team: the gate, then one authorized call. */
  function Action(config: Json, c: Call, success: string, title: string, prefix: string, format: string, client: Client)
    : (seq<Display>, seq<Call>)
  {
    match TokenGate(config)
    case Err(s) => (StopDisplay(s, prefix), [])
    case Ok(token) =>
      var call := WithBearer(c, token);
      match client(0, call)
      case Raised(f) => ([Crash(Output.Error, prefix, ClientFailed(f))], [call])
      case Done(response) => (ActionShown(response, success, title, prefix, format), [call])
  }

  function Join(config: Json, id: string, format: string, client: Client): (seq<Display>, seq<Call>) {
    Action(config, PostCall(Endpoint + "/join", Some(JObj(MembershipBody(id)))), "成功加入团队 " + id, "加入团队结果",
           "加入团队失败: ", format, client)
  }

  function Leave(config: Json, id: string, format: string, client: Client): (seq<Display>, seq<Call>) {
    Action(config, PostCall(Endpoint + "/leave", Some(JObj(MembershipBody(id)))), "成功离开团队 " + id, "离开团队结果",
           "离开团队失败: ", format, client)
  }

  function Create(config: Json, name: string, description: Option<string>, isPublic: bool, format: string, client: Client)
    : (seq<Display>, seq<Call>)
  {
    Action(config, PostCall(Endpoint, Some(JObj(TeamPayload(name, description, isPublic)))), "团队 " + name + " 创建成功",
           "创建团队结果", "创建团队失败: ", format, client)
  }

  function Delete(config: Json, id: string, format: string, client: Client): (seq<Display>, seq<Call>) {
    Action(config, DeleteCall(Endpoint + "/" + id), "团队 " + id + " 删除成功", "删除团队结果", "删除团队失败: ", format, client)
  }

  /** A change is reported as a success exactly when the answer's `code` equals 0;
      otherwise only the error with the message (or '未知错误') is shown. */
  lemma ActionSucceedsIffCodeZero(response: Dict, success: string, title: string, prefix: string, format: string)
    ensures var shown := ActionShown(JObj(response), success, title, prefix, format);
      && (shown[0] == Note(Output.Success, success) <==> EqInt(GetOr(response, "code", JNull), 0))
      && (!EqInt(GetOr(response, "code", JNull), 0) ==>
            shown == [Note(Output.Error, prefix + PyStr(GetOr(response, "message", JStr(UnknownError))))])
  {
  }

  // ---------------------------------------------------------------- all commands

  /** Without a token no team command makes a call, and each shows the same error. */
  lemma TeamsGate(config: Json, id: string, name: string, description: Option<string>, isPublic: bool, format: string, client: Client)
    requires TokenGate(config) == Err(NoToken)
    ensures var none := ([Note(Output.Error, "未找到API令牌，请先登录")], []);
      && ListAvailable(config, format, client) == none
      && MyTeams(config, format, client) == none
      && Members(config, id, format, client) == none
      && Info(config, id, format, client) == none
      && Join(config, id, format, client) == none
      && Leave(config, id, format, client) == none
      && Create(config, name, description, isPublic, format, client) == none
      && Delete(config, id, format, client) == none
  {
  }

  /** With a token, `join` and `leave` send exactly `{'team_id': team_id}` and
      `create` sends its payload, each with the bearer token. */
  lemma TeamsBodies(config: Json, id: string, name: string, description: Option<string>, isPublic: bool, format: string, client: Client)
    requires TokenGate(config).Ok?
    ensures var token := TokenGate(config).value;
      && Join(config, id, format, client).1 == [WithBearer(PostCall(Endpoint + "/join", Some(JObj([Field("team_id", JStr(id))]))), token)]
      && Leave(config, id, format, client).1 == [WithBearer(PostCall(Endpoint + "/leave", Some(JObj([Field("team_id", JStr(id))]))), token)]
      && Create(config, name, description, isPublic, format, client).1[0].body == Some(JObj(TeamPayload(name, description, isPublic)))
      && Delete(config, id, format, client).1[0].authorization == Some(Api.Bearer(token))
  {
  }

  /** As written every team call passes `headers=`, so each command with a token
      reports the TypeError and never shows an answer. */
  lemma TeamsAsWrittenFail(config: Json, name: string, description: Option<string>, isPublic: bool, format: string,
                           server: (nat, Call) -> Api.Reply)
    requires TokenGate(config).Ok?
    ensures ListAvailable(config, format, AsWritten(server)).0 ==
      [Crash(Output.Error, "获取团队列表失败: ", ClientFailed(Api.Other(HeadersText(Api.GET))))]
    ensures Create(config, name, description, isPublic, format, AsWritten(server)).0 ==
      [Crash(Output.Error, "创建团队失败: ", ClientFailed(Api.Other(HeadersText(Api.POST))))]
  {
  }
}
