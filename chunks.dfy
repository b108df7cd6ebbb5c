/** The `chunks` commands: show, add, update and delete one chunk of a document,
    each through one call under `/api/v1/datasets/{dataset}/documents/{document}/chunks`. */
module Chunks {
  import opened Wrappers
  import opened Json
  import Text
  import Api
  import Output
  import opened Commands

  // ---------------------------------------------------------------- endpoints

  /** `/api/v1/datasets/{dataset}/documents/{document}/chunks`. */
  function ChunksPath(dataset: string, document: string): string {
    "/api/v1/datasets/" + dataset + "/documents/" + document + "/chunks"
  }

  /** `/api/v1/datasets/{dataset}/documents/{document}/chunks/{chunk}`. */
  function ChunkPath(dataset: string, document: string, chunk: string): (p: string)
    ensures p == ChunksPath(dataset, document) + "/" + chunk
  {
    "/api/v1/datasets/" + dataset + "/documents/" + document + "/chunks/" + chunk
  }

  /** The segments of a chunk's path. */
  function Segments(dataset: string, document: string, chunk: string): seq<string> {
    ["", "api", "v1", "datasets", dataset, "documents", document, "chunks", chunk]
  }

  /** The text of the path, grouped the way `/`.join builds it. */
  function Grouped(dataset: string, document: string, chunk: string): string {
    "" + "/" + ("api" + "/" + ("v1" + "/" + ("datasets" + "/" + (dataset + "/" + ("documents" + "/" +
      (document + "/" + ("chunks" + "/" + chunk)))))))
  }

  lemma PathGrouped(dataset: string, document: string, chunk: string)
    ensures ChunkPath(dataset, document, chunk) == Grouped(dataset, document, chunk)
  {
    Literals();
  }

  lemma {:induction false} JoinGrouped(dataset: string, document: string, chunk: string)
    ensures Text.Join(Segments(dataset, document, chunk), "/") == Grouped(dataset, document, chunk)
  {
    var s := Segments(dataset, document, chunk);
    assert Text.Join(s[8..], "/") == chunk;
    Text.JoinCons(s[7], s[8..], "/");
    assert [s[7]] + s[8..] == s[7..];
    Text.JoinCons(s[6], s[7..], "/");
    assert [s[6]] + s[7..] == s[6..];
    Text.JoinCons(s[5], s[6..], "/");
    assert [s[5]] + s[6..] == s[5..];
    Text.JoinCons(s[4], s[5..], "/");
    assert [s[4]] + s[5..] == s[4..];
    Text.JoinCons(s[3], s[4..], "/");
    assert [s[3]] + s[4..] == s[3..];
    Text.JoinCons(s[2], s[3..], "/");
    assert [s[2]] + s[3..] == s[2..];
    Text.JoinCons(s[1], s[2..], "/");
    assert [s[1]] + s[2..] == s[1..];
    Text.JoinCons(s[0], s[1..], "/");
    assert [s[0]] + s[1..] == s;
  }

  lemma Literals()
    ensures "/api/v1/datasets/" == "" + "/" + "api" + "/" + "v1" + "/" + "datasets" + "/"
    ensures "/documents/" == "/" + "documents" + "/"
    ensures "/chunks/" == "/" + "chunks" + "/"
  {
  }

  /** Ids without `/` can be read back from the path: splitting it on `/` gives the
      template's segments with the three ids in their places. */
  lemma ChunkPathRoundTrip(dataset: string, document: string, chunk: string)
    requires '/' !in dataset && '/' !in document && '/' !in chunk
    ensures Text.Split(ChunkPath(dataset, document, chunk), '/') == Segments(dataset, document, chunk)
  {
    PathGrouped(dataset, document, chunk);
    JoinGrouped(dataset, document, chunk);
    Text.SplitJoin(Segments(dataset, document, chunk), '/');
  }

  // ---------------------------------------------------------------- payloads

  /** `[kw.strip() for kw in keywords.split(',')]`. */
  function Keywords(keywords: string): (r: Json)
    ensures r.JArr? && |r.items| == |Text.Split(keywords, ',')| == Text.Count(keywords, ',') + 1
    ensures forall i :: 0 <= i < |r.items| ==> r.items[i] == JStr(Text.Strip(Text.Split(keywords, ',')[i]))
  {
    Strings(SplitStripped(keywords))
  }

  /** The body of `chunks add`: the content, then the keywords when given. */
  function AddPayload(content: string, keywords: Option<string>): Dict {
    [Field("content", JStr(content))]
    + (if Given(keywords) then [Field("important_keywords", Keywords(keywords.value))] else [])
  }

  /** `chunk_data` as `chunks add` fills it in. */
  method BuildAddPayload(content: string, keywords: Option<string>) returns (d: Dict)
    ensures d == AddPayload(content, keywords)
  {
    d := [Field("content", JStr(content))];
    assert Keys(d) == ["content"];
    if keywords.Some? && keywords.value != "" {
      d := AssignNew(d, "important_keywords", Keywords(keywords.value));
    }
  }

  /** The `chunks add` body always has the content, and the keywords exactly when
      the option is non-empty. */
  lemma AddPayloadFields(content: string, keywords: Option<string>)
    ensures Get(AddPayload(content, keywords), "content") == Some(JStr(content))
    ensures Get(AddPayload(content, keywords), "important_keywords")
      == if Given(keywords) then Some(Keywords(keywords.value)) else None
  {
    var d := AddPayload(content, keywords);
    assert d[0] == Field("content", JStr(content));
    if Given(keywords) {
      assert d[1..] == [Field("important_keywords", Keywords(keywords.value))];
    } else {
      assert d[1..] == [];
    }
  }

  /** The body of `chunks update`: each option that is given, in order; `available`
      whenever it is given, `False` included. */
  function UpdatePayload(content: Option<string>, keywords: Option<string>, available: Option<bool>): Dict {
    (if Given(content) then [Field("content", JStr(content.value))] else [])
    + (if Given(keywords) then [Field("important_keywords", Keywords(keywords.value))] else [])
    + (if available.Some? then [Field("available", JBool(available.value))] else [])
  }

  /** `update_data` as `chunks update` fills it in, starting from `{}`. */
  method BuildUpdatePayload(content: Option<string>, keywords: Option<string>, available: Option<bool>)
    returns (d: Dict)
    ensures d == UpdatePayload(content, keywords, available)
  {
    d := [];
    if content.Some? && content.value != "" {
      d := AssignNew(d, "content", JStr(content.value));
    }
    ghost var first := d;
    if keywords.Some? && keywords.value != "" {
      d := AssignNew(d, "important_keywords", Keywords(keywords.value));
    }
    assert d == first + (if Given(keywords) then [Field("important_keywords", Keywords(keywords.value))] else []);
    if available.Some? {
      d := AssignNew(d, "available", JBool(available.value));
    }
  }

  /** Each field of the `chunks update` body is there exactly when its option is
      given; with no option the body is `{}`. */
  lemma UpdatePayloadFields(content: Option<string>, keywords: Option<string>, available: Option<bool>)
    ensures Get(UpdatePayload(content, keywords, available), "content")
      == if Given(content) then Some(JStr(content.value)) else None
    ensures Get(UpdatePayload(content, keywords, available), "important_keywords")
      == if Given(keywords) then Some(Keywords(keywords.value)) else None
    ensures Get(UpdatePayload(content, keywords, available), "available")
      == if available.Some? then Some(JBool(available.value)) else None
    ensures !Given(content) && !Given(keywords) && available.None? ==> UpdatePayload(content, keywords, available) == []
  {
    var a := if Given(content) then [Field("content", JStr(content.value))] else [];
    var b := if Given(keywords) then [Field("important_keywords", Keywords(keywords.value))] else [];
    var c := if available.Some? then [Field("available", JBool(available.value))] else [];
    assert UpdatePayload(content, keywords, available) == a + b + c;
    GetConcat(a + b, c, "content");
    GetConcat(a, b, "content");
    GetConcat(a + b, c, "important_keywords");
    GetConcat(a, b, "important_keywords");
    GetConcat(a + b, c, "available");
    GetConcat(a, b, "available");
    KeysAppend(a, b);
  }

  // ---------------------------------------------------------------- commands

  /** A chunk command: build the client, make its one call, and on success show
      what `shown` makes of the answer; every exception is reported after `prefix`. */
  function Run(config: Json, call: Call, prefix: string, shown: Json -> seq<Display>, client: Client)
    : (seq<Display>, seq<Call>)
  {
    match Api.Build(config)
    case Err(e) => ([Crash(Output.Error, prefix, SetupRaised(e))], [])
    case Ok(_) =>
      match client(0, call)
      case Raised(f) => ([Crash(Output.Error, prefix, ClientFailed(f))], [call])
      case Done(response) => (shown(response), [call])
  }

  /** The table of one dict, or the formatted answer outside table mode. */
  function OneRow(format: string, row: Json, response: Json, title: string, prefix: string): seq<Display> {
    if format == "table" then ShowTable(JArr([row]), title, prefix) else [Formatted(format, response)]
  }

  const ShowPrefix: string := "获取文档块详情失败: "
  const AddPrefix: string := "添加文档块失败: "
  const UpdatePrefix: string := "更新文档块失败: "
  const DeletePrefix: string := "删除文档块失败: "

  function ShowCall(dataset: string, document: string, chunk: string): Call {
    GetCall(ChunkPath(dataset, document, chunk))
  }

  function AddCall(dataset: string, document: string, content: string, keywords: Option<string>): Call {
    PostCall(ChunksPath(dataset, document), Some(JObj(AddPayload(content, keywords))))
  }

  function UpdateCall(dataset: string, document: string, chunk: string,
                      content: Option<string>, keywords: Option<string>, available: Option<bool>): Call {
    PutCall(ChunkPath(dataset, document, chunk), Some(JObj(UpdatePayload(content, keywords, available))))
  }

  function DeleteChunkCall(dataset: string, document: string, chunk: string): Call {
    DeleteCall(ChunkPath(dataset, document, chunk))
  }

  /** `chunks show`: the answer as a one-row table titled with the chunk id. */
  function Show(config: Json, dataset: string, document: string, chunk: string, format: string, client: Client)
    : (seq<Display>, seq<Call>)
  {
    Run(config, ShowCall(dataset, document, chunk), ShowPrefix,
        (response: Json) => OneRow(format, response, response, "文档块 " + chunk + " 详情", ShowPrefix), client)
  }

  /** What `chunks add` shows for an answer: success first, then the answer's
      `chunk` (a `{}` when missing; an answer that is not a dict has no `.get`). */
  function Added(format: string, response: Json): (r: seq<Display>)
    ensures format != "table" ==> r == [Note(Output.Success, "文档块添加成功"), Formatted(format, response)]
    ensures format == "table" && !response.JObj? ==>
      r == [Note(Output.Success, "文档块添加成功"), Crash(Output.Error, AddPrefix, NoAttribute(TypeName(response), "get"))]
    ensures format == "table" && response.JObj? ==>
      var chunk := GetOr(response.fields, "chunk", JObj([]));
      && (chunk.JObj? ==> r == [Note(Output.Success, "文档块添加成功"), Table(JArr([chunk]), "添加的文档块")])
      && (!chunk.JObj? ==> r == [Note(Output.Success, "文档块添加成功"),
                                 Crash(Output.Error, AddPrefix, FormatFailed(Output.NoAttribute(TypeName(chunk), "keys")))])
  {
    Output.OneRowTable(GetOr(if response.JObj? then response.fields else [], "chunk", JObj([])));
    [Note(Output.Success, "文档块添加成功")] +
    if format != "table" then [Formatted(format, response)]
    else match Lookup(response, "chunk", JObj([]))
      case Err(e) => [Crash(Output.Error, AddPrefix, e)]
      case Ok(added) => ShowTable(JArr([added]), "添加的文档块", AddPrefix)
  }

  function Add(config: Json, dataset: string, document: string, content: string, keywords: Option<string>,
               format: string, client: Client): (seq<Display>, seq<Call>)
  {
    Run(config, AddCall(dataset, document, content, keywords), AddPrefix, (response: Json) => Added(format, response), client)
  }

  /** What `chunks update` shows for an answer: success first, then the answer as a
      one-row table, or formatted outside table mode. */
  function Updated(chunk: string, format: string, response: Json): (r: seq<Display>)
    ensures format != "table" ==> r == [Note(Output.Success, "文档块 " + chunk + " 更新成功"), Formatted(format, response)]
    ensures format == "table" && response.JObj? ==>
      r == [Note(Output.Success, "文档块 " + chunk + " 更新成功"), Table(JArr([response]), "更新后的文档块")]
    ensures format == "table" && !response.JObj? ==>
      r == [Note(Output.Success, "文档块 " + chunk + " 更新成功"),
            Crash(Output.Error, UpdatePrefix, FormatFailed(Output.NoAttribute(TypeName(response), "keys")))]
  {
    Output.OneRowTable(response);
    [Note(Output.Success, "文档块 " + chunk + " 更新成功")] + OneRow(format, response, response, "更新后的文档块", UpdatePrefix)
  }

  function Update(config: Json, dataset: string, document: string, chunk: string, content: Option<string>,
                  keywords: Option<string>, available: Option<bool>, format: string, client: Client)
    : (seq<Display>, seq<Call>)
  {
    Run(config, UpdateCall(dataset, document, chunk, content, keywords, available), UpdatePrefix,
        (response: Json) => Updated(chunk, format, response), client)
  }

  function Delete(config: Json, dataset: string, document: string, chunk: string, client: Client)
    : (seq<Display>, seq<Call>)
  {
    Run(config, DeleteChunkCall(dataset, document, chunk), DeletePrefix,
        (response: Json) => [Note(Output.Success, "文档块 " + chunk + " 删除成功")], client)
  }

  // ---------------------------------------------------------------- properties

  /** A chunk command makes its one call unless the client cannot be built; the
      answer is shown only when the call completes, otherwise the exception alone. */
  lemma RunOutcome(config: Json, call: Call, prefix: string, shown: Json -> seq<Display>, client: Client)
    ensures Api.Build(config).Err? <==> Run(config, call, prefix, shown, client).1 == []
    ensures Api.Build(config).Ok? ==> Run(config, call, prefix, shown, client).1 == [call]
    ensures Api.Build(config).Ok? && client(0, call).Done? ==>
      Run(config, call, prefix, shown, client).0 == shown(client(0, call).value)
    ensures Api.Build(config).Ok? && client(0, call).Raised? ==>
      Run(config, call, prefix, shown, client).0 == [Crash(Output.Error, prefix, ClientFailed(client(0, call).fault))]
  {
  }

  /** `add`, `update` and `delete` report success exactly when their call completed. */
  lemma SuccessOnlyWhenDone(config: Json, dataset: string, document: string, chunk: string, content: string,
                            newContent: Option<string>, keywords: Option<string>, available: Option<bool>,
                            format: string, client: Client)
    requires Api.Build(config).Ok?
    ensures var add := AddCall(dataset, document, content, keywords);
      Add(config, dataset, document, content, keywords, format, client).0[0].Note? <==> client(0, add).Done?
    ensures var update := UpdateCall(dataset, document, chunk, newContent, keywords, available);
      (Update(config, dataset, document, chunk, newContent, keywords, available, format, client).0[0].Note?
       <==> client(0, update).Done?)
    ensures Delete(config, dataset, document, chunk, client).0[0].Note? <==> client(0, DeleteChunkCall(dataset, document, chunk)).Done?
  {
  }

  /** The chunk commands send no `headers=`, so they reach the server with the
      client as written. */
  lemma ChunksReachServer(config: Json, call: Call, prefix: string, shown: Json -> seq<Display>,
                          server: (nat, Call) -> Api.Reply)
    requires call.verb != Api.PATCH && call.authorization.None?
    ensures Run(config, call, prefix, shown, AsWritten(server)) == Run(config, call, prefix, shown, Corrected(server))
  {
    ClientsAgree(server, 0, call);
  }
}
