/** `OutputFormatter`: format dispatch, the header and row matrices of the table
    format and of the rich table, and the message markers. Rendering the matrices
    (tabulate's grid, rich's console table), `json.dumps` and `yaml.dump` are not
    modelled: they appear as the data they would render. */
module Output {
  import opened Wrappers
  import opened Json

  /** An exception escaping the formatter: a missing attribute on a value of the
      named type, a value that cannot be indexed, or a missing dict key. */
  datatype Failure = NoAttribute(onType: string, attribute: string) | NotSubscriptable(onType: string) | MissingKey

  /** What `format_output` produces, before rendering. */
  datatype Rendering =
    | JsonText(data: Json)                          // json.dumps(data, indent=2, ensure_ascii=False)
    | YamlText(data: Json)                          // yaml.dump(data, ...)
    | Grid(headers: seq<string>, rows: seq<seq<Json>>)   // tabulate(rows, headers, tablefmt="grid")
    | Plain(text: string)                           // str(data)

  /** Cells of the rows of a list of dicts: `[row.get(h, "") for h in headers]`, row
      by row; the first row that is not a dict raises. */
  function RowCells(headers: seq<string>, rows: seq<Json>): (r: Result<seq<seq<Json>>, Failure>)
    ensures r.Ok? <==> forall i :: 0 <= i < |rows| ==> rows[i].JObj?
    ensures r.Ok? ==> |r.value| == |rows|
    ensures r.Ok? ==> forall i :: 0 <= i < |rows| ==> |r.value[i]| == |headers|
    ensures r.Ok? ==> forall i, j :: 0 <= i < |rows| && 0 <= j < |headers| ==>
      r.value[i][j] == GetOr(rows[i].fields, headers[j], JStr(""))
    ensures r.Err? ==> exists i :: 0 <= i < |rows| && !rows[i].JObj? && r.error == NoAttribute(TypeName(rows[i]), "get")
  {
    if rows == [] then Ok([])
    else if !rows[0].JObj? then Err(NoAttribute(TypeName(rows[0]), "get"))
    else
      var row := seq(|headers|, j requires 0 <= j < |headers| => GetOr(rows[0].fields, headers[j], JStr("")));
      match RowCells(headers, rows[1..])
      case Err(e) => assert forall i :: 1 <= i < |rows| ==> rows[i] == rows[1..][i - 1]; Err(e)
      case Ok(rest) => assert forall i :: 1 <= i < |rows| ==> rows[i] == rows[1..][i - 1]; Ok([row] + rest)
  }

  /** `_format_table(data)`. */
  function FormatTable(data: Json): Result<Rendering, Failure> {
    match data
    case JObj(d) =>
      Ok(Grid(["Key", "Value"], seq(|d|, i requires 0 <= i < |d| => [JStr(d[i].key), JStr(PyStr(d[i].val))])))
    case JArr(items) =>
      if items != [] && items[0].JObj? then
        var headers := Keys(items[0].fields);
        match RowCells(headers, items)
        case Ok(rows) => Ok(Grid(headers, rows))
        case Err(e) => Err(e)
      else Ok(Plain(PyStr(data)))
    case _ => Ok(Plain(PyStr(data)))
  }

  /** A dict gives one `[key, str(value)]` row per entry, in order, under `Key` and
      `Value`; the key column lists the dict's keys. */
  lemma DictTable(d: Dict)
    ensures var r := FormatTable(JObj(d));
      && r.Ok? && r.value.Grid? && r.value.headers == ["Key", "Value"] && |r.value.rows| == |d|
      && (forall i :: 0 <= i < |d| ==> r.value.rows[i] == [JStr(d[i].key), JStr(PyStr(d[i].val))])
      && seq(|d|, i requires 0 <= i < |d| => r.value.rows[i][0].s) == Keys(d)
  {
  }

  /** A non-empty list whose first element is a dict: headers are that dict's keys,
      every row has one cell per header holding `row.get(h, "")`, so missing keys give
      `""` and extra keys are dropped; a later element that is not a dict raises. */
  lemma ListTable(items: seq<Json>)
    requires items != [] && items[0].JObj?
    ensures var r := FormatTable(JArr(items));
      var headers := Keys(items[0].fields);
      && (r.Ok? <==> forall i :: 0 <= i < |items| ==> items[i].JObj?)
      && (r.Ok? ==> r.value.Grid? && r.value.headers == headers && |r.value.rows| == |items|)
      && (r.Ok? ==> forall i, j :: 0 <= i < |items| && 0 <= j < |headers| ==>
            |r.value.rows[i]| == |headers| &&
            (r.value.rows[i][j] == if headers[j] in Keys(items[i].fields)
               then Get(items[i].fields, headers[j]).value else JStr("")))
  {
  }

  /** With distinct keys, the first row's cells are exactly its own values. */
  lemma {:induction false} FirstRowIsItsValues(items: seq<Json>)
    requires items != [] && items[0].JObj? && UniqueKeys(items[0].fields)
    requires forall i :: 0 <= i < |items| ==> items[i].JObj?
    ensures FormatTable(JArr(items)).Ok?
    ensures FormatTable(JArr(items)).value.rows[0] == Values(items[0].fields)
  {
    var d := items[0].fields;
    var row := FormatTable(JArr(items)).value.rows[0];
    forall j | 0 <= j < |d|
      ensures row[j] == d[j].val
    {
      GetAt(d, j);
    }
  }

  /** Everything else, an empty list and a list not starting with a dict included,
      is `str(data)` with no table. */
  lemma PlainTable(data: Json)
    requires !data.JObj? && !(data.JArr? && data.items != [] && data.items[0].JObj?)
    ensures FormatTable(data) == Ok(Plain(PyStr(data)))
  {
  }

  /** `format_output(data)` for the formatter's `format_type`. */
  function FormatOutput(formatType: string, data: Json): (r: Result<Rendering, Failure>)
    ensures formatType == "json" ==> r == Ok(JsonText(data))
    ensures formatType == "yaml" ==> r == Ok(YamlText(data))
    ensures formatType == "table" ==> r == FormatTable(data)
    ensures formatType !in {"json", "yaml", "table"} ==> r == Ok(Plain(PyStr(data)))
  {
    if formatType == "json" then Ok(JsonText(data))
    else if formatType == "yaml" then Ok(YamlText(data))
    else if formatType == "table" then FormatTable(data)
    else Ok(Plain(PyStr(data)))
  }

  /** What `print_rich_table` builds: nothing for empty data, otherwise columns named
      by the first row's keys and, per row, `str` of its own values in its own order. */
  datatype RichTable = NoData | Table(columns: seq<string>, rows: seq<seq<string>>)

  const NoDataText: string := "No data to display"

  /** The rows of the rich table; the first element that is not a dict raises. */
  function RichRows(rows: seq<Json>): (r: Result<seq<seq<string>>, Failure>)
    ensures r.Ok? <==> forall i :: 0 <= i < |rows| ==> rows[i].JObj?
    ensures r.Ok? ==> |r.value| == |rows| && forall i :: 0 <= i < |rows| ==>
      var vs := Values(rows[i].fields);
      |r.value[i]| == |vs| && forall j :: 0 <= j < |vs| ==> r.value[i][j] == PyStr(vs[j])
    ensures r.Err? ==> exists i :: 0 <= i < |rows| && !rows[i].JObj? && r.error == NoAttribute(TypeName(rows[i]), "values")
  {
    if rows == [] then Ok([])
    else if !rows[0].JObj? then Err(NoAttribute(TypeName(rows[0]), "values"))
    else
      var d := rows[0].fields;
      var cells := seq(|d|, j requires 0 <= j < |d| => PyStr(d[j].val));
      assert forall i :: 1 <= i < |rows| ==> rows[i] == rows[1..][i - 1];
      match RichRows(rows[1..])
      case Err(e) => Err(e)
      case Ok(rest) => Ok([cells] + rest)
  }

  /** `print_rich_table(data)`: falsy data gives `NoData`; otherwise `data[0].keys()`
      names the columns, which needs a list whose first element is a dict. */
  function PrintRichTable(data: Json): (r: Result<RichTable, Failure>)
    ensures r == Ok(NoData) <==> !Truthy(data)
    ensures r.Ok? && r.value.Table? ==> (data.JArr? && data.items != [] && data.items[0].JObj?
      && r.value.columns == Keys(data.items[0].fields) && |r.value.rows| == |data.items|)
  {
    if !Truthy(data) then Ok(NoData)
    else match data
      case JArr(items) =>
        if !items[0].JObj? then Err(NoAttribute(TypeName(items[0]), "keys"))
        else (match RichRows(items)
          case Ok(rows) => Ok(Table(Keys(items[0].fields), rows))
          case Err(e) => Err(e))
      case JObj(_) => Err(MissingKey)
      case JStr(_) => Err(NoAttribute("str", "keys"))
      case _ => Err(NotSubscriptable(TypeName(data)))
  }

  /** A one-row table draws exactly when its row is a dict, with the row's keys as
      columns; any other row has no `.keys()`. */
  lemma OneRowTable(row: Json)
    ensures row.JObj? ==>
      && PrintRichTable(JArr([row])).Ok? && PrintRichTable(JArr([row])).value.Table?
      && PrintRichTable(JArr([row])).value.columns == Keys(row.fields)
    ensures !row.JObj? ==> PrintRichTable(JArr([row])) == Err(NoAttribute(TypeName(row), "keys"))
  {
    if row.JObj? {
      assert RichRows([row]).Ok?;
    }
  }

  /** The four message helpers. */
  datatype Level = Success | Error | Warning | Info

  function Marker(level: Level): string {
    match level
    case Success => "✅ "
    case Error => "❌ "
    case Warning => "\U{26A0}\U{FE0F}  "
    case Info => "\U{2139}\U{FE0F}  "
  }

  /** The line `print_success`/`print_error`/`print_warning`/`print_info` show. */
  function Message(level: Level, text: string): string {
    Marker(level) + text
  }

  /** The level and text a shown message line came from, if it carries a marker. */
  function ReadMessage(line: string): (r: Option<(Level, string)>)
    ensures r.Some? ==> Message(r.value.0, r.value.1) == line
  {
    if |line| >= 2 && line[..2] == Marker(Success) then Some((Success, line[2..]))
    else if |line| >= 2 && line[..2] == Marker(Error) then Some((Error, line[2..]))
    else if |line| >= 4 && line[..4] == Marker(Warning) then Some((Warning, line[4..]))
    else if |line| >= 4 && line[..4] == Marker(Info) then Some((Info, line[4..]))
    else None
  }

  /** The markers tell the levels apart: a message line gives back its level and text. */
  lemma MessageRoundTrip(level: Level, text: string)
    ensures ReadMessage(Message(level, text)) == Some((level, text))
  {
    var line := Message(level, text);
    assert line[..|Marker(level)|] == Marker(level);
    assert line[|Marker(level)|..] == text;
    assert line[0] == Marker(level)[0];
    assert line[..2][0] == line[0];
    assert |line| >= 4 ==> line[..4][0] == line[0];
  }
}
