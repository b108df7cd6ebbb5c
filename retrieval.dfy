/** The `retrieval` commands: a question sent to `/api/v1/retrieval`, and the chunks
    of the answer shown as a table, one simplified row per chunk. */
module Retrieval {
  import opened Wrappers
  import opened Json
  import Text
  import Api
  import Output
  import opened Commands

  const Endpoint: string := "/api/v1/retrieval"
  /** What every `except` of these commands puts before the exception. */
  const Prefix: string := "检索失败: "

  /** The click defaults of `--top-k`. */
  const SearchTopK: int := 10
  const DatasetTopK: int := 5
  const DocumentTopK: int := 3

  // ---------------------------------------------------------------- payloads

  /** The body of `retrieval search`: question, dataset ids and `top_k`, then
      `document_ids` when the option is non-empty, each threshold that was given,
      and `highlight` when the flag is set. A float option is its `repr` text. */
  function SearchPayload(question: string, datasetIds: seq<string>, documentIds: Option<string>, topK: Option<int>,
                         threshold: Option<string>, weight: Option<string>, highlight: bool): Dict
  {
    [Field("question", JStr(question)), Field("dataset_ids", Strings(datasetIds)),
     Field("top_k", JInt(topK.GetOr(SearchTopK)))]
    + (if documentIds.Some? && documentIds.value != ""
       then [Field("document_ids", Strings(SplitStripped(documentIds.value)))] else [])
    + (if threshold.Some? then [Field("similarity_threshold", JFloat(threshold.value))] else [])
    + (if weight.Some? then [Field("vector_similarity_weight", JFloat(weight.value))] else [])
    + (if highlight then [Field("highlight", JBool(true))] else [])
  }

  /** The five pieces of the `retrieval search` body. */
  function SearchPieces(question: string, datasetIds: seq<string>, documentIds: Option<string>, topK: Option<int>,
                        threshold: Option<string>, weight: Option<string>, highlight: bool): (r: seq<Dict>)
    ensures |r| == 5
    ensures SearchPayload(question, datasetIds, documentIds, topK, threshold, weight, highlight) == r[0] + r[1] + r[2] + r[3] + r[4]
    ensures Keys(r[0]) == ["question", "dataset_ids", "top_k"]
    ensures Keys(r[1]) == if documentIds.Some? && documentIds.value != "" then ["document_ids"] else []
    ensures Keys(r[2]) == if threshold.Some? then ["similarity_threshold"] else []
    ensures Keys(r[3]) == if weight.Some? then ["vector_similarity_weight"] else []
    ensures Keys(r[4]) == if highlight then ["highlight"] else []
    ensures documentIds.Some? && documentIds.value != "" ==>
      r[1] == [Field("document_ids", Strings(SplitStripped(documentIds.value)))]
    ensures threshold.Some? ==> r[2] == [Field("similarity_threshold", JFloat(threshold.value))]
    ensures weight.Some? ==> r[3] == [Field("vector_similarity_weight", JFloat(weight.value))]
    ensures highlight ==> r[4] == [Field("highlight", JBool(true))]
  {
    [[Field("question", JStr(question)), Field("dataset_ids", Strings(datasetIds)),
      Field("top_k", JInt(topK.GetOr(SearchTopK)))],
     if documentIds.Some? && documentIds.value != ""
     then [Field("document_ids", Strings(SplitStripped(documentIds.value)))] else [],
     if threshold.Some? then [Field("similarity_threshold", JFloat(threshold.value))] else [],
     if weight.Some? then [Field("vector_similarity_weight", JFloat(weight.value))] else [],
     if highlight then [Field("highlight", JBool(true))] else []]
  }

  /** The three fields every `retrieval search` body has; `top_k` defaults to 10. */
  lemma SearchPayloadBase(question: string, datasetIds: seq<string>, documentIds: Option<string>, topK: Option<int>,
                          threshold: Option<string>, weight: Option<string>, highlight: bool)
    ensures var d := SearchPayload(question, datasetIds, documentIds, topK, threshold, weight, highlight);
      && Get(d, "question") == Some(JStr(question))
      && Get(d, "dataset_ids") == Some(Strings(datasetIds))
      && Get(d, "top_k") == Some(JInt(if topK.Some? then topK.value else SearchTopK))
  {
    var p := SearchPieces(question, datasetIds, documentIds, topK, threshold, weight, highlight);
    assert Keys(p[0]) == ["question", "dataset_ids", "top_k"];
    assert UniqueKeys(p[0]);
    GetAt(p[0], 0);
    GetAt(p[0], 1);
    GetAt(p[0], 2);
    GetPieces(p[0], p[1], p[2], p[3], p[4], "question");
    GetPieces(p[0], p[1], p[2], p[3], p[4], "dataset_ids");
    GetPieces(p[0], p[1], p[2], p[3], p[4], "top_k");
  }

  /** `document_ids` is sent exactly when the option is non-empty, as its stripped
      comma-separated pieces. */
  lemma SearchPayloadDocuments(question: string, datasetIds: seq<string>, documentIds: Option<string>, topK: Option<int>,
                               threshold: Option<string>, weight: Option<string>, highlight: bool)
    ensures var d := SearchPayload(question, datasetIds, documentIds, topK, threshold, weight, highlight);
      && (Get(d, "document_ids").Some? <==> documentIds.Some? && documentIds.value != "")
      && (documentIds.Some? && documentIds.value != "" ==>
            Get(d, "document_ids") == Some(Strings(SplitStripped(documentIds.value))))
  {
    var p := SearchPieces(question, datasetIds, documentIds, topK, threshold, weight, highlight);
    GetPieces(p[0], p[1], p[2], p[3], p[4], "document_ids");
  }

  /** Each threshold is sent exactly when it is given, zero included, and the
      `highlight` flag only when it is set. */
  lemma SearchPayloadOptions(question: string, datasetIds: seq<string>, documentIds: Option<string>, topK: Option<int>,
                             threshold: Option<string>, weight: Option<string>, highlight: bool)
    ensures var d := SearchPayload(question, datasetIds, documentIds, topK, threshold, weight, highlight);
      && Get(d, "similarity_threshold") == (if threshold.Some? then Some(JFloat(threshold.value)) else None)
      && Get(d, "vector_similarity_weight") == (if weight.Some? then Some(JFloat(weight.value)) else None)
      && Get(d, "highlight") == (if highlight then Some(JBool(true)) else None)
  {
    var p := SearchPieces(question, datasetIds, documentIds, topK, threshold, weight, highlight);
    GetPieces(p[0], p[1], p[2], p[3], p[4], "similarity_threshold");
    GetPieces(p[0], p[1], p[2], p[3], p[4], "vector_similarity_weight");
    GetPieces(p[0], p[1], p[2], p[3], p[4], "highlight");
  }

  /** `get` on a dict written in five pieces. */
  lemma GetPieces(p0: Dict, p1: Dict, p2: Dict, p3: Dict, p4: Dict, k: string)
    ensures Get(p0 + p1 + p2 + p3 + p4, k)
      == if k in Keys(p0) then Get(p0, k) else if k in Keys(p1) then Get(p1, k) else if k in Keys(p2) then Get(p2, k)
         else if k in Keys(p3) then Get(p3, k) else Get(p4, k)
  {
    GetConcat(p0 + p1 + p2 + p3, p4, k);
    GetConcat(p0 + p1 + p2, p3, k);
    GetConcat(p0 + p1, p2, k);
    GetConcat(p0, p1, k);
    KeysAppend(p0, p1);
    KeysAppend(p0 + p1, p2);
    KeysAppend(p0 + p1 + p2, p3);
  }

  /** `search_data` as `retrieval search` fills it in, key by key. */
  method BuildSearchPayload(question: string, datasetIds: seq<string>, documentIds: Option<string>, topK: Option<int>,
                            threshold: Option<string>, weight: Option<string>, highlight: bool) returns (d: Dict)
    ensures d == SearchPayload(question, datasetIds, documentIds, topK, threshold, weight, highlight)
  {
    ghost var p := SearchPieces(question, datasetIds, documentIds, topK, threshold, weight, highlight);
    d := [Field("question", JStr(question)), Field("dataset_ids", Strings(datasetIds)),
          Field("top_k", JInt(topK.GetOr(SearchTopK)))];
    assert d == p[0];
    if documentIds.Some? && documentIds.value != "" {
      d := AssignNew(d, "document_ids", Strings(SplitStripped(documentIds.value)));
    }
    assert d == p[0] + p[1];
    if threshold.Some? {
      d := AssignNew(d, "similarity_threshold", JFloat(threshold.value));
    }
    assert d == p[0] + p[1] + p[2];
    if weight.Some? {
      d := AssignNew(d, "vector_similarity_weight", JFloat(weight.value));
    }
    assert d == p[0] + p[1] + p[2] + p[3];
    if highlight {
      d := AssignNew(d, "highlight", JBool(true));
    }
  }

  /** The body of `retrieval search-single-dataset`. */
  function DatasetPayload(question: string, datasetId: string, topK: Option<int>): Dict {
    [Field("question", JStr(question)), Field("dataset_ids", Strings([datasetId])),
     Field("top_k", JInt(topK.GetOr(DatasetTopK)))]
  }

  /** The body of `retrieval search-single-document`. */
  function DocumentPayload(question: string, datasetId: string, documentId: string, topK: Option<int>): Dict {
    [Field("question", JStr(question)), Field("dataset_ids", Strings([datasetId])),
     Field("document_ids", Strings([documentId])), Field("top_k", JInt(topK.GetOr(DocumentTopK)))]
  }

  // ---------------------------------------------------------------- rows

  /** `format(float(t), '.4f')` for the float whose `repr` is `t`; decimal rounding of
      binary floats is taken as given. */
  type FloatFormat = string -> string

  function Pow2(k: nat): (r: nat)
    ensures r >= 1
  {
    if k == 0 then 1 else 2 * Pow2(k - 1)
  }

  lemma {:induction false} Pow2Above(k: nat)
    ensures Pow2(k) > k
  {
    if k > 0 {
      Pow2Above(k - 1);
    }
  }

  lemma {:induction false} Pow2Add(i: nat, j: nat)
    ensures Pow2(i + j) == Pow2(i) * Pow2(j)
  {
    if i > 0 {
      Pow2Add(i - 1, j);
      assert Pow2(i + j) == 2 * Pow2(i - 1 + j);
    }
  }

  lemma Pow2Monotone(i: nat, j: nat)
    requires i <= j
    ensures Pow2(i) <= Pow2(j)
  {
    Pow2Add(i, j - i);
    assert Pow2(j) == Pow2(i) * Pow2(j - i);
  }

  /** The significand of a double holds 53 bits: every integer up to `2^53` is a double. */
  const Significand: int := 0x20_0000_0000_0000
  /** `2^1024`, the least magnitude a double cannot take: `float` overflows from here on. */
  const FloatLimit: int := 0x1_0000_0000_0000_0000_0000_0000_0000_0000_0000_0000_0000_0000_0000_0000_0000_0000_0000_0000_0000_0000_0000_0000_0000_0000_0000_0000_0000_0000_0000_0000_0000_0000_0000_0000_0000_0000_0000_0000_0000_0000_0000_0000_0000_0000_0000_0000_0000_0000_0000_0000_0000_0000_0000_0000_0000_0000_0000_0000_0000_0000_0000_0000_0000_0000

  /** The least `k` from `from` on with `a < 2^53 * 2^k`: converting `a` to a double
      rounds off its `k` lowest bits. */
  function Scale(a: nat, from: nat): (k: nat)
    ensures from <= k && a < Significand * Pow2(k)
    ensures k > from ==> Significand * Pow2(k - 1) <= a
    decreases a - from
  {
    if a < Significand * Pow2(from) then from
    else
      Pow2Above(from);
      assert Significand * Pow2(from) >= Pow2(from);
      Scale(a, from + 1)
  }

  /** `a` rounded to a multiple of `unit`, a tie going to the even multiple. */
  function RoundToUnit(a: nat, unit: nat): nat
    requires unit > 0
  {
    var q, rest := a / unit, a % unit;
    if 2 * rest > unit || (2 * rest == unit && q % 2 == 1) then (q + 1) * unit else q * unit
  }

  /** `float(n)` for an int: the double nearest to `n`, a tie going to the even
      significand, as an integer; `None` when that double would be too large
      (OverflowError). */
  function IntToFloat(n: int): Option<int> {
    var a := if n < 0 then -n else n;
    var m: int := RoundToUnit(a, Pow2(Scale(a, 0)));
    if m >= FloatLimit then None else Some(if n < 0 then -m else m)
  }

  /** The numeral `FloatLimit` is `2^1024`, by doubling the exponent. */
  lemma FloatLimitPow2()
    ensures Pow2(1024) == FloatLimit
  {
    assert Pow2(1) == 2;
    Pow2Add(1, 1);
    assert Pow2(2) == 0x4;
    Pow2Add(2, 2);
    assert Pow2(4) == 0x10;
    Pow2Add(4, 4);
    assert Pow2(8) == 0x100;
    Pow2Add(8, 8);
    assert Pow2(16) == 0x1_0000;
    Pow2Add(16, 16);
    assert Pow2(32) == 0x1_0000_0000;
    Pow2Add(32, 32);
    assert Pow2(64) == 0x1_0000_0000_0000_0000;
    Pow2Add(64, 64);
    assert Pow2(128) == 0x1_0000_0000_0000_0000_0000_0000_0000_0000;
    Pow2Add(128, 128);
    assert Pow2(256) == 0x1_0000_0000_0000_0000_0000_0000_0000_0000_0000_0000_0000_0000_0000_0000_0000_0000;
    Pow2Add(256, 256);
    assert Pow2(512) == 0x1_0000_0000_0000_0000_0000_0000_0000_0000_0000_0000_0000_0000_0000_0000_0000_0000_0000_0000_0000_0000_0000_0000_0000_0000_0000_0000_0000_0000_0000_0000_0000_0000;
    Pow2Add(512, 512);
    assert Pow2(1024) == 0x1_0000_0000_0000_0000_0000_0000_0000_0000_0000_0000_0000_0000_0000_0000_0000_0000_0000_0000_0000_0000_0000_0000_0000_0000_0000_0000_0000_0000_0000_0000_0000_0000_0000_0000_0000_0000_0000_0000_0000_0000_0000_0000_0000_0000_0000_0000_0000_0000_0000_0000_0000_0000_0000_0000_0000_0000_0000_0000_0000_0000_0000_0000_0000_0000;
  }

  /** Every int of magnitude up to `2^53` converts exactly. */
  lemma ExactIntFloat(n: int)
    ensures -Significand <= n <= Significand ==> IntToFloat(n) == Some(n)
  {
    if -Significand <= n <= Significand {
      var a := if n < 0 then -n else n;
      assert RoundToUnit(a, Pow2(Scale(a, 0))) == a by {
        if a < Significand {
          assert Pow2(0) == 1;
          assert Scale(a, 0) == 0;
          assert a / 1 == a && a % 1 == 0;
        } else {
          assert Pow2(1) == 2;
          assert Scale(a, 0) == 1;
          assert a / 2 == 0x10_0000_0000_0000 && a % 2 == 0;
        }
      }
    }
  }

  /** Above `2^53` ints lose digits: `2^53 + 1` lies halfway between two doubles and
      goes to the even one, `2^53`. */
  lemma RoundsHalfToEven()
    ensures IntToFloat(Significand + 1) == Some(Significand)
  {
    var a := Significand + 1;
    assert Pow2(1) == 2;
    assert Scale(a, 0) == 1;
    assert a / 2 == 0x10_0000_0000_0000 && a % 2 == 1;
  }

  /** A positive factor keeps a strict order between products. */
  lemma MulLess(u: int, c: int, d: int)
    requires u > 0 && u * c < u * d
    ensures c < d
  {
    assert u * (d - c) == u * d - u * c;
  }

  /** `a / u` is at least `c` when `a` is at least `u * c`. */
  lemma DivLower(a: nat, u: nat, c: nat)
    requires u > 0 && a >= u * c
    ensures a / u >= c
  {
    var q, r := a / u, a % u;
    assert a == u * q + r && r < u;
    assert u * (q + 1) == u * q + u;
    MulLess(u, c, q + 1);
  }

  /** Rounding to a multiple of `unit` never goes below the multiple by truncation. */
  lemma RoundAtLeast(a: nat, unit: nat)
    requires unit > 0
    ensures RoundToUnit(a, unit) >= (a / unit) * unit
  {
    assert (a / unit + 1) * unit == (a / unit) * unit + unit;
  }

  /** A larger factor gives a larger product. */
  lemma MulMonotone(u: nat, x: nat, y: nat)
    requires x <= y
    ensures x * u <= y * u
  {
    assert y * u == x * u + (y - x) * u;
  }

  /** An int of magnitude `2^1024` or more has no double: the conversion overflows. */
  lemma IntFloatOverflow(n: int)
    requires n >= FloatLimit || -n >= FloatLimit
    ensures IntToFloat(n).None?
  {
    var a := if n < 0 then -n else n;
    var k := Scale(a, 0);
    var unit := Pow2(k);
    var q := a / unit;
    var m := RoundToUnit(a, unit);
    FloatLimitPow2();
    RoundAtLeast(a, unit);
    assert m >= q * unit;
    if k <= 1024 {
      var c := Pow2(1024 - k);
      Pow2Add(k, 1024 - k);
      assert FloatLimit == unit * c;
      DivLower(a, unit, c);
      MulMonotone(unit, c, q);
      assert q * unit >= FloatLimit;
    } else {
      Pow2Add(1, k - 1);
      assert unit == 2 * Pow2(k - 1);
      DivLower(a, unit, 1);
      MulMonotone(unit, 1, q);
      Pow2Monotone(1024, k);
      assert q * unit >= FloatLimit;
    }
    assert m >= FloatLimit;
  }

  /** `f"{x:.4f}"`: an int or bool goes through `float` first and prints the digits
      of that double with four zero decimals; a float prints by `fixed`; any other
      value refuses the format spec. */
  function Fixed4(x: Json, fixed: FloatFormat): (r: Result<string, Failure>)
    ensures r.Ok? <==> x.JBool? || x.JFloat? || (x.JInt? && IntToFloat(x.i).Some?)
    ensures x.JInt? && -Significand <= x.i <= Significand ==> r == Ok(Text.IntToDecimal(x.i) + ".0000")
  {
    match x
    case JInt(n) =>
      ExactIntFloat(n);
      (match IntToFloat(n)
       case None => Err(FloatOverflow)
       case Some(m) => Ok(Text.IntToDecimal(m) + ".0000"))
    case JBool(b) => Ok(if b then "1.0000" else "0.0000")
    case JFloat(t) => Ok(fixed(t))
    case _ => Err(BadOperand(TypeName(x)))
  }

  /** Above `2^53` the printed digits are the double's, not the int's, and from
      `2^1024` on the format raises. */
  lemma Fixed4LargeInts(fixed: FloatFormat, n: int)
    requires n >= FloatLimit
    ensures Fixed4(JInt(Significand + 1), fixed) == Ok(Text.IntToDecimal(Significand) + ".0000")
    ensures Fixed4(JInt(n), fixed) == Err(FloatOverflow)
  {
    RoundsHalfToEven();
    IntFloatOverflow(n);
  }

  /** A chunk without a similarity shows `0.0000`. */
  lemma MissingSimilarity(chunk: Dict, fixed: FloatFormat)
    requires "similarity" !in Keys(chunk)
    ensures Fixed4(GetOr(chunk, "similarity", JInt(0)), fixed) == Ok("0.0000")
  {
    assert Get(chunk, "similarity").None?;
    assert Text.DigitChar(0) == '0';
    assert Text.IntToDecimal(0) == "0";
    var t := "0" + ".0000";
    assert |t| == 6 && t[0] == '0' && t[1] == '.' && t[2] == '0' && t[3] == '0' && t[4] == '0' && t[5] == '0';
    assert t == "0.0000";
  }

  /** `c[:limit] + '...' if len(c) > limit else c`: a long string is cut to `limit`
      characters followed by an ellipsis, a short one is kept. `len` of a scalar
      raises, a long list cannot be added to a string, and a long dict cannot be
      sliced. */
  function Preview(content: Json, limit: nat): (r: Result<Json, Failure>)
    ensures r.Ok? <==> content.JStr? || (content.JArr? && |content.items| <= limit)
                                    || (content.JObj? && |content.fields| <= limit)
    ensures r.Ok? && (!content.JStr? || |content.s| <= limit) ==> r.value == content
    ensures content.JStr? ==> r.value.JStr? && |r.value.s| <= limit + 3
    ensures content.JStr? && |content.s| > limit ==>
      |r.value.s| == limit + 3 && r.value.s[..limit] == content.s[..limit] && r.value.s[limit..] == "..."
  {
    match content
    case JStr(s) => if |s| > limit then Ok(JStr(s[..limit] + "...")) else Ok(content)
    case JArr(items) => if |items| > limit then Err(BadOperand("list")) else Ok(content)
    case JObj(fs) => if |fs| > limit then Err(Unsubscriptable("dict")) else Ok(content)
    case _ => Err(Unsubscriptable(TypeName(content)))
  }

  /** A preview of a preview is the same preview. */
  lemma PreviewIdempotent(s: string, limit: nat)
    ensures Preview(Preview(JStr(s), limit).value, limit) == Preview(JStr(s), limit)
  {
    if |s| > limit {
      var p := s[..limit] + "...";
      assert p[..limit] == s[..limit];
      assert p[..limit] + "..." == p;
    }
  }

  /** Which command shows the chunks: each has its columns, title and warning. */
  datatype View = AllDatasets | OneDataset(datasetId: string) | OneDocument(documentId: string)

  /** The columns copied from the chunk, with `''` for a missing one. */
  function CopiedKeys(view: View): seq<string> {
    match view
    case AllDatasets => ["id", "dataset_id", "document_id"]
    case OneDataset(_) => ["id", "document_id"]
    case OneDocument(_) => ["id"]
  }

  function ContentKey(view: View): string {
    if view.OneDocument? then "content" else "content_preview"
  }

  /** The columns of a row: the copied ones, the similarity and the content. */
  function Columns(view: View): seq<string> {
    CopiedKeys(view) + ["similarity", ContentKey(view)]
  }

  /** The content cell: a preview of 100 or 150 characters, or the whole content. */
  function ContentCell(view: View, chunk: Dict): Result<Json, Failure> {
    var content := GetOr(chunk, "content", JStr(""));
    match view
    case AllDatasets => Preview(content, 100)
    case OneDataset(_) => Preview(content, 150)
    case OneDocument(_) => Ok(content)
  }

  /** The simplified row of one chunk, cell by cell in the order the dict literal
      evaluates them: a chunk that is not a dict has no `.get`, then the similarity
      is formatted, then the content is cut. */
  function ChunkRow(view: View, chunk: Json, fixed: FloatFormat): (r: Result<Dict, Failure>)
    ensures r.Ok? <==> chunk.JObj? && Fixed4(GetOr(chunk.fields, "similarity", JInt(0)), fixed).Ok?
                                   && ContentCell(view, chunk.fields).Ok?
    ensures !chunk.JObj? ==> r == Err(NoAttribute(TypeName(chunk), "get"))
    ensures r.Ok? ==> Keys(r.value) == Columns(view)
  {
    if !chunk.JObj? then Err(NoAttribute(TypeName(chunk), "get"))
    else
      var ks := CopiedKeys(view);
      var copied := seq(|ks|, i requires 0 <= i < |ks| => Field(ks[i], GetOr(chunk.fields, ks[i], JStr(""))));
      match Fixed4(GetOr(chunk.fields, "similarity", JInt(0)), fixed)
      case Err(e) => Err(e)
      case Ok(similarity) =>
        match ContentCell(view, chunk.fields)
        case Err(e) => Err(e)
        case Ok(content) => Ok(copied + [Field("similarity", JStr(similarity)), Field(ContentKey(view), content)])
  }

  /** The cells of a row: the copied values (`''` when missing), the formatted
      similarity and the content cell. */
  lemma ChunkRowCells(view: View, chunk: Dict, fixed: FloatFormat)
    requires ChunkRow(view, JObj(chunk), fixed).Ok?
    ensures var row := ChunkRow(view, JObj(chunk), fixed).value;
      && (forall i :: 0 <= i < |CopiedKeys(view)| ==> row[i].val == GetOr(chunk, CopiedKeys(view)[i], JStr("")))
      && row[|CopiedKeys(view)|].val == JStr(Fixed4(GetOr(chunk, "similarity", JInt(0)), fixed).value)
      && row[|CopiedKeys(view)| + 1].val == ContentCell(view, chunk).value
  {
  }

  /** The rows of `simplified_chunks`, one per chunk in order; the first chunk whose
      row raises stops the loop with its exception. */
  function ChunkRows(view: View, chunks: seq<Json>, fixed: FloatFormat): (r: Result<seq<Json>, Failure>)
    ensures r.Ok? <==> forall i :: 0 <= i < |chunks| ==> ChunkRow(view, chunks[i], fixed).Ok?
    ensures r.Ok? ==> (|r.value| == |chunks| &&
      forall i :: 0 <= i < |chunks| ==> r.value[i] == JObj(ChunkRow(view, chunks[i], fixed).value))
  {
    if chunks == [] then Ok([])
    else
      assert forall i :: 1 <= i < |chunks| ==> chunks[i] == chunks[1..][i - 1];
      match ChunkRow(view, chunks[0], fixed)
      case Err(e) => Err(e)
      case Ok(row) =>
        match ChunkRows(view, chunks[1..], fixed)
        case Err(e) => Err(e)
        case Ok(rest) => Ok([JObj(row)] + rest)
  }

  /** When the rows of the first `i` chunks are built and the next one raises, the
      loop stops with that exception. */
  lemma {:induction false} ChunkRowsFirstFailure(view: View, chunks: seq<Json>, fixed: FloatFormat, i: nat)
    requires i < |chunks| && ChunkRow(view, chunks[i], fixed).Err?
    requires forall j :: 0 <= j < i ==> ChunkRow(view, chunks[j], fixed).Ok?
    ensures ChunkRows(view, chunks, fixed) == Err(ChunkRow(view, chunks[i], fixed).error)
  {
    if i > 0 {
      var tail := chunks[1..];
      assert tail[i - 1] == chunks[i];
      forall j | 0 <= j < i - 1 ensures ChunkRow(view, tail[j], fixed).Ok? {
        assert tail[j] == chunks[j + 1];
      }
      ChunkRowsFirstFailure(view, tail, fixed, i - 1);
      assert ChunkRow(view, chunks[0], fixed).Ok?;
    }
  }

  /** The `for chunk in chunks` loop of the three commands. */
  method SimplifyChunks(view: View, chunks: seq<Json>, fixed: FloatFormat) returns (r: Result<seq<Json>, Failure>)
    ensures r == ChunkRows(view, chunks, fixed)
  {
    ghost var rowOf := (c: Json) => ChunkRow(view, c, fixed);
    var simplified: seq<Json> := [];
    var i := 0;
    while i < |chunks|
      invariant 0 <= i <= |chunks| && RowsBuilt(rowOf, chunks, simplified) && |simplified| == i
    {
      var row := ChunkRow(view, chunks[i], fixed);
      if row.Err? {
        ChunkRowsFirstFailure(view, chunks, fixed, i);
        return Err(row.error);
      }
      RowsBuiltNext(rowOf, chunks, simplified);
      simplified := simplified + [JObj(row.value)];
      i := i + 1;
    }
    ChunkRowsAll(view, chunks, fixed, simplified);
    r := Ok(simplified);
  }

  /** `rows` holds the rows `rowOf` builds for the first `|rows|` chunks, each of
      which was built. */
  predicate RowsBuilt(rowOf: Json -> Result<Dict, Failure>, chunks: seq<Json>, rows: seq<Json>) {
    |rows| <= |chunks| &&
    forall k :: 0 <= k < |rows| ==> rowOf(chunks[k]).Ok? && rows[k] == JObj(rowOf(chunks[k]).value)
  }

  /** One more row built extends the rows built so far. */
  lemma RowsBuiltNext(rowOf: Json -> Result<Dict, Failure>, chunks: seq<Json>, rows: seq<Json>)
    requires RowsBuilt(rowOf, chunks, rows) && |rows| < |chunks| && rowOf(chunks[|rows|]).Ok?
    ensures RowsBuilt(rowOf, chunks, rows + [JObj(rowOf(chunks[|rows|]).value)])
  {
    var next := rows + [JObj(rowOf(chunks[|rows|]).value)];
    assert forall k :: 0 <= k < |rows| ==> next[k] == rows[k];
  }

  /** Rows built for every chunk are the rows of the whole list. */
  lemma ChunkRowsAll(view: View, chunks: seq<Json>, fixed: FloatFormat, rows: seq<Json>)
    requires |rows| == |chunks|
    requires forall k :: 0 <= k < |chunks| ==>
      ChunkRow(view, chunks[k], fixed).Ok? && rows[k] == JObj(ChunkRow(view, chunks[k], fixed).value)
    ensures ChunkRows(view, chunks, fixed) == Ok(rows)
  {
    var r := ChunkRows(view, chunks, fixed);
    assert r.Ok?;
    assert r.value == rows;
  }

  // ---------------------------------------------------------------- commands

  function Title(view: View, count: nat): string {
    match view
    case AllDatasets => "检索结果 (共 " + Text.IntToDecimal(count) + " 个块)"
    case OneDataset(id) => "数据集 " + id + " 检索结果"
    case OneDocument(id) => "文档 " + id + " 检索结果"
  }

  function NothingFound(view: View): string {
    match view
    case AllDatasets => "未找到匹配的文档块"
    case OneDataset(id) => "在数据集 " + id + " 中未找到匹配的文档块"
    case OneDocument(id) => "在文档 " + id + " 中未找到匹配的块"
  }

  /** What a command shows for the answer `response`: in table mode the chunks under
      `chunks` (an answer that is not a dict has no `.get`), a warning when there are
      none; in any other mode the formatted answer. */
  function Shown(view: View, format: string, response: Json, fixed: FloatFormat): seq<Display> {
    if format != "table" then [Formatted(format, response)]
    else match Lookup(response, "chunks", JArr([]))
      case Err(e) => [Crash(Output.Error, Prefix, e)]
      case Ok(chunks) =>
        if !Truthy(chunks) then [Note(Output.Warning, NothingFound(view))]
        else match Iterate(chunks)
          case None => [Crash(Output.Error, Prefix, NotIterable(TypeName(chunks)))]
          case Some(items) =>
            match ChunkRows(view, items, fixed)
            case Err(e) => [Crash(Output.Error, Prefix, e)]
            case Ok(rows) => ShowTable(JArr(rows), Title(view, |items|), Prefix)
  }

  /** A retrieval command: build the client, post the payload once, show the answer;
      every exception is reported after `Prefix`. */
  function Retrieve(config: Json, view: View, payload: Dict, format: string, fixed: FloatFormat, client: Client)
    : (seq<Display>, seq<Call>)
  {
    match Api.Build(config)
    case Err(e) => ([Crash(Output.Error, Prefix, SetupRaised(e))], [])
    case Ok(_) =>
      var call := PostCall(Endpoint, Some(JObj(payload)));
      match client(0, call)
      case Raised(f) => ([Crash(Output.Error, Prefix, ClientFailed(f))], [call])
      case Done(response) => (Shown(view, format, response, fixed), [call])
  }

  function Search(config: Json, question: string, datasetIds: seq<string>, documentIds: Option<string>,
                  topK: Option<int>, threshold: Option<string>, weight: Option<string>, highlight: bool,
                  format: string, fixed: FloatFormat, client: Client): (seq<Display>, seq<Call>)
  {
    Retrieve(config, AllDatasets, SearchPayload(question, datasetIds, documentIds, topK, threshold, weight, highlight),
             format, fixed, client)
  }

  function SearchSingleDataset(config: Json, question: string, datasetId: string, topK: Option<int>,
                               format: string, fixed: FloatFormat, client: Client): (seq<Display>, seq<Call>)
  {
    Retrieve(config, OneDataset(datasetId), DatasetPayload(question, datasetId, topK), format, fixed, client)
  }

  function SearchSingleDocument(config: Json, question: string, datasetId: string, documentId: string,
                                topK: Option<int>, format: string, fixed: FloatFormat, client: Client)
    : (seq<Display>, seq<Call>)
  {
    Retrieve(config, OneDocument(documentId), DocumentPayload(question, datasetId, documentId, topK),
             format, fixed, client)
  }

  // ---------------------------------------------------------------- properties

  /** A retrieval command makes no call when the client cannot be built, and
      otherwise exactly one POST of its payload; an exception of that call is the
      one thing shown, and outside table mode the answer is shown as it came. */
  lemma RetrieveCalls(config: Json, view: View, payload: Dict, format: string, fixed: FloatFormat, client: Client)
    ensures Api.Build(config).Err? <==> Retrieve(config, view, payload, format, fixed, client).1 == []
    ensures Api.Build(config).Ok? ==>
      Retrieve(config, view, payload, format, fixed, client).1 == [PostCall(Endpoint, Some(JObj(payload)))]
    ensures Api.Build(config).Ok? && client(0, PostCall(Endpoint, Some(JObj(payload)))).Raised? ==>
      Retrieve(config, view, payload, format, fixed, client).0
        == [Crash(Output.Error, Prefix, ClientFailed(client(0, PostCall(Endpoint, Some(JObj(payload)))).fault))]
    ensures Api.Build(config).Ok? && client(0, PostCall(Endpoint, Some(JObj(payload)))).Done? && format != "table" ==>
      Retrieve(config, view, payload, format, fixed, client).0
        == [Formatted(format, client(0, PostCall(Endpoint, Some(JObj(payload)))).value)]
  {
  }

  /** An answer without chunks (none listed, or an empty list) shows the warning and
      no table. */
  lemma NoChunksWarns(view: View, response: Dict, fixed: FloatFormat)
    requires Get(response, "chunks").None? || Get(response, "chunks") == Some(JArr([]))
    ensures Shown(view, "table", JObj(response), fixed) == [Note(Output.Warning, NothingFound(view))]
  {
  }

  /** When every chunk of a non-empty list can be simplified, the table has one row
      per chunk, every row with the command's columns, and the title counts the
      chunks. */
  lemma ChunksTable(view: View, response: Dict, items: seq<Json>, fixed: FloatFormat)
    requires Get(response, "chunks") == Some(JArr(items)) && items != []
    requires forall i :: 0 <= i < |items| ==> ChunkRow(view, items[i], fixed).Ok?
    ensures ChunkRows(view, items, fixed).Ok?
    ensures |ChunkRows(view, items, fixed).value| == |items|
    ensures forall i :: 0 <= i < |items| ==>
      ChunkRows(view, items, fixed).value[i].JObj? && Keys(ChunkRows(view, items, fixed).value[i].fields) == Columns(view)
    ensures Shown(view, "table", JObj(response), fixed)
      == ShowTable(JArr(ChunkRows(view, items, fixed).value), Title(view, |items|), Prefix)
  {
    var rows := ChunkRows(view, items, fixed);
    assert rows.Ok?;
    forall i | 0 <= i < |items|
      ensures rows.value[i].JObj? && Keys(rows.value[i].fields) == Columns(view)
    {
      assert rows.value[i] == JObj(ChunkRow(view, items[i], fixed).value);
    }
    assert Lookup(JObj(response), "chunks", JArr([])) == Ok(JArr(items));
    assert Truthy(JArr(items)) && Iterate(JArr(items)) == Some(items);
  }

  /** The three commands send the `top_k` given, or their own default. */
  lemma TopKDefaults(question: string, datasetIds: seq<string>, datasetId: string, documentId: string)
    ensures Get(SearchPayload(question, datasetIds, None, None, None, None, false), "top_k") == Some(JInt(10))
    ensures Get(DatasetPayload(question, datasetId, None), "top_k") == Some(JInt(5))
    ensures Get(DocumentPayload(question, datasetId, documentId, None), "top_k") == Some(JInt(3))
  {
    SearchPayloadBase(question, datasetIds, None, None, None, None, false);
    var one := DatasetPayload(question, datasetId, None);
    assert Keys(one) == ["question", "dataset_ids", "top_k"];
    assert UniqueKeys(one);
    GetAt(one, 2);
    var d := DocumentPayload(question, datasetId, documentId, None);
    assert Keys(d) == ["question", "dataset_ids", "document_ids", "top_k"];
    assert UniqueKeys(d);
    GetAt(d, 3);
  }

  /** The retrieval commands pass no `headers=`, so they behave the same with the
      client as written. */
  lemma RetrievalReachesServer(config: Json, view: View, payload: Dict, format: string, fixed: FloatFormat,
                               server: (nat, Call) -> Api.Reply)
    ensures Retrieve(config, view, payload, format, fixed, AsWritten(server))
         == Retrieve(config, view, payload, format, fixed, Corrected(server))
  {
    ClientsAgree(server, 0, PostCall(Endpoint, Some(JObj(payload))));
  }
}
