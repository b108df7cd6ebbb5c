/** Decoded JSON (and YAML) values as Python holds them after `json.loads` or
    `yaml.safe_load`, with the few Python operations the client applies to them:
    `dict.get`, `d[k] = v`, truthiness, `== <int>`, `str(...)` and iteration. */
module Json {
  import opened Wrappers
  import Text

  /** A Python value built from JSON. A dict is its ordered list of entries (Python
      dicts keep insertion order); a float is carried by its Python `repr` text
      (such as "0.5" or "100.0"), which is also what `str` prints for it. */
  datatype Json =
    | JNull
    | JBool(b: bool)
    | JInt(i: int)
    | JFloat(repr: string)
    | JStr(s: string)
    | JArr(items: seq<Json>)
    | JObj(fields: seq<Field>)

  datatype Field = Field(key: string, val: Json)

  type Dict = seq<Field>

  /** The keys of a dict, in order (`list(d.keys())`). */
  function Keys(d: Dict): (ks: seq<string>)
    ensures |ks| == |d|
    ensures forall i :: 0 <= i < |d| ==> ks[i] == d[i].key
  {
    seq(|d|, i requires 0 <= i < |d| => d[i].key)
  }

  /** The values of a dict, in order (`list(d.values())`). */
  function Values(d: Dict): (vs: seq<Json>)
    ensures |vs| == |d|
    ensures forall i :: 0 <= i < |d| ==> vs[i] == d[i].val
  {
    seq(|d|, i requires 0 <= i < |d| => d[i].val)
  }

  /** Python dicts never repeat a key. */
  predicate UniqueKeys(d: Dict) {
    forall i, j :: 0 <= i < j < |d| ==> d[i].key != d[j].key
  }

  /** `d.get(k)`: the value stored under `k`, if any. */
  function Get(d: Dict, k: string): (r: Option<Json>)
    ensures r.Some? <==> k in Keys(d)
  {
    if d == [] then None
    else if d[0].key == k then Some(d[0].val)
    else
      assert Keys(d) == [d[0].key] + Keys(d[1..]);
      Get(d[1..], k)
  }

  /** `d.get(k, default)`. */
  function GetOr(d: Dict, k: string, default: Json): Json {
    Get(d, k).GetOr(default)
  }

  /** In a dict with distinct keys, the entry at position `i` is what `get` finds. */
  lemma {:induction false} GetAt(d: Dict, i: nat)
    requires UniqueKeys(d) && i < |d|
    ensures Get(d, d[i].key) == Some(d[i].val)
  {
    if i > 0 {
      assert d[0].key != d[i].key;
      assert d[1..][i - 1] == d[i];
      GetAt(d[1..], i - 1);
    }
  }

  lemma KeysCons(f: Field, d: Dict)
    ensures Keys([f] + d) == [f.key] + Keys(d)
  {
  }

  lemma KeysAppend(a: Dict, b: Dict)
    ensures Keys(a + b) == Keys(a) + Keys(b)
  {
  }

  /** `get` on two dicts written one after the other finds the first one's entry first. */
  lemma {:induction false} GetConcat(a: Dict, b: Dict, k: string)
    ensures Get(a + b, k) == if k in Keys(a) then Get(a, k) else Get(b, k)
  {
    if a == [] {
      assert a + b == b;
    } else {
      assert (a + b)[0] == a[0];
      assert (a + b)[1..] == a[1..] + b;
      assert Keys(a) == [a[0].key] + Keys(a[1..]);
      if a[0].key != k {
        GetConcat(a[1..], b, k);
      }
    }
  }

  /** `d[k] = v`: an existing key keeps its position and takes the new value; a new
      key is appended. Every other key keeps its value. */
  function Put(d: Dict, k: string, v: Json): (r: Dict)
    ensures Get(r, k) == Some(v)
    ensures forall k' :: k' != k ==> Get(r, k') == Get(d, k')
  {
    if d == [] then [Field(k, v)]
    else if d[0].key == k then [Field(k, v)] + d[1..]
    else [d[0]] + Put(d[1..], k, v)
  }

  /** Assigning to a dict keeps the order of its keys and appends a key it did not have. */
  lemma {:induction false} PutKeys(d: Dict, k: string, v: Json)
    ensures Keys(Put(d, k, v)) == if k in Keys(d) then Keys(d) else Keys(d) + [k]
  {
    if d != [] {
      var head, tail := d[0], d[1..];
      if head.key == k {
        PutHit(d, k, v);
      } else {
        PutMiss(d, k, v);
        KeysFirst(d, k);
        PutKeys(tail, k, v);
        ConsKeys(head.key, Keys(tail), Keys(Put(tail, k, v)), k);
      }
    }
  }

  /** The shape of `PutKeys` carries over to a key written in front. */
  lemma ConsKeys(h: string, ks: seq<string>, rs: seq<string>, k: string)
    requires h != k && rs == if k in ks then ks else ks + [k]
    ensures [h] + rs == if k in [h] + ks then [h] + ks else ([h] + ks) + [k]
  {
    if k !in ks {
      assert [h] + (ks + [k]) == ([h] + ks) + [k];
    }
  }

  /** Assigning to the first key keeps the keys. */
  lemma PutHit(d: Dict, k: string, v: Json)
    requires d != [] && d[0].key == k
    ensures k in Keys(d) && Keys(Put(d, k, v)) == Keys(d)
  {
    assert Keys(d)[0] == k;
    var r := Put(d, k, v);
    assert r == [Field(k, v)] + d[1..];
    assert |Keys(r)| == |Keys(d)|;
    forall i | 0 <= i < |d| ensures Keys(r)[i] == Keys(d)[i] {
      if i > 0 {
        assert r[i] == d[i];
      }
    }
  }

  /** Assigning to a later key keeps the first in front. */
  lemma PutMiss(d: Dict, k: string, v: Json)
    requires d != [] && d[0].key != k
    ensures Keys(Put(d, k, v)) == [d[0].key] + Keys(Put(d[1..], k, v))
  {
    var rt := Put(d[1..], k, v);
    assert Put(d, k, v) == [d[0]] + rt;
    KeysCons(d[0], rt);
  }

  /** The keys of a non-empty dict are its first key followed by the rest. */
  lemma KeysFirst(d: Dict, k: string)
    requires d != [] && d[0].key != k
    ensures Keys(d) == [d[0].key] + Keys(d[1..])
    ensures k in Keys(d) <==> k in Keys(d[1..])
  {
    assert d == [d[0]] + d[1..];
    KeysCons(d[0], d[1..]);
  }

  /** Assigning a key the dict does not have appends it. */
  lemma {:induction false} PutNew(d: Dict, k: string, v: Json)
    requires k !in Keys(d)
    ensures Put(d, k, v) == d + [Field(k, v)]
  {
    if d != [] {
      KeysCons(d[0], d[1..]);
      assert d == [d[0]] + d[1..];
      PutNew(d[1..], k, v);
    }
  }

  /** `d[k] = v` as a statement, for a key the dict does not have yet. */
  method AssignNew(d: Dict, k: string, v: Json) returns (r: Dict)
    requires k !in Keys(d)
    ensures r == d + [Field(k, v)] && Keys(r) == Keys(d) + [k]
  {
    PutNew(d, k, v);
    KeysAppend(d, [Field(k, v)]);
    r := Put(d, k, v);
  }

  /** Assigning to a dict never repeats a key. */
  lemma PutUnique(d: Dict, k: string, v: Json)
    requires UniqueKeys(d)
    ensures UniqueKeys(Put(d, k, v))
  {
    var r := Put(d, k, v);
    var ks, kd := Keys(r), Keys(d);
    PutKeys(d, k, v);
    if k in kd {
      assert ks == kd;
      forall i, j | 0 <= i < j < |r| ensures r[i].key != r[j].key {
        assert r[i].key == ks[i] == d[i].key;
        assert r[j].key == ks[j] == d[j].key;
      }
    } else {
      assert ks == kd + [k];
      forall i, j | 0 <= i < j < |r| ensures r[i].key != r[j].key {
        assert r[i].key == ks[i] == d[i].key;
        if j < |d| {
          assert r[j].key == ks[j] == d[j].key;
        } else {
          assert r[j].key == ks[j] == k;
        }
      }
    }
  }

  /** Python truthiness: `None`, `False`, zero, and empty strings, lists and dicts are false. */
  predicate Truthy(v: Json) {
    match v
    case JNull => false
    case JBool(b) => b
    case JInt(i) => i != 0
    case JFloat(t) => t != "0.0" && t != "-0.0"
    case JStr(s) => s != ""
    case JArr(a) => a != []
    case JObj(f) => f != []
  }

  /** Python `v == n` for an integer `n`: `False == 0`, `True == 1` and `100.0 == 100`
      all hold, while strings, lists, dicts and `None` never equal a number. A float is
      recognised by its repr `n.0`, which is its repr only while |n| < 10^16 (the codes
      compared with here are all below 1000). */
  predicate EqInt(v: Json, n: int) {
    match v
    case JInt(i) => i == n
    case JBool(b) => (if b then 1 else 0) == n
    case JFloat(t) => t == Text.IntToDecimal(n) + ".0" || (n == 0 && t == "-0.0")
    case _ => false
  }

  /** A value equals at most one integer. */
  lemma EqIntUnique(v: Json, m: int, n: int)
    requires EqInt(v, m) && EqInt(v, n)
    ensures m == n
  {
    if v.JFloat? {
      var t := v.repr;
      var a, b := Text.IntToDecimal(m), Text.IntToDecimal(n);
      if t == a + ".0" && t == b + ".0" {
        assert a == t[..|t| - 2] == b;
        Text.IntToDecimalInjective(m, n);
      } else if t == a + ".0" {
        NotNegativeZero(m);
      } else if t == b + ".0" {
        NotNegativeZero(n);
      }
    }
  }

  /** No integer prints as "-0". */
  lemma NotNegativeZero(n: int)
    ensures Text.IntToDecimal(n) + ".0" != "-0.0"
  {
    if n < 0 {
      var d := Text.NatToDecimal(-n);
      Text.DecimalRoundTrip(-n);
      assert Text.DecimalValue("0") == 0;
      assert d != "0";
      assert ("-" + d + ".0")[1..|d| + 1] == d;
    } else {
      var d := Text.NatToDecimal(n);
      assert (d + ".0")[0] == d[0];
    }
  }

  /** What a `for` loop visits: a list's items, a dict's keys, a string's characters
      (as one-character strings); `None` if the value cannot be iterated (TypeError). */
  function Iterate(v: Json): (r: Option<seq<Json>>)
    ensures v.JArr? ==> r == Some(v.items)
    ensures v.JObj? ==> r.Some? && |r.value| == |v.fields|
    ensures r.None? <==> (v.JNull? || v.JBool? || v.JInt? || v.JFloat?)
  {
    match v
    case JArr(items) => Some(items)
    case JObj(fs) => Some(seq(|fs|, i requires 0 <= i < |fs| => JStr(fs[i].key)))
    case JStr(s) => Some(seq(|s|, i requires 0 <= i < |s| => JStr([s[i]])))
    case _ => None
  }

  /** `type(v).__name__`, which Python puts in the text of an AttributeError. */
  function TypeName(v: Json): string {
    match v
    case JNull => "NoneType"
    case JBool(_) => "bool"
    case JInt(_) => "int"
    case JFloat(_) => "float"
    case JStr(_) => "str"
    case JArr(_) => "list"
    case JObj(_) => "dict"
  }

  /** `str(v)`: a string is itself, anything else is its `repr`. */
  function PyStr(v: Json): string {
    if v.JStr? then v.s else Repr(v)
  }

  /** `repr(v)`, as Python writes lists, dicts and scalars. */
  function Repr(v: Json): string
    decreases v
  {
    match v
    case JNull => "None"
    case JBool(b) => if b then "True" else "False"
    case JInt(i) => Text.IntToDecimal(i)
    case JFloat(t) => t
    case JStr(s) => Quote(s)
    case JArr(items) =>
      "[" + Text.Join(seq(|items|, i requires 0 <= i < |items| => Repr(items[i])), ", ") + "]"
    case JObj(fs) =>
      "{" + Text.Join(seq(|fs|, i requires 0 <= i < |fs| => Quote(fs[i].key) + ": " + Repr(fs[i].val)), ", ") + "}"
  }

  /** The quote `repr` puts around a string: `"` when the text holds `'` but no `"`, else `'`. */
  function QuoteChar(s: string): char {
    if '\'' in s && '"' !in s then '"' else '\''
  }

  /** `repr(s)` for a string: quoted, with backslash, the chosen quote, newline,
      carriage return, tab and the other ASCII control characters escaped. */
  function Quote(s: string): (r: string)
    ensures |r| >= 2 && r[0] == QuoteChar(s) && r[|r| - 1] == QuoteChar(s)
  {
    var q := QuoteChar(s);
    [q] + EscapeAll(s, q) + [q]
  }

  function EscapeAll(s: string, q: char): string {
    if s == [] then "" else Escape(s[0], q) + EscapeAll(s[1..], q)
  }

  function Escape(c: char, q: char): string {
    if c == '\\' then "\\\\"
    else if c == q then ['\\', q]
    else if c == '\n' then "\\n"
    else if c == '\r' then "\\r"
    else if c == '\t' then "\\t"
    else if c < ' ' || c == '\U{7f}' then "\\x" + [HexDigit(c as int / 16), HexDigit(c as int % 16)]
    else [c]
  }

  function HexDigit(d: int): char
    requires 0 <= d < 16
  {
    "0123456789abcdef"[d]
  }
}
