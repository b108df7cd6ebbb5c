/** The Python `str` operations the client relies on, over `seq<char>`:
    `strip`, `rstrip(c)`, `split(c)`, `join`, `upper`, `lower` (ASCII case only)
    and `str(int)`. */
module Text {

  /** `str.isspace()` for one character: the characters CPython classifies as whitespace. */
  predicate IsSpace(c: char) {
    || c == ' '
    || ('\t' <= c <= '\r')
    || ('\U{1c}' <= c <= '\U{1f}')
    || c == '\U{85}' || c == '\U{a0}' || c == '\U{1680}'
    || ('\U{2000}' <= c <= '\U{200a}')
    || c == '\U{2028}' || c == '\U{2029}' || c == '\U{202f}' || c == '\U{205f}' || c == '\U{3000}'
  }

  predicate AllSpace(s: string) {
    forall k :: 0 <= k < |s| ==> IsSpace(s[k])
  }

  /** `s.rstrip()`: the longest prefix of `s` that does not end in whitespace. */
  function StripEnd(s: string): (r: string)
    ensures |r| <= |s| && r == s[..|r|]
    ensures r == [] || !IsSpace(r[|r| - 1])
    ensures AllSpace(s[|r|..])
  {
    if s == [] || !IsSpace(s[|s| - 1]) then s
    else
      var p := s[..|s| - 1];
      var r := StripEnd(p);
      assert s[..|r|] == p[..|r|] && s[|r|..] == p[|r|..] + [s[|s| - 1]];
      AllSpaceConcat(p[|r|..], [s[|s| - 1]]);
      r
  }

  /** `s.lstrip()`: the longest suffix of `s` that does not start with whitespace. */
  function StripStart(s: string): (r: string)
    ensures |r| <= |s| && r == s[|s| - |r|..]
    ensures r == [] || !IsSpace(r[0])
    ensures AllSpace(s[..|s| - |r|])
  {
    if s == [] || !IsSpace(s[0]) then s
    else
      var p := s[1..];
      var r := StripStart(p);
      assert s[|s| - |r|..] == p[|p| - |r|..] && s[..|s| - |r|] == [s[0]] + p[..|p| - |r|];
      AllSpaceConcat([s[0]], p[..|p| - |r|]);
      r
  }

  /** `s.strip()`: `s` without its leading and trailing whitespace. The result is the
      slice of `s` that lies between two runs of whitespace, it neither starts nor ends
      with whitespace, and it is empty exactly when `s` is all whitespace. */
  function Strip(s: string): (r: string)
    ensures |r| <= |StripEnd(s)| <= |s|
    ensures r == s[|StripEnd(s)| - |r|..|StripEnd(s)|]
    ensures AllSpace(s[..|StripEnd(s)| - |r|]) && AllSpace(s[|StripEnd(s)|..])
    ensures r == [] || (!IsSpace(r[0]) && !IsSpace(r[|r| - 1]))
    ensures r == [] <==> AllSpace(s)
  {
    var e := StripEnd(s);
    var r := StripStart(e);
    StripSlice(s, e, r);
    StripLast(e, r);
    StripEmpty(s, e, r);
    r
  }

  /** Where the stripped text sits in `s`. */
  lemma StripSlice(s: string, e: string, r: string)
    requires e == StripEnd(s) && r == StripStart(e)
    ensures r == s[|e| - |r|..|e|]
    ensures AllSpace(s[..|e| - |r|])
  {
    PrefixSlices(s, |e|, |e| - |r|);
  }

  /** The pieces of a prefix are slices of the whole. */
  lemma PrefixSlices(s: string, m: nat, n: nat)
    requires n <= m <= |s|
    ensures s[..m][n..] == s[n..m] && s[..m][..n] == s[..n]
  {
  }

  /** Stripping the start keeps a last character that is not whitespace. */
  lemma StripLast(e: string, r: string)
    requires e == [] || !IsSpace(e[|e| - 1])
    requires r == StripStart(e)
    ensures r == [] || !IsSpace(r[|r| - 1])
  {
    if r != [] {
      assert r[|r| - 1] == e[|e| - 1];
    }
  }

  /** Nothing is left exactly when `s` is all whitespace. */
  lemma StripEmpty(s: string, e: string, r: string)
    requires e == StripEnd(s) && r == StripStart(e)
    ensures r == [] <==> AllSpace(s)
  {
    if r == [] {
      StripNothingLeft(s, e);
    } else {
      StripSomethingLeft(s, e);
    }
  }

  lemma StripNothingLeft(s: string, e: string)
    requires e == StripEnd(s) && StripStart(e) == []
    ensures AllSpace(s)
  {
    assert e[..|e|] == e;
    AllSpaceConcat(e, s[|e|..]);
    assert s == e + s[|e|..];
  }

  lemma StripSomethingLeft(s: string, e: string)
    requires e == StripEnd(s) && StripStart(e) != []
    ensures !AllSpace(s)
  {
    var k := |e| - 1;
    assert e[k] == s[k] && !IsSpace(e[k]);
  }

  lemma AllSpaceConcat(a: string, b: string)
    requires AllSpace(a) && AllSpace(b)
    ensures AllSpace(a + b)
  {
    forall k | 0 <= k < |a + b| ensures IsSpace((a + b)[k]) {
      if k < |a| { assert (a + b)[k] == a[k]; } else { assert (a + b)[k] == b[k - |a|]; }
    }
  }

  /** Stripping only removes characters, so a character absent from `s` is absent
      from `s.strip()`. */
  lemma StripKeepsAbsent(s: string, c: char)
    requires c !in s
    ensures c !in Strip(s)
  {
    var r := Strip(s);
    var e := |StripEnd(s)|;
    forall j | 0 <= j < |r| ensures r[j] != c {
      assert r[j] == s[e - |r| + j];
    }
  }

  /** Stripping is idempotent: a stripped string has nothing left to strip. */
  lemma StripIdempotent(s: string)
    ensures Strip(Strip(s)) == Strip(s)
  {
    var r := Strip(s);
    if r != [] {
      assert StripEnd(r) == r;
      assert StripStart(r) == r;
    }
  }

  /** `s.rstrip(c)`: `s` with every trailing `c` removed. */
  function StripEndChar(s: string, c: char): (r: string)
    ensures |r| <= |s| && r == s[..|r|]
    ensures r == [] || r[|r| - 1] != c
    ensures forall k :: |r| <= k < |s| ==> s[k] == c
  {
    if s == [] || s[|s| - 1] != c then s else StripEndChar(s[..|s| - 1], c)
  }

  /** Stripping trailing `c` twice is stripping it once. */
  lemma StripEndCharIdempotent(s: string, c: char)
    ensures StripEndChar(StripEndChar(s, c), c) == StripEndChar(s, c)
  {
  }

  /** The position of the first `c` in `s`. */
  function IndexOf(s: string, c: char): (i: nat)
    requires c in s
    ensures i < |s| && s[i] == c && c !in s[..i]
  {
    if s[0] == c then 0 else 1 + IndexOf(s[1..], c)
  }

  /** The number of occurrences of `c` in `s`. */
  function Count(s: string, c: char): nat {
    if s == [] then 0 else (if s[0] == c then 1 else 0) + Count(s[1..], c)
  }

  lemma {:induction false} CountAppend(a: string, b: string, c: char)
    ensures Count(a + b, c) == Count(a, c) + Count(b, c)
  {
    if a == [] {
      assert a + b == b;
    } else {
      assert (a + b)[1..] == a[1..] + b;
      CountAppend(a[1..], b, c);
    }
  }

  lemma {:induction false} CountAbsent(s: string, c: char)
    requires c !in s
    ensures Count(s, c) == 0
  {
    if s != [] {
      assert c !in s[1..] by {
        forall k | 0 <= k < |s[1..]| ensures s[1..][k] != c { assert s[1..][k] == s[k + 1]; }
      }
      CountAbsent(s[1..], c);
    }
  }

  /** `s.split(c)` for a one-character separator: the pieces between the separators,
      empty pieces included; no piece contains the separator. */
  function Split(s: string, c: char): (parts: seq<string>)
    ensures |parts| >= 1
    ensures forall p :: p in parts ==> c !in p
    decreases |s|
  {
    if c !in s then [s]
    else
      var i := IndexOf(s, c);
      [s[..i]] + Split(s[i + 1..], c)
  }

  /** The first piece of a split is the text before the first separator, or the whole
      string when there is none (Python `s.split(c)[0]`). */
  lemma SplitHead(s: string, c: char)
    ensures Split(s, c)[0] == if c in s then s[..IndexOf(s, c)] else s
  {
  }

  /** `sep.join(parts)`. */
  function Join(parts: seq<string>, sep: string): string {
    if parts == [] then ""
    else if |parts| == 1 then parts[0]
    else parts[0] + sep + Join(parts[1..], sep)
  }

  /** Splitting on `c` yields one piece more than there are `c`s: empty pieces are kept. */
  lemma {:induction false} SplitCount(s: string, c: char)
    ensures |Split(s, c)| == Count(s, c) + 1
    decreases |s|
  {
    if c !in s {
      CountAbsent(s, c);
    } else {
      var i := IndexOf(s, c);
      assert s == s[..i] + ([c] + s[i + 1..]);
      CountAppend(s[..i], [c] + s[i + 1..], c);
      CountAbsent(s[..i], c);
      assert ([c] + s[i + 1..])[1..] == s[i + 1..];
      SplitCount(s[i + 1..], c);
    }
  }

  /** A split with a separator in the text starts with the text before it. */
  lemma SplitCons(s: string, c: char)
    requires c in s
    ensures Split(s, c) == [s[..IndexOf(s, c)]] + Split(s[IndexOf(s, c) + 1..], c)
  {
  }

  /** Joining two or more pieces puts the separator after the first. */
  lemma JoinCons(head: string, rest: seq<string>, sep: string)
    requires rest != []
    ensures Join([head] + rest, sep) == head + sep + Join(rest, sep)
  {
    assert ([head] + rest)[1..] == rest;
  }

  /** Joining the pieces of a split with the same separator gives back the string. */
  lemma {:induction false} JoinSplit(s: string, c: char)
    ensures Join(Split(s, c), [c]) == s
    decreases |s|
  {
    if c in s {
      var i := IndexOf(s, c);
      var head, tail := s[..i], s[i + 1..];
      SplitCons(s, c);
      JoinCons(head, Split(tail, c), [c]);
      JoinSplit(tail, c);
      assert s == head + [c] + tail;
    }
  }

  /** Splitting a join undoes it when no piece contains the separator. */
  lemma {:induction false} SplitJoin(parts: seq<string>, c: char)
    requires |parts| >= 1
    requires forall p :: p in parts ==> c !in p
    ensures Split(Join(parts, [c]), c) == parts
  {
    if |parts| > 1 {
      var head, tail := parts[0], Join(parts[1..], [c]);
      assert head in parts;
      var s := head + [c] + tail;
      assert Join(parts, [c]) == s;
      SeparatorAfter(head, c, tail);
      assert s[..|head|] == head;
      assert s[|head| + 1..] == tail;
      assert forall p :: p in parts[1..] ==> p in parts;
      SplitJoin(parts[1..], c);
      assert parts == [head] + parts[1..];
    }
  }

  /** The first `c` of `a + [c] + b` is the one after `a` when `a` holds none. */
  lemma {:induction false} SeparatorAfter(a: string, c: char, b: string)
    requires c !in a
    ensures c in a + [c] + b && IndexOf(a + [c] + b, c) == |a|
  {
    var s := a + [c] + b;
    assert s[|a|] == c;
    if a != [] {
      assert s[0] == a[0] && a[0] != c;
      assert s[1..] == a[1..] + [c] + b;
      assert c !in a[1..] by {
        forall k | 0 <= k < |a[1..]| ensures a[1..][k] != c { assert a[1..][k] == a[k + 1]; }
      }
      SeparatorAfter(a[1..], c, b);
    }
  }

  /** A decimal digit. */
  function DigitChar(d: nat): (c: char)
    requires d < 10
    ensures '0' <= c <= '9' && c as int - '0' as int == d
  {
    (d + '0' as int) as char
  }

  predicate AllDigits(s: string) {
    forall k :: 0 <= k < |s| ==> '0' <= s[k] <= '9'
  }

  /** `str(n)` for a natural number: its decimal digits, without leading zeros. */
  function NatToDecimal(n: nat): (s: string)
    ensures |s| >= 1 && AllDigits(s)
    ensures s[0] == '0' ==> n == 0
  {
    if n < 10 then [DigitChar(n)] else NatToDecimal(n / 10) + [DigitChar(n % 10)]
  }

  /** `str(n)` for any integer: a minus sign before the digits of a negative number. */
  function IntToDecimal(n: int): (s: string)
    ensures |s| >= 1
    ensures n < 0 <==> s[0] == '-'
  {
    if n < 0 then "-" + NatToDecimal(-n) else NatToDecimal(n)
  }

  /** The value of a string of decimal digits (the reference reading of `NatToDecimal`). */
  function DecimalValue(s: string): nat
    requires AllDigits(s)
  {
    if s == [] then 0 else DecimalValue(s[..|s| - 1]) * 10 + (s[|s| - 1] as int - '0' as int)
  }

  /** Reading back the digits `str(n)` writes gives `n`. */
  lemma {:induction false} DecimalRoundTrip(n: nat)
    ensures DecimalValue(NatToDecimal(n)) == n
  {
    if n >= 10 {
      var s := NatToDecimal(n);
      assert s[..|s| - 1] == NatToDecimal(n / 10);
      DecimalRoundTrip(n / 10);
    }
  }

  /** Distinct naturals have distinct digits. */
  lemma NatToDecimalInjective(a: nat, b: nat)
    requires NatToDecimal(a) == NatToDecimal(b)
    ensures a == b
  {
    DecimalRoundTrip(a);
    DecimalRoundTrip(b);
  }

  /** `str(n)` is injective, so distinct status codes print differently. */
  lemma IntToDecimalInjective(m: int, n: int)
    requires IntToDecimal(m) == IntToDecimal(n)
    ensures m == n
  {
    var s := IntToDecimal(m);
    if m < 0 {
      assert n < 0;
      var a, b := NatToDecimal(-m), NatToDecimal(-n);
      assert s == "-" + a == "-" + b;
      assert a == s[1..] == b;
      NatToDecimalInjective(-m, -n);
    } else {
      assert n >= 0;
      NatToDecimalInjective(m, n);
    }
  }

  function LowerChar(c: char): char {
    if 'A' <= c <= 'Z' then (c as int + 32) as char else c
  }

  function UpperChar(c: char): char {
    if 'a' <= c <= 'z' then (c as int - 32) as char else c
  }

  /** `s.lower()` restricted to ASCII letters: no upper-case ASCII letter remains. */
  function Lower(s: string): (r: string)
    ensures |r| == |s|
    ensures forall k :: 0 <= k < |r| ==> !('A' <= r[k] <= 'Z')
    ensures forall k :: 0 <= k < |r| ==> (r[k] == s[k] || ('A' <= s[k] <= 'Z' && r[k] as int == s[k] as int + 32))
  {
    seq(|s|, k requires 0 <= k < |s| => LowerChar(s[k]))
  }

  /** `s.upper()` restricted to ASCII letters: no lower-case ASCII letter remains. */
  function Upper(s: string): (r: string)
    ensures |r| == |s|
    ensures forall k :: 0 <= k < |r| ==> !('a' <= r[k] <= 'z')
    ensures forall k :: 0 <= k < |r| ==> (r[k] == s[k] || ('a' <= s[k] <= 'z' && r[k] as int == s[k] as int - 32))
  {
    seq(|s|, k requires 0 <= k < |s| => UpperChar(s[k]))
  }

  /** Case folding forgets case: two names that differ only in ASCII case fold alike. */
  lemma LowerOfUpper(s: string)
    ensures Lower(Upper(s)) == Lower(s)
  {
  }

  lemma LowerIdempotent(s: string)
    ensures Lower(Lower(s)) == Lower(s)
  {
  }
}
