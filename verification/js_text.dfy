/** The few JavaScript string and number conversions the handlers rely on:
    `String.prototype.trim`, ASCII lower-casing, `parseInt`, `Number(s)` on a
    form value, number-to-string in `URLSearchParams.append`, and
    `String.prototype.replace` with a string pattern. */
module JsText {
  import opened Common

  /** The characters `trim` removes: ECMAScript WhiteSpace and LineTerminator. */
  predicate IsSpace(c: char) {
    || c == ' ' || c == '\t' || c == '\n' || c == '\r'
    || c == '\U{B}' || c == '\U{C}' || c == '\U{A0}' || c == '\U{1680}'
    || ('\U{2000}' <= c <= '\U{200A}')
    || c == '\U{2028}' || c == '\U{2029}' || c == '\U{202F}' || c == '\U{205F}'
    || c == '\U{3000}' || c == '\U{FEFF}'
  }

  predicate IsDigit(c: char) { '0' <= c <= '9' }

  predicate AllDigits(s: string) { forall i :: 0 <= i < |s| ==> IsDigit(s[i]) }

  /** `s` with its leading white space removed. */
  function TrimStart(s: string): (r: string)
    ensures |r| <= |s| && r == s[|s| - |r|..]
    ensures r == [] || !IsSpace(r[0])
    ensures forall i :: 0 <= i < |s| - |r| ==> IsSpace(s[i])
  {
    if s != [] && IsSpace(s[0]) then TrimStart(s[1..]) else s
  }

  /** `s` with its trailing white space removed. */
  function TrimEnd(s: string): (r: string)
    ensures |r| <= |s| && r == s[..|r|]
    ensures r == [] || !IsSpace(r[|r| - 1])
    ensures forall i :: |r| <= i < |s| ==> IsSpace(s[i])
  {
    if s != [] && IsSpace(s[|s| - 1]) then TrimEnd(s[..|s| - 1]) else s
  }

  /** `String.prototype.trim`: the schema's `trim: true` setter. */
  function Trim(s: string): (r: string)
    ensures r == [] || (!IsSpace(r[0]) && !IsSpace(r[|r| - 1]))
  {
    TrimEnd(TrimStart(s))
  }

  /** A string with no white space at either end is its own trim. */
  lemma TrimOfTrimmed(s: string)
    requires s == [] || (!IsSpace(s[0]) && !IsSpace(s[|s| - 1]))
    ensures Trim(s) == s
  {
  }

  /** Trimming twice is trimming once. */
  lemma TrimIdempotent(s: string)
    ensures Trim(Trim(s)) == Trim(s)
  {
    TrimOfTrimmed(Trim(s));
  }

  function LowerChar(c: char): (r: char)
    ensures IsSpace(r) == IsSpace(c)
    ensures !('A' <= r <= 'Z')
  {
    if 'A' <= c <= 'Z' then (c as int + 32) as char else c
  }

  /** The schema's `lowercase: true` setter, on the ASCII letters. */
  function Lower(s: string): (r: string)
    ensures |r| == |s|
    ensures forall i :: 0 <= i < |s| ==> r[i] == LowerChar(s[i])
  {
    seq(|s|, i requires 0 <= i < |s| => LowerChar(s[i]))
  }

  lemma {:induction false} LowerTrimStart(s: string)
    ensures Lower(TrimStart(s)) == TrimStart(Lower(s))
  {
    if s != [] && IsSpace(s[0]) {
      assert Lower(s)[1..] == Lower(s[1..]);
      LowerTrimStart(s[1..]);
    }
  }

  lemma {:induction false} LowerTrimEnd(s: string)
    ensures Lower(TrimEnd(s)) == TrimEnd(Lower(s))
  {
    if s != [] && IsSpace(s[|s| - 1]) {
      assert Lower(s)[..|s| - 1] == Lower(s[..|s| - 1]);
      LowerTrimEnd(s[..|s| - 1]);
    }
  }

  /** The `trim` and `lowercase` setters commute, so the order in which the
      store applies them does not matter. */
  lemma LowerTrimCommute(s: string)
    ensures Lower(Trim(s)) == Trim(Lower(s))
  {
    LowerTrimStart(s);
    LowerTrimEnd(TrimStart(s));
  }

  /** Lower-casing twice is lower-casing once. */
  lemma LowerIdempotent(s: string)
    ensures Lower(Lower(s)) == Lower(s)
  {
  }

  function DigitValue(c: char): (d: nat)
    requires IsDigit(c)
    ensures d < 10
  {
    c as int - '0' as int
  }

  function DigitChar(d: nat): (c: char)
    requires d < 10
    ensures IsDigit(c) && DigitValue(c) == d
  {
    ('0' as int + d) as char
  }

  /** The decimal value of a string of digits, read left to right. */
  function DigitsValue(ds: string): nat
    requires AllDigits(ds)
  {
    if ds == [] then 0 else DigitsValue(ds[..|ds| - 1]) * 10 + DigitValue(ds[|ds| - 1])
  }

  /** The length of the run of digits that starts `s`. */
  function DigitRun(s: string): (k: nat)
    ensures k <= |s| && AllDigits(s[..k])
    ensures k < |s| ==> !IsDigit(s[k])
  {
    if s != [] && IsDigit(s[0]) then
      var k := 1 + DigitRun(s[1..]);
      assert s[..k] == [s[0]] + s[1..][..k - 1];
      k
    else 0
  }

  /** `parseInt(s)` with no radix: skip leading white space, take an optional
      sign and the longest run of decimal digits; `None` is NaN (no digits). */
  function ParseInt(s: string): (r: Option<int>)
    ensures r.None? <==> DigitRun(Unsigned(TrimStart(s))) == 0
  {
    var t := TrimStart(s);
    var u := Unsigned(t);
    var k := DigitRun(u);
    if k == 0 then None
    else
      var v: int := DigitsValue(u[..k]);
      if t[0] == '-' then Some(-v) else Some(v)
  }

  /** `t` without the one leading `+` or `-` it may start with. */
  function Unsigned(t: string): string {
    if t != [] && (t[0] == '-' || t[0] == '+') then t[1..] else t
  }

  /** `Number(s)` for the integral strings a form field can hold: white space
      around the text is ignored, the empty string is 0, an optional sign and
      a non-empty run of digits is that integer, anything else is NaN (`None`). */
  function NumberOf(s: string): (r: Option<int>)
    ensures Trim(s) == [] ==> r == Some(0)
    ensures Trim(s) != [] ==> (r.Some? <==> Unsigned(Trim(s)) != [] && AllDigits(Unsigned(Trim(s))))
  {
    var t := Trim(s);
    var u := Unsigned(t);
    if t == [] then Some(0)
    else if u == [] || !AllDigits(u) then None
    else
      var v: int := DigitsValue(u);
      if t[0] == '-' then Some(-v) else Some(v)
  }

  /** The decimal representation of a natural number, without leading zeros. */
  function NatToString(n: nat): (s: string)
    ensures s != [] && AllDigits(s)
  {
    if n < 10 then [DigitChar(n)] else NatToString(n / 10) + [DigitChar(n % 10)]
  }

  /** `String(n)` for an integer. */
  function IntToString(i: int): string {
    if i < 0 then "-" + NatToString(-i) else NatToString(i)
  }

  lemma {:induction false} NatToStringValue(n: nat)
    ensures DigitsValue(NatToString(n)) == n
  {
    var s := NatToString(n);
    if n >= 10 {
      assert s[..|s| - 1] == NatToString(n / 10);
      NatToStringValue(n / 10);
    }
  }

  lemma DigitRunAll(s: string)
    requires AllDigits(s)
    ensures DigitRun(s) == |s|
  {
  }

  /** A run of digits is read by `Number` as its value. */
  lemma NumberOfDigits(d: string)
    requires d != [] && AllDigits(d)
    ensures NumberOf(d) == Some(DigitsValue(d))
  {
    assert IsDigit(d[0]) && IsDigit(d[|d| - 1]);
    TrimOfTrimmed(d);
    assert Unsigned(d) == d;
  }

  /** A minus sign and a run of digits is read by `Number` as the negated value. */
  lemma NumberOfNegatedDigits(n: string)
    requires |n| >= 2 && n[0] == '-' && AllDigits(n[1..])
    ensures var v: int := DigitsValue(n[1..]); NumberOf(n) == Some(-v)
  {
    assert IsDigit(n[1..][|n| - 2]);
    TrimOfTrimmed(n);
  }

  /** `Number(String(n)) === n` for every integer. */
  lemma NumberOfIntToString(i: int)
    ensures NumberOf(IntToString(i)) == Some(i)
  {
    var m := if i < 0 then -i else i;
    NatToStringValue(m);
    if i < 0 {
      assert IntToString(i)[1..] == NatToString(m);
      NumberOfNegatedDigits(IntToString(i));
    } else {
      NumberOfDigits(NatToString(m));
    }
  }

  /** What the client writes with `String(n)`, the server reads back with
      `parseInt`: the number survives the query string. */
  lemma ParseIntOfIntToString(i: int)
    ensures ParseInt(IntToString(i)) == Some(i)
  {
    var s := IntToString(i);
    var m := if i < 0 then -i else i;
    NatToStringValue(m);
    DigitRunAll(NatToString(m));
    assert TrimStart(s) == s;
    assert Unsigned(s) == NatToString(m);
    assert Unsigned(s)[..|NatToString(m)|] == NatToString(m);
  }

  /** `s[j..]` starts with `pat`. */
  predicate MatchesAt(s: string, pat: string, j: nat) {
    j + |pat| <= |s| && s[j..j + |pat|] == pat
  }

  /** The first position at or after `from` where `pat` occurs in `s`. */
  function IndexOfFrom(s: string, pat: string, from: nat): (r: Option<nat>)
    ensures r.Some? ==> from <= r.value && MatchesAt(s, pat, r.value)
    ensures forall j :: from <= j && (r.None? || j < r.value) ==> !MatchesAt(s, pat, j)
    decreases |s| - from
  {
    if from + |pat| > |s| then None
    else if MatchesAt(s, pat, from) then Some(from)
    else IndexOfFrom(s, pat, from + 1)
  }

  /** `s.replace(pat, rep)` with a string pattern: only the first occurrence
      is replaced, wherever it is. */
  function ReplaceFirst(s: string, pat: string, rep: string): string {
    match IndexOfFrom(s, pat, 0)
    case None => s
    case Some(i) => s[..i] + rep + s[i + |pat|..]
  }

  /** A string that starts with the pattern loses exactly that prefix. */
  lemma ReplaceFirstPrefix(s: string, pat: string)
    requires MatchesAt(s, pat, 0)
    ensures ReplaceFirst(s, pat, "") == s[|pat|..]
  {
  }

  /** A string in which the pattern never occurs is left as it is. */
  lemma ReplaceFirstAbsent(s: string, pat: string)
    requires forall j :: !MatchesAt(s, pat, j)
    ensures ReplaceFirst(s, pat, "") == s
  {
  }
}
