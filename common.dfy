/** Shared vocabulary of the model: optional values and results, the values
    that Python dictionaries in the service carry, Python truthiness, and the
    handful of `str` operations the service relies on (strip, rstrip, lower,
    join, decimal rendering of an integer). */
module Common {

  datatype Option<+T> = None | Some(value: T)

  datatype Result<+T, +E> = Ok(value: T) | Err(error: E)

  /** A value stored in one of the service's JSON-like dictionaries. */
  datatype Value =
    | VNone
    | VBool(b: bool)
    | VInt(i: int)
    | VReal(r: real)
    | VStr(s: string)
    | VList(items: seq<Value>)
    | VDict(entries: map<string, Value>)

  /** A configuration or request dictionary. */
  type Dict = map<string, Value>

  /** Python truthiness of a value. */
  predicate Truthy(v: Value)
  {
    match v
    case VNone => false
    case VBool(b) => b
    case VInt(i) => i != 0
    case VReal(r) => r != 0.0
    case VStr(s) => s != ""
    case VList(items) => items != []
    case VDict(entries) => entries != map[]
  }

  /** Python truthiness of an optional string argument (`if callback_url:`). */
  predicate IsSetString(s: Option<string>)
  {
    s.Some? && s.value != ""
  }

  /** Whitespace removed by Python's `str.strip()` (the ASCII part): space,
      tab, line feed, vertical tab, form feed, carriage return and the four
      separators 0x1C to 0x1F. */
  predicate IsSpace(c: char)
  {
    c == ' ' || c == '\t' || c == '\n' || c == '\r' || c == '\U{000B}' || c == '\U{000C}' ||
    '\U{001C}' <= c <= '\U{001F}'
  }

  /** `s.lstrip(chars)`, the dropped characters given as a predicate. */
  function LStripWhere(s: string, drop: char -> bool): (r: string)
    ensures |r| <= |s| && r == s[|s| - |r|..]
    ensures r != [] ==> !drop(r[0])
    ensures forall k :: 0 <= k < |s| - |r| ==> drop(s[k])
  {
    if s != [] && drop(s[0]) then LStripWhere(s[1..], drop) else s
  }

  /** `s.rstrip(chars)`, the dropped characters given as a predicate. */
  function RStripWhere(s: string, drop: char -> bool): (r: string)
    ensures |r| <= |s| && r == s[..|r|]
    ensures r != [] ==> !drop(r[|r| - 1])
    ensures forall k :: |r| <= k < |s| ==> drop(s[k])
  {
    if s != [] && drop(s[|s| - 1]) then RStripWhere(s[..|s| - 1], drop) else s
  }

  /** The `n` elements of `s` starting at `i`. */
  function Infix<T>(s: seq<T>, i: nat, n: nat): (r: seq<T>)
    requires i + n <= |s|
    ensures |r| == n
  {
    s[i..i + n]
  }

  /** Every character of `s` is whitespace. */
  predicate AllSpace(s: string)
  {
    forall k :: 0 <= k < |s| ==> IsSpace(s[k])
  }

  /** Where `s.strip()` starts: the number of leading whitespace characters. */
  function StripStart(s: string): (n: nat)
    ensures n <= |s|
  {
    |s| - |LStripWhere(s, IsSpace)|
  }

  /** `s.strip()`: the longest infix of `s` with no whitespace at either end. */
  function Strip(s: string): (r: string)
    ensures |r| <= |s|
    ensures StripStart(s) + |r| <= |s| && r == Infix(s, StripStart(s), |r|)
    ensures r != [] ==> !IsSpace(r[0]) && !IsSpace(r[|r| - 1])
    ensures AllSpace(s) <==> r == []
  {
    var l := LStripWhere(s, IsSpace);
    var t := RStripWhere(l, IsSpace);
    assert t == s[|s| - |l|..][..|t|];
    assert t == Infix(s, |s| - |l|, |t|);
    t
  }

  predicate IsUpper(c: char)
  {
    'A' <= c <= 'Z'
  }

  function LowerChar(c: char): (r: char)
    ensures !IsUpper(r)
    ensures !IsUpper(c) ==> r == c
  {
    if IsUpper(c) then (c as int + 32) as char else c
  }

  /** `s.lower()` on the ASCII letters. */
  function ToLower(s: string): (r: string)
    ensures |r| == |s|
    ensures forall k {:trigger r[k]} :: 0 <= k < |s| ==> r[k] == LowerChar(s[k])
  {
    seq(|s|, k requires 0 <= k < |s| => LowerChar(s[k]))
  }

  /** `sep.join(parts)`. */
  function Join(sep: string, parts: seq<string>): (r: string)
  {
    if |parts| == 0 then ""
    else if |parts| == 1 then parts[0]
    else parts[0] + sep + Join(sep, parts[1..])
  }

  lemma {:induction false} JoinAppend(sep: string, parts: seq<string>, last: string)
    requires parts != []
    ensures Join(sep, parts + [last]) == Join(sep, parts) + sep + last
  {
    if |parts| == 1 {
      assert parts + [last] == [parts[0], last];
    } else {
      assert (parts + [last])[1..] == parts[1..] + [last];
      JoinAppend(sep, parts[1..], last);
    }
  }

  function DigitChar(d: nat): (c: char)
    requires d < 10
  {
    "0123456789"[d]
  }

  predicate IsDigit(c: char)
  {
    '0' <= c <= '9'
  }

  /** `str(n)` for a non-negative integer. */
  function NatToDecimal(n: nat): (r: string)
    ensures r != [] && forall k :: 0 <= k < |r| ==> IsDigit(r[k])
    ensures n >= 10 <==> |r| >= 2
  {
    if n < 10 then [DigitChar(n)] else NatToDecimal(n / 10) + [DigitChar(n % 10)]
  }

  /** Different numbers are rendered differently. */
  lemma {:induction false} NatToDecimalInjective(a: nat, b: nat)
    requires NatToDecimal(a) == NatToDecimal(b)
    ensures a == b
  {
    var s := NatToDecimal(a);
    if a >= 10 && b >= 10 {
      assert NatToDecimal(a / 10) == s[..|s| - 1] == NatToDecimal(b / 10);
      NatToDecimalInjective(a / 10, b / 10);
      assert a % 10 == b % 10 by {
        assert DigitChar(a % 10) == s[|s| - 1] == DigitChar(b % 10);
      }
    } else if a < 10 && b < 10 {
      assert DigitChar(a) == DigitChar(b);
    }
  }
}
