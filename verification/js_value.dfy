/**
 * JavaScript values as the BitSkins client meets them: the decoded JSON body of
 * a response and the caller's `options` object. Together with the value type
 * this module defines the three conversions of the language that the client
 * relies on: truthiness, property reads, and conversion to a string (the one
 * `new Error(x)`, template literals and `Array.prototype.join` apply).
 * Numbers are integers here.
 */
module JsValue {

  datatype Value =
    | Undefined
    | Null
    | Bool(b: bool)
    | Num(n: int)
    | Str(s: string)
    | Arr(elems: seq<Value>)
    | Obj(props: map<string, Value>)
  {
    /** `null` and `undefined`: reading any property of these throws a TypeError. */
    predicate IsNullish() {
      Undefined? || Null?
    }

    /** ToBoolean: objects and arrays are truthy even when empty; "" and 0 are not. */
    predicate Truthy() {
      match this
      case Undefined => false
      case Null => false
      case Bool(b) => b
      case Num(n) => n != 0
      case Str(s) => s != ""
      case Arr(_) => true
      case Obj(_) => true
    }

    /** The property read `this.key`, for the plain data keys the client reads
        (`data`, `error_message`): only an object's own properties exist. */
    function Get(key: string): Value
      requires !IsNullish()
    {
      if Obj? && key in props then props[key] else Undefined
    }
  }

  /* ---------------------------------------------------------------------- */
  /* Decimal notation of integers                                           */
  /* ---------------------------------------------------------------------- */

  predicate IsDigit(c: char) {
    '0' <= c <= '9'
  }

  function DigitChar(d: nat): (c: char)
    requires d < 10
    ensures IsDigit(c)
  {
    ('0' as int + d) as char
  }

  function DigitValue(c: char): nat {
    if IsDigit(c) then c as int - '0' as int else 0
  }

  /** Shortest decimal notation of a natural number. */
  function NatToDecimal(n: nat): (s: string)
    ensures |s| >= 1
    ensures forall i :: 0 <= i < |s| ==> IsDigit(s[i])
    decreases n
  {
    if n < 10 then [DigitChar(n)] else NatToDecimal(n / 10) + [DigitChar(n % 10)]
  }

  /** Reads a string of digits back as a number (the inverse of `NatToDecimal`). */
  function DecimalToNat(s: string): nat
    decreases |s|
  {
    if |s| == 0 then 0 else 10 * DecimalToNat(s[..|s| - 1]) + DigitValue(s[|s| - 1])
  }

  /** Number-to-string conversion of an integer, as `${n}` writes it. */
  function IntToString(n: int): string {
    if n < 0 then "-" + NatToDecimal(-n) else NatToDecimal(n)
  }

  /** Reads the notation `IntToString` produces. */
  function ParseInt(s: string): int {
    if |s| > 0 && s[0] == '-' then -(DecimalToNat(s[1..]) as int) else DecimalToNat(s)
  }

  lemma {:induction false} DecimalRoundTrip(n: nat)
    ensures DecimalToNat(NatToDecimal(n)) == n
    decreases n
  {
    if n >= 10 {
      DecimalRoundTrip(n / 10);
      var s := NatToDecimal(n / 10) + [DigitChar(n % 10)];
      assert s[..|s| - 1] == NatToDecimal(n / 10);
    }
  }

  /** Decimal notation loses nothing: the integer is read back from its string. */
  lemma IntToStringRoundTrip(n: int)
    ensures ParseInt(IntToString(n)) == n
  {
    if n < 0 {
      DecimalRoundTrip(-n);
      assert IntToString(n)[1..] == NatToDecimal(-n);
    } else {
      DecimalRoundTrip(n);
      assert IsDigit(NatToDecimal(n)[0]);
    }
  }

  /** Distinct integers have distinct notations. */
  lemma IntToStringInjective(a: int, b: int)
    ensures IntToString(a) == IntToString(b) ==> a == b
  {
    IntToStringRoundTrip(a);
    IntToStringRoundTrip(b);
  }

  /* ---------------------------------------------------------------------- */
  /* Joining with a separator, and its inverse                              */
  /* ---------------------------------------------------------------------- */

  /** `parts.join(sep)`: the parts in order with one separator between neighbours. */
  function Join(parts: seq<string>, sep: char): string
    decreases |parts|
  {
    if |parts| == 0 then ""
    else if |parts| == 1 then parts[0]
    else parts[0] + [sep] + Join(parts[1..], sep)
  }

  /** `s.split(sep)`: the maximal separator-free pieces, in order; "" splits to [""]. */
  function Split(s: string, sep: char): (parts: seq<string>)
    ensures |parts| >= 1
    decreases |s|
  {
    if |s| == 0 then [""]
    else
      var rest := Split(s[1..], sep);
      if s[0] == sep then [""] + rest
      else [[s[0]] + rest[0]] + rest[1..]
  }

  /** Every string is the join of its split pieces. */
  lemma {:induction false} SplitThenJoin(s: string, sep: char)
    ensures Join(Split(s, sep), sep) == s
    decreases |s|
  {
    if |s| > 0 {
      SplitThenJoin(s[1..], sep);
      var rest := Split(s[1..], sep);
      if s[0] == sep {
        assert ([""] + rest)[1..] == rest;
        assert s == [s[0]] + s[1..];
      } else if |rest| == 1 {
        assert s == [s[0]] + s[1..];
      } else {
        var parts := [[s[0]] + rest[0]] + rest[1..];
        assert parts[1..] == rest[1..];
        assert s == [s[0]] + s[1..];
      }
    }
  }

  lemma {:induction false} SplitSeparatorFree(a: string, sep: char)
    requires sep !in a
    ensures Split(a, sep) == [a]
    decreases |a|
  {
    if |a| > 0 {
      SplitSeparatorFree(a[1..], sep);
      assert a == [a[0]] + a[1..];
    }
  }

  lemma {:induction false} SplitAfterPiece(a: string, b: string, sep: char)
    requires sep !in a
    ensures Split(a + [sep] + b, sep) == [a] + Split(b, sep)
    decreases |a|
  {
    var s := a + [sep] + b;
    if |a| == 0 {
      assert s[1..] == b;
    } else {
      assert s[1..] == a[1..] + [sep] + b;
      SplitAfterPiece(a[1..], b, sep);
      assert [s[0]] + a[1..] == a;
    }
  }

  /** Joining separator-free pieces is undone by splitting: the pieces come back
      complete and in their original order. */
  lemma {:induction false} JoinThenSplit(parts: seq<string>, sep: char)
    requires |parts| >= 1
    requires forall i :: 0 <= i < |parts| ==> sep !in parts[i]
    ensures Split(Join(parts, sep), sep) == parts
    decreases |parts|
  {
    if |parts| == 1 {
      SplitSeparatorFree(parts[0], sep);
    } else {
      JoinThenSplit(parts[1..], sep);
      SplitAfterPiece(parts[0], Join(parts[1..], sep), sep);
      assert parts == [parts[0]] + parts[1..];
    }
  }

  /* ---------------------------------------------------------------------- */
  /* Conversion to string                                                   */
  /* ---------------------------------------------------------------------- */

  /** ToString. An array converts as `arr.join(',')`, which writes `null` and
      `undefined` elements as empty strings; a plain object as "[object Object]". */
  function ToString(v: Value): string
    decreases v, 1
  {
    match v
    case Undefined => "undefined"
    case Null => "null"
    case Bool(b) => if b then "true" else "false"
    case Num(n) => IntToString(n)
    case Str(s) => s
    case Arr(elems) =>
      Join(seq(|elems|, i requires 0 <= i < |elems| => ElementText(elems[i])), ',')
    case Obj(_) => "[object Object]"
  }

  /** How `join` writes one array element: `null` and `undefined` as "". */
  function ElementText(v: Value): string
    decreases v, 2
  {
    if v.IsNullish() then "" else ToString(v)
  }

  /** An array of strings converts to exactly the comma join of those strings. */
  lemma ArrayOfStringsToString(items: seq<string>)
    ensures ToString(Arr(seq(|items|, i requires 0 <= i < |items| => Str(items[i])))) == Join(items, ',')
  {
    var elems := seq(|items|, i requires 0 <= i < |items| => Str(items[i]));
    var texts := seq(|elems|, i requires 0 <= i < |elems| => ElementText(elems[i]));
    forall i | 0 <= i < |items|
      ensures texts[i] == items[i]
    {
      assert elems[i] == Str(items[i]);
      assert ToString(elems[i]) == items[i];
    }
    assert texts == items;
    assert ToString(Arr(elems)) == Join(texts, ',');
  }
}
