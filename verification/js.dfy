/** The JavaScript runtime behaviour the assembly code leans on: JSON request values and their
    truthiness, String.prototype.split, Number(...) and String(...) conversions, BigInt(...)
    on strings, and bn.js's `new BN(text)`. */
module Js {
  import opened Digits

  datatype Option<+T> = None | Some(value: T)

  /** A computation that either yields a value or throws an Error carrying `message`. */
  datatype Result<+T> = Ok(value: T) | Err(message: string)

  /** A JSON value taken from a request body. Numbers are whole numbers in this model. */
  datatype Json = Undefined | Null | Bool(b: bool) | Num(n: int) | Str(s: string)

  /** What `!!x` is for a JSON value. */
  predicate Truthy(j: Json) {
    match j
    case Undefined => false
    case Null => false
    case Bool(b) => b
    case Num(n) => n != 0
    case Str(s) => s != ""
  }

  /** A JavaScript number as far as the assembly code looks at it: NaN, or a finite number
      given by its integer part (truncated toward zero) and whether it has no fractional part. */
  datatype JsNumber = NaN | Finite(whole: int, integral: bool)

  /** ToIntegerOrInfinity, the conversion `repeat` and `slice` apply to their count arguments. */
  function ToIntegerOrInfinity(x: JsNumber): int {
    match x
    case NaN => 0
    case Finite(w, _) => w
  }

  // ---------------------------------------------------------------------------------------
  // String.prototype.split and its inverse, Array.prototype.join

  /** `s.split(sep)` for a one-character separator: the pieces between separators, in order. */
  function Split(s: string, sep: char): (parts: seq<string>)
    ensures |parts| >= 1
    ensures forall k :: 0 <= k < |parts| ==> sep !in parts[k]
    decreases |s|
  {
    if s == [] then [""]
    else
      var rest := Split(s[1..], sep);
      if s[0] == sep then [""] + rest
      else [[s[0]] + rest[0]] + rest[1..]
  }

  /** `parts.join(sep)`. */
  function Join(parts: seq<string>, sep: char): string
    requires |parts| >= 1
  {
    if |parts| == 1 then parts[0] else parts[0] + [sep] + Join(parts[1..], sep)
  }

  /** Joining the pieces of a split gives back the string. */
  lemma {:induction false} JoinSplit(s: string, sep: char)
    ensures Join(Split(s, sep), sep) == s
    decreases |s|
  {
    if s != [] {
      var rest := Split(s[1..], sep);
      JoinSplit(s[1..], sep);
      if s[0] == sep {
        assert Split(s, sep)[1..] == rest;
      } else {
        var parts := Split(s, sep);
        assert parts[0] == [s[0]] + rest[0];
        if |rest| == 1 {
          assert Join(parts, sep) == [s[0]] + rest[0];
        } else {
          assert parts[1..] == rest[1..];
          assert Join(rest, sep) == rest[0] + [sep] + Join(rest[1..], sep);
          assert Join(parts, sep) == ([s[0]] + rest[0]) + [sep] + Join(rest[1..], sep);
        }
      }
      assert s == [s[0]] + s[1..];
    }
  }

  /** A separator-free piece followed by more text splits off as the first piece. */
  lemma {:induction false} SplitPiece(p: string, t: string, sep: char)
    requires sep !in p
    ensures Split(p + [sep] + t, sep) == [p] + Split(t, sep)
    ensures Split(p, sep) == [p]
    decreases |p|
  {
    if p == [] {
      assert [] + [sep] + t == [sep] + t;
      assert ([sep] + t)[1..] == t;
    } else {
      SplitPiece(p[1..], t, sep);
      assert (p + [sep] + t)[1..] == p[1..] + [sep] + t;
      assert [p[0]] + p[1..] == p;
    }
  }

  /** Splitting a join of separator-free pieces gives back the pieces. */
  lemma {:induction false} SplitJoin(parts: seq<string>, sep: char)
    requires |parts| >= 1
    requires forall k :: 0 <= k < |parts| ==> sep !in parts[k]
    ensures Split(Join(parts, sep), sep) == parts
    decreases |parts|
  {
    SplitPiece(parts[0], [], sep);
    if |parts| > 1 {
      SplitJoin(parts[1..], sep);
      SplitPiece(parts[0], Join(parts[1..], sep), sep);
      assert [parts[0]] + parts[1..] == parts;
    }
  }

  // ---------------------------------------------------------------------------------------
  // Number(text) and String(number)

  /** An optionally signed decimal numeral `[-]digits[.digits]` with at least one digit: the
      strings `Number` reads as a finite value in this model. */
  predicate IsDecimalText(s: string) {
    var body := if |s| > 0 && s[0] == '-' then s[1..] else s;
    var parts := Split(body, '.');
    AllDigits(parts[0]) &&
    (|parts| == 1 || (|parts| == 2 && AllDigits(parts[1]))) &&
    (|parts[0]| > 0 || (|parts| == 2 && |parts[1]| > 0))
  }

  /** `Number(s)` for a string; "" is 0, and text that is not a decimal numeral is NaN. */
  function NumberOfString(s: string): (x: JsNumber)
    ensures IsDecimalText(s) ==> x.Finite?
  {
    if s == "" then Finite(0, true)
    else if !IsDecimalText(s) then NaN
    else
      var neg := s[0] == '-';
      var parts := Split(if neg then s[1..] else s, '.');
      var whole: int := Value(parts[0]);
      var integral := |parts| == 1 || Value(parts[1]) == 0;
      Finite(if neg then -whole else whole, integral)
  }

  /** `Number(j)` for a JSON value. */
  function NumberOf(j: Json): JsNumber {
    match j
    case Undefined => NaN
    case Null => Finite(0, true)
    case Bool(b) => Finite(if b then 1 else 0, true)
    case Num(n) => Finite(n, true)
    case Str(s) => NumberOfString(s)
  }

  /** The text of a whole number as `String(n)` writes it. */
  function IntText(n: int): string {
    if n < 0 then "-" + NatText(-n) else NatText(n)
  }

  /** `String(Number(j))`. A decimal numeral is kept as written, which denotes the same value. */
  function NumberText(j: Json): (t: string)
    ensures NumberOf(j).NaN? ==> t == "NaN"
  {
    match j
    case Undefined => "NaN"
    case Null => "0"
    case Bool(b) => if b then "1" else "0"
    case Num(n) => IntText(n)
    case Str(s) => if s == "" then "0" else if IsDecimalText(s) then s else "NaN"
  }

  /** Number reads a plain digit string as its value, with no fractional part. */
  lemma NumberOfDigits(s: string)
    requires AllDigits(s) && s != ""
    ensures IsDecimalText(s) && NumberOfString(s) == Finite(Value(s), true)
  {
    DigitsExclude(s, '.');
    SplitPiece(s, [], '.');
    assert IsDigit(s[0]);
  }

  /** Digits on both sides of one point split into exactly those two pieces. */
  lemma SplitPoint(i: string, f: string)
    requires AllDigits(i) && AllDigits(f)
    ensures Split(i + "." + f, '.') == [i, f]
  {
    DigitsExclude(i, '.');
    DigitsExclude(f, '.');
    SplitPiece(i, f, '.');
    SplitPiece(f, [], '.');
    assert i + "." + f == i + ['.'] + f;
  }

  /** Number reads `i.f` as the whole part `i`, integral exactly when the fraction is zero. */
  lemma NumberOfDecimal(i: string, f: string)
    requires AllDigits(i) && AllDigits(f) && (i != "" || f != "")
    ensures IsDecimalText(i + "." + f) && NumberOfString(i + "." + f) == Finite(Value(i), Value(f) == 0)
  {
    SplitPoint(i, f);
    if i != "" {
      assert IsDigit(i[0]) && (i + "." + f)[0] == i[0];
    }
  }

  /** Number reads `-i.f` as the negation of `i.f`. */
  lemma NumberOfNegativeDecimal(i: string, f: string)
    requires AllDigits(i) && AllDigits(f) && (i != "" || f != "")
    ensures IsDecimalText("-" + i + "." + f) && NumberOfString("-" + i + "." + f) == Finite(-(Value(i) as int), Value(f) == 0)
  {
    SplitPoint(i, f);
    assert ("-" + i + "." + f)[1..] == i + "." + f;
  }

  /** Number reads back every whole number `String` writes. */
  lemma NumberOfIntText(n: int)
    ensures IsDecimalText(IntText(n)) && NumberOfString(IntText(n)) == Finite(n, true)
  {
    var m: nat := if n < 0 then -n else n;
    NumberOfDigits(NatText(m));
    if n < 0 {
      assert IntText(n)[1..] == NatText(m);
    }
  }

  /** Whenever `Number(j)` is finite, `String(Number(j))` is a decimal numeral that Number reads
      as the same value. */
  lemma NumberTextRoundTrip(j: Json)
    ensures NumberOf(j).Finite? ==> IsDecimalText(NumberText(j)) && NumberOfString(NumberText(j)) == NumberOf(j)
  {
    match j
    case Undefined =>
    case Null => NumberOfDigits("0");
    case Bool(b) => NumberOfDigits("0"); NumberOfDigits("1");
    case Num(n) => NumberOfIntText(n);
    case Str(s) => NumberOfDigits("0");
  }

  // ---------------------------------------------------------------------------------------
  // Whole-number parsers

  /** `new BN(t)` of bn.js in base 10: an optional leading '-', then digits; the empty digit
      string reads as 0; any other character throws. */
  function ParseBN(t: string): (r: Result<int>)
  {
    var neg := |t| > 0 && t[0] == '-';
    var digits := if neg then t[1..] else t;
    if AllDigits(digits) then Ok(if neg then -(Value(digits) as int) else Value(digits))
    else Err("Invalid character")
  }

  /** bn.js reads a plain digit string as its value. */
  lemma ParseBNDigits(t: string)
    requires AllDigits(t)
    ensures ParseBN(t) == Ok(Value(t))
  {
    assert |t| > 0 ==> IsDigit(t[0]);
  }

  /** bn.js reads back every whole number `String` writes. */
  lemma ParseBNIntText(n: int)
    ensures ParseBN(IntText(n)) == Ok(n)
  {
    if n < 0 {
      assert IntText(n)[1..] == NatText(-n);
    }
  }

  /** `BigInt(t)` for the strings it is given here, which hold no whitespace and no radix
      prefix: an optional sign, then at least one digit; "" is 0n; anything else throws a
      SyntaxError. */
  function ParseBigInt(t: string): (r: Result<int>)
    ensures AllDigits(t) ==> r == Ok(Value(t))
    ensures '.' in t ==> r.Err?
  {
    if t == "" then Ok(0)
    else
      var signed := t[0] == '-' || t[0] == '+';
      var digits := if signed then t[1..] else t;
      if digits != "" && AllDigits(digits) then Ok(if t[0] == '-' then -(Value(digits) as int) else Value(digits))
      else Err("Cannot convert " + t + " to a BigInt")
  }

  /** BigInt reads back every whole number `String` writes. */
  lemma ParseBigIntIntText(n: int)
    ensures ParseBigInt(IntText(n)) == Ok(n)
  {
    if n < 0 {
      assert IntText(n)[1..] == NatText(-n);
    }
  }
}
