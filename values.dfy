/** The values the stack machine pushes, and the Python operators it applies to them.

    The machine only ever pushes Python ints (from integer tokens and arithmetic),
    strs (quoted literals, `read`, `cast_str`) and bools (from `==`); a float token is
    never pushed. Python ints are unbounded, so `int` is used without a width. */
module Values {

  datatype Option<+T> = None | Some(value: T)

  datatype Value = VInt(i: int) | VStr(s: string) | VBool(b: bool)

  /** The exceptions an operator raises, named after what they mean for the machine. */
  datatype Error =
    | StackUnderflow     // IndexError: pop from an empty list
    | EmptyToken         // IndexError: opcode[0] of an empty string token
    | TypeMismatch       // TypeError: operand types the Python operator rejects
    | ZeroDivision       // ZeroDivisionError: `%` by zero
    | CastFailure        // ValueError: int() of a string that is not an integer literal
    | InvalidJumpTarget  // RuntimeError raised by jmp
    | EndOfInput         // EOFError: read with no line left

  datatype Result<+T> = Ok(value: T) | Err(error: Error)

  /** Python's view of a value as an int: bool is a subclass of int, True is 1. */
  function AsInt(v: Value): Option<int>
  {
    match v
    case VInt(n) => Some(n)
    case VBool(b) => Some(if b then 1 else 0)
    case VStr(_) => None
  }

  /** Python truthiness, as `if cond:` tests it. */
  predicate Truthy(v: Value)
  {
    match v
    case VInt(n) => n != 0
    case VStr(s) => s != ""
    case VBool(b) => b
  }

  /** Python's `a // b` on ints: the quotient rounded towards minus infinity. */
  function FloorDiv(a: int, b: int): int
    requires b != 0
  {
    if b < 0 && a % b != 0 then a / b - 1 else a / b
  }

  /** Python's `a % b` on ints: the remainder takes the sign of the divisor
      (Dafny's own `%` is Euclidean and never negative), and together with
      `a // b` it satisfies Python's identity a == (a // b) * b + a % b. */
  function FloorMod(a: int, b: int): (r: int)
    requires b != 0
    ensures b > 0 ==> 0 <= r < b
    ensures b < 0 ==> b < r <= 0
    ensures a == FloorDiv(a, b) * b + r
  {
    var e := a % b;
    assert a == (a / b) * b + e;
    if b < 0 && e != 0 then
      assert (a / b - 1) * b == (a / b) * b - b;
      e + b
    else e
  }

  /** `s * n` for a Python str: n copies of s, empty when n is not positive. */
  function Repeat(s: string, n: int): (r: string)
    ensures n <= 0 ==> r == ""
    ensures n > 0 ==> |r| == n * |s| && r[..|s|] == s
    decreases n
  {
    if n <= 0 then "" else s + Repeat(s, n - 1)
  }

  /** One copy is the string itself. */
  lemma RepeatOne(s: string)
    ensures Repeat(s, 1) == s
  {
    assert Repeat(s, 0) == "";
  }

  lemma RepeatUnfold(s: string, k: int)
    requires k > 0
    ensures Repeat(s, k) == s + Repeat(s, k - 1)
  {
  }

  /** `s * (m + n)` is `s * m` followed by `s * n`; with RepeatOne, `s * n` is
      n copies of s laid end to end. */
  lemma {:induction false} RepeatAdd(s: string, m: nat, n: nat)
    ensures Repeat(s, m + n) == Repeat(s, m) + Repeat(s, n)
    decreases m
  {
    if m == 0 {
      assert Repeat(s, m) == "";
    } else {
      var rest, tail := Repeat(s, m - 1), Repeat(s, n);
      RepeatAdd(s, m - 1, n);
      RepeatUnfold(s, m + n);
      RepeatUnfold(s, m);
      assert s + (rest + tail) == (s + rest) + tail;
    }
  }

  /** `v1 + v2`: int addition (bools count as ints) or str concatenation. */
  function PyAdd(v1: Value, v2: Value): Result<Value>
  {
    if v1.VStr? && v2.VStr? then Ok(VStr(v1.s + v2.s))
    else if AsInt(v1).Some? && AsInt(v2).Some? then Ok(VInt(AsInt(v1).value + AsInt(v2).value))
    else Err(TypeMismatch)
  }

  /** `v1 - v2`: int subtraction only. */
  function PySub(v1: Value, v2: Value): Result<Value>
  {
    if AsInt(v1).Some? && AsInt(v2).Some? then Ok(VInt(AsInt(v1).value - AsInt(v2).value))
    else Err(TypeMismatch)
  }

  /** `v1 * v2`: int product, or a str repeated an int number of times (either order). */
  function PyMul(v1: Value, v2: Value): Result<Value>
  {
    if AsInt(v1).Some? && AsInt(v2).Some? then Ok(VInt(AsInt(v1).value * AsInt(v2).value))
    else if v1.VStr? && AsInt(v2).Some? then Ok(VStr(Repeat(v1.s, AsInt(v2).value)))
    else if AsInt(v1).Some? && v2.VStr? then Ok(VStr(Repeat(v2.s, AsInt(v1).value)))
    else Err(TypeMismatch)
  }

  /** `v1 % v2`: floor modulo on ints; a str on the left is printf-style formatting,
      which is not modelled and reads as a type error. */
  function PyModulo(v1: Value, v2: Value): Result<Value>
  {
    if AsInt(v1).Some? && AsInt(v2).Some? then
      if AsInt(v2).value == 0 then Err(ZeroDivision)
      else Ok(VInt(FloorMod(AsInt(v1).value, AsInt(v2).value)))
    else Err(TypeMismatch)
  }

  /** `v1 == v2`: numeric comparison across int and bool, string comparison
      between strs, and False between a str and anything else. */
  function PyEq(v1: Value, v2: Value): (r: bool)
    ensures v1.VStr? || v2.VStr? ==> (r <==> v1 == v2)
    ensures v1.VInt? && v2.VInt? ==> (r <==> v1 == v2)
    ensures v1.VBool? && v2.VBool? ==> (r <==> v1 == v2)
    ensures v1.VBool? && v2.VInt? ==> (r <==> v2.i == (if v1.b then 1 else 0))
    ensures v1.VInt? && v2.VBool? ==> (r <==> v1.i == (if v2.b then 1 else 0))
  {
    if AsInt(v1).Some? && AsInt(v2).Some? then AsInt(v1) == AsInt(v2)
    else v1.VStr? && v2.VStr? && v1.s == v2.s
  }

  predicate IsDigit(c: char)
  {
    '0' <= c <= '9'
  }

  predicate AllDigits(s: string)
  {
    forall k :: 0 <= k < |s| ==> IsDigit(s[k])
  }

  function DigitChar(d: nat): (c: char)
    requires d < 10
    ensures IsDigit(c) && c as int - '0' as int == d
  {
    ('0' as int + d) as char
  }

  /** The decimal digits of n, most significant first, without leading zeros. */
  function Digits(n: nat): (s: string)
    ensures 1 <= |s| && AllDigits(s)
    ensures n == 0 <==> s == "0"
    ensures |s| > 1 ==> s[0] != '0'
  {
    if n < 10 then [DigitChar(n)] else Digits(n / 10) + [DigitChar(n % 10)]
  }

  /** The number a string of decimal digits denotes (leading zeros allowed). */
  function DigitsValue(s: string): nat
    requires AllDigits(s)
  {
    if s == [] then 0 else DigitsValue(s[..|s| - 1]) * 10 + (s[|s| - 1] as int - '0' as int)
  }

  /** `str(n)` for an int. */
  function DecimalString(n: int): string
  {
    if n < 0 then "-" + Digits(-n) else Digits(n)
  }

  /** `int(s)` for a str: an optional sign followed by at least one decimal digit. */
  function ParseInt(s: string): Option<int>
  {
    if |s| >= 2 && (s[0] == '-' || s[0] == '+') && AllDigits(s[1..]) then
      Some(if s[0] == '-' then -(DigitsValue(s[1..]) as int) else DigitsValue(s[1..]))
    else if |s| >= 1 && AllDigits(s) then Some(DigitsValue(s))
    else None
  }

  /** `str(v)`, which is also the text `print` writes for v (f"{v}"). */
  function Str(v: Value): string
  {
    match v
    case VInt(n) => DecimalString(n)
    case VStr(s) => s
    case VBool(b) => if b then "True" else "False"
  }

  /** `int(v)`: ints stay, bools become 0 or 1, strs are parsed. */
  function IntOf(v: Value): (r: Result<Value>)
    ensures r.Ok? ==> r.value.VInt?
    ensures r.Err? ==> r.error == CastFailure && v.VStr?
    ensures v.VInt? ==> r == Ok(v)
  {
    match v
    case VInt(_) => Ok(v)
    case VBool(b) => Ok(VInt(if b then 1 else 0))
    case VStr(s) =>
      match ParseInt(s)
      case Some(n) => Ok(VInt(n))
      case None => Err(CastFailure)
  }

  lemma {:induction false} DigitsValueAppend(s: string, c: char)
    requires AllDigits(s) && IsDigit(c)
    ensures AllDigits(s + [c])
    ensures DigitsValue(s + [c]) == DigitsValue(s) * 10 + (c as int - '0' as int)
  {
    assert (s + [c])[..|s + [c]| - 1] == s;
  }

  /** Reading back the digits of n gives n. */
  lemma {:induction false} DigitsRoundTrip(n: nat)
    ensures DigitsValue(Digits(n)) == n
  {
    if n >= 10 {
      DigitsRoundTrip(n / 10);
      DigitsValueAppend(Digits(n / 10), DigitChar(n % 10));
    }
  }

  /** `int(str(n)) == n` for every int n: the cast pair round-trips. */
  lemma CastRoundTrip(n: int)
    ensures ParseInt(DecimalString(n)) == Some(n)
    ensures IntOf(VStr(Str(VInt(n)))) == Ok(VInt(n))
  {
    if n < 0 {
      var d := Digits(-n);
      assert ("-" + d)[1..] == d;
      DigitsRoundTrip(-n);
    } else {
      DigitsRoundTrip(n);
    }
  }

  /** `int(str(True))` fails: str renders a bool as a word, which int() rejects. */
  lemma BoolCastFails(b: bool)
    ensures IntOf(VStr(Str(VBool(b)))) == Err(CastFailure)
  {
    var s := Str(VBool(b));
    assert !IsDigit(s[0]) && s[0] != '-' && s[0] != '+';
    assert !AllDigits(s);
  }
}
