/**
 * The dynamic values the Python code passes around (decoded JSON, request
 * bodies, configuration dictionaries, event payloads), with the handful of
 * built-in operations the core applies to them: truthiness, `dict.get`,
 * subscripting, `int(...)`, `sum(...)` and `max(set(xs), key=xs.count)`.
 */
module PyValues {
  import opened Wrappers

  /** A JSON-shaped Python value. Dictionaries are finite maps: key order is not kept. */
  datatype Value =
    | VNull
    | VBool(b: bool)
    | VInt(i: int)
    | VReal(r: real)
    | VStr(s: string)
    | VList(items: seq<Value>)
    | VObj(fields: map<string, Value>)

  /** A raised Python exception: its class name and its `str(...)`. */
  datatype Exc = Exc(kind: string, message: string)

  /** Python's `bool(v)`. */
  predicate Truthy(v: Value) {
    match v
    case VNull => false
    case VBool(b) => b
    case VInt(i) => i != 0
    case VReal(r) => r != 0.0
    case VStr(s) => s != []
    case VList(xs) => xs != []
    case VObj(m) => m != map[]
  }

  /** Python's `type(v).__name__`. */
  function TypeName(v: Value): string {
    match v
    case VNull => "NoneType"
    case VBool(_) => "bool"
    case VInt(_) => "int"
    case VReal(_) => "float"
    case VStr(_) => "str"
    case VList(_) => "list"
    case VObj(_) => "dict"
  }

  function AttributeError(v: Value, attr: string): Exc {
    Exc("AttributeError", "'" + TypeName(v) + "' object has no attribute '" + attr + "'")
  }

  function Repr(s: string): string { "'" + s + "'" }

  /** `v.get(key, default)`: only a dict has `get`. */
  function Get(v: Value, key: string, default: Value): (r: Result<Value, Exc>)
    ensures r.Ok? <==> v.VObj?
    ensures v.VObj? && key in v.fields ==> r == Ok(v.fields[key])
    ensures v.VObj? && key !in v.fields ==> r == Ok(default)
  {
    match v
    case VObj(m) => Ok(if key in m then m[key] else default)
    case _ => Err(AttributeError(v, "get"))
  }

  /** `v[key]` with a string key. */
  function Index(v: Value, key: string): (r: Result<Value, Exc>)
    ensures r.Ok? <==> v.VObj? && key in v.fields
    ensures r.Ok? ==> r.value == v.fields[key]
  {
    match v
    case VObj(m) => if key in m then Ok(m[key]) else Err(Exc("KeyError", Repr(key)))
    case VList(_) => Err(Exc("TypeError", "list indices must be integers or slices, not str"))
    case VStr(_) => Err(Exc("TypeError", "string indices must be integers, not 'str'"))
    case _ => Err(Exc("TypeError", "'" + TypeName(v) + "' object is not subscriptable"))
  }

  /** Values Python can put in a set (lists and dicts are unhashable). */
  predicate Hashable(v: Value) {
    !v.VList? && !v.VObj?
  }

  /** The number a value contributes to `sum(...)`, if it is a number. */
  function Numeric(v: Value): Option<real> {
    match v
    case VBool(b) => Some(if b then 1.0 else 0.0)
    case VInt(i) => Some(i as real)
    case VReal(r) => Some(r)
    case _ => None
  }

  /**
   * The smallest magnitude an int can have and still round to infinity as a
   * float: `2**1024 - 2**970`, half-way between the largest float
   * (`2**1024 - 2**971`) and `2**1024`, rounded up because the largest float's
   * last mantissa bit is odd.
   */
  const FloatOverflow: nat := 0xffff_ffff_ffff_fc00_0000_0000_0000_0000_0000_0000_0000_0000_0000_0000_0000_0000_0000_0000_0000_0000_0000_0000_0000_0000_0000_0000_0000_0000_0000_0000_0000_0000_0000_0000_0000_0000_0000_0000_0000_0000_0000_0000_0000_0000_0000_0000_0000_0000_0000_0000_0000_0000_0000_0000_0000_0000_0000_0000_0000_0000_0000_0000_0000_0000

  /** `float(n)` raises `OverflowError` for an int this large. */
  predicate TooLargeForFloat(n: int) {
    n >= FloatOverflow || -n >= FloatOverflow
  }

  function IntToFloatError(): Exc {
    Exc("OverflowError", "int too large to convert to float")
  }

  /** The exact sum of the numbers in `xs`; anything else counts as 0. */
  function ExactSum(xs: seq<Value>): real {
    if xs == [] then 0.0 else Numeric(xs[0]).GetOr(0.0) + ExactSum(xs[1..])
  }

  /**
   * `acc + x` for an int or float `acc`: ints and bools add exactly; an int
   * meeting a float is converted to a float first, which fails when it is too
   * large; any other `x` is refused.
   */
  function SumStep(acc: Value, x: Value): Result<Value, Exc> {
    match (acc, x)
    case (VInt(a), VInt(k)) => Ok(VInt(a + k))
    case (VInt(a), VBool(b)) => Ok(VInt(a + if b then 1 else 0))
    case (VInt(a), VReal(f)) => if TooLargeForFloat(a) then Err(IntToFloatError()) else Ok(VReal(a as real + f))
    case (VReal(f), VInt(k)) => if TooLargeForFloat(k) then Err(IntToFloatError()) else Ok(VReal(f + k as real))
    case (VReal(f), VBool(b)) => Ok(VReal(f + if b then 1.0 else 0.0))
    case (VReal(f), VReal(g)) => Ok(VReal(f + g))
    case _ => Err(Exc("TypeError", "unsupported operand type(s) for +: '" + TypeName(acc) + "' and '" + TypeName(x) + "'"))
  }

  /** Adding the elements of `xs` to `acc`, left to right. */
  function SumFrom(acc: Value, xs: seq<Value>): (r: Result<Value, Exc>)
    requires acc.VInt? || acc.VReal?
    ensures r.Ok? ==> forall i | 0 <= i < |xs| :: Numeric(xs[i]).Some?
    ensures r.Ok? ==> (r.value.VInt? || r.value.VReal?) && Numeric(r.value) == Some(Numeric(acc).value + ExactSum(xs))
    ensures r.Ok? ==> (r.value.VInt? <==> acc.VInt? && forall i | 0 <= i < |xs| :: !xs[i].VReal?)
    ensures acc.VInt? && (forall i | 0 <= i < |xs| :: xs[i].VInt? || xs[i].VBool?) ==> r.Ok?
    ensures r.Err? ==> r.error.kind == "TypeError" || r.error.kind == "OverflowError"
    ensures r.Err? && r.error.kind == "TypeError" ==> exists i | 0 <= i < |xs| :: Numeric(xs[i]).None?
    ensures r.Err? && r.error.kind == "OverflowError" ==> acc.VReal? || exists i | 0 <= i < |xs| :: xs[i].VReal?
    decreases |xs|
  {
    if xs == [] then Ok(acc)
    else
      assert forall i | 1 <= i < |xs| :: xs[i] == xs[1..][i - 1];
      match SumStep(acc, xs[0])
      case Err(e) => Err(e)
      case Ok(next) => SumFrom(next, xs[1..])
  }

  /** `sum(xs)`: starts from the int 0 and adds left to right. */
  function Sum(xs: seq<Value>): (r: Result<Value, Exc>)
    ensures r.Ok? ==> forall i | 0 <= i < |xs| :: Numeric(xs[i]).Some?
    ensures r.Ok? ==> (r.value.VInt? || r.value.VReal?) && Numeric(r.value) == Some(ExactSum(xs))
    ensures r.Ok? ==> (r.value.VInt? <==> forall i | 0 <= i < |xs| :: !xs[i].VReal?)
    ensures (forall i | 0 <= i < |xs| :: xs[i].VInt? || xs[i].VBool?) ==> r.Ok?
    ensures r.Err? ==> r.error.kind == "TypeError" || r.error.kind == "OverflowError"
    ensures r.Err? && r.error.kind == "TypeError" ==> exists i | 0 <= i < |xs| :: Numeric(xs[i]).None?
    ensures r.Err? && r.error.kind == "OverflowError" ==> exists i | 0 <= i < |xs| :: xs[i].VReal?
  {
    SumFrom(VInt(0), xs)
  }

  /** An int too large for a float, followed by a float, makes `sum` raise `OverflowError`. */
  lemma HugeIntThenFloatOverflows(n: int, f: real)
    requires TooLargeForFloat(n)
    ensures Sum([VInt(n), VReal(f)]) == Err(IntToFloatError())
  {
    var xs := [VInt(n), VReal(f)];
    assert xs[1..] == [VReal(f)] && xs[1..][1..] == [];
    assert SumStep(VInt(0), VInt(n)) == Ok(VInt(n));
    assert SumStep(VInt(n), VReal(f)) == Err(IntToFloatError());
    assert SumFrom(VInt(n), xs[1..]) == Err(IntToFloatError());
  }

  function SumInts(xs: seq<int>): int {
    if xs == [] then 0 else xs[0] + SumInts(xs[1..])
  }

  predicate IsSpace(c: char) {
    c == ' ' || c == '\t' || c == '\n' || c == '\r' || c == '\U{000B}' || c == '\U{000C}'
  }

  predicate IsDigit(c: char) { '0' <= c <= '9' }

  /** The end of `s[..j]` once trailing blanks are dropped. */
  function TrimmedEnd(s: string, j: nat): (e: nat)
    requires j <= |s|
    ensures e <= j && (e > 0 ==> !IsSpace(s[e - 1]))
  {
    if j > 0 && IsSpace(s[j - 1]) then TrimmedEnd(s, j - 1) else j
  }

  /** The start of `s[i..e]` once leading blanks are dropped. */
  function TrimmedStart(s: string, i: nat, e: nat): (b: nat)
    requires i <= e <= |s|
    ensures i <= b <= e && (b < e ==> !IsSpace(s[b]))
    decreases e - i
  {
    if i < e && IsSpace(s[i]) then TrimmedStart(s, i + 1, e) else i
  }

  /** `s.strip()`: `s` without its leading and trailing blanks. */
  function Strip(s: string): (t: string)
    ensures |t| <= |s|
    ensures t != [] ==> !IsSpace(t[0]) && !IsSpace(t[|t| - 1])
  {
    var e := TrimmedEnd(s, |s|);
    s[TrimmedStart(s, 0, e)..e]
  }

  /** What `strip` drops from either end is blanks only. */
  lemma StripDropsOnlyBlanks(s: string)
    ensures var e := TrimmedEnd(s, |s|);
            var b := TrimmedStart(s, 0, e);
            && Strip(s) == s[b..e]
            && (forall k | 0 <= k < b :: IsSpace(s[k]))
            && (forall k | e <= k < |s| :: IsSpace(s[k]))
  {
    TrailingBlanks(s, |s|);
    LeadingBlanks(s, 0, TrimmedEnd(s, |s|));
  }

  lemma {:induction false} TrailingBlanks(s: string, j: nat)
    requires j <= |s|
    ensures forall k | TrimmedEnd(s, j) <= k < j :: IsSpace(s[k])
  {
    if j > 0 && IsSpace(s[j - 1]) {
      TrailingBlanks(s, j - 1);
    }
  }

  lemma {:induction false} LeadingBlanks(s: string, i: nat, e: nat)
    requires i <= e <= |s|
    ensures forall k | i <= k < TrimmedStart(s, i, e) :: IsSpace(s[k])
    decreases e - i
  {
    if i < e && IsSpace(s[i]) {
      LeadingBlanks(s, i + 1, e);
    }
  }

  function DigitValue(c: char): nat
    requires IsDigit(c)
  {
    (c as int) - ('0' as int)
  }

  /** The value of a non-empty run of decimal digits. */
  function DigitsValue(ds: string): nat
    requires forall i | 0 <= i < |ds| :: IsDigit(ds[i])
  {
    if ds == [] then 0
    else DigitsValue(ds[..|ds| - 1]) * 10 + DigitValue(ds[|ds| - 1])
  }

  /**
   * The digits `int()` accepts after the sign, `digit (["_"] digit)*`:
   * decimal digits, with single underscores allowed between two of them.
   */
  predicate IsDigitGroups(b: string) {
    && b != [] && IsDigit(b[0])
    && (|b| == 1 || IsDigitGroups(if b[1] == '_' then b[2..] else b[1..]))
  }

  /** The digits of a digit-group string, underscores removed. */
  function GroupDigits(b: string): (ds: string)
    requires IsDigitGroups(b)
    ensures ds != [] && forall i | 0 <= i < |ds| :: IsDigit(ds[i])
  {
    if |b| == 1 then [b[0]]
    else
      var rest := GroupDigits(if b[1] == '_' then b[2..] else b[1..]);
      assert forall i | 1 <= i < |rest| + 1 :: ([b[0]] + rest)[i] == rest[i - 1];
      [b[0]] + rest
  }

  /** The text after an optional leading sign. */
  function Unsigned(t: string): string {
    if t != [] && (t[0] == '-' || t[0] == '+') then t[1..] else t
  }

  /** The `ValueError` that `int(s)` raises for a string it cannot read. */
  function InvalidLiteral(s: string): Exc {
    Exc("ValueError", "invalid literal for int() with base 10: " + Repr(s))
  }

  /** CPython's default `int_max_str_digits`: the most decimal digits `int()` and `str()` convert. */
  const MaxStrDigits: nat := 4300

  /** The `ValueError` `int(s)` raises for a number of more than `MaxStrDigits` digits. */
  function DigitLimitError(digits: nat): Exc {
    Exc("ValueError", "Exceeds the limit (4300 digits) for integer string conversion: value has "
                      + NatToString(digits) + " digits; use sys.set_int_max_str_digits() to increase the limit")
  }

  /**
   * `int(s)` for a string: surrounding blanks, an optional sign, digit groups
   * in base 10, and at most `MaxStrDigits` digits (underscores not counted).
   */
  function ParseInt(s: string): (r: Result<int, Exc>)
    ensures r.Ok? <==> IsDigitGroups(Unsigned(Strip(s))) && |GroupDigits(Unsigned(Strip(s)))| <= MaxStrDigits
    ensures r.Err? ==> r.error.kind == "ValueError"
    ensures IsDigitGroups(Unsigned(Strip(s))) && |GroupDigits(Unsigned(Strip(s)))| > MaxStrDigits ==>
              r == Err(DigitLimitError(|GroupDigits(Unsigned(Strip(s)))|))
    ensures r.Ok? ==> var t := Strip(s);
                      var n: int := DigitsValue(GroupDigits(Unsigned(t)));
                      r.value == if t[0] == '-' then -n else n
  {
    var t := Strip(s);
    var body := Unsigned(t);
    if IsDigitGroups(body) then
      var ds := GroupDigits(body);
      if |ds| > MaxStrDigits then Err(DigitLimitError(|ds|))
      else
        var n: int := DigitsValue(ds);
        Ok(if t[0] == '-' then -n else n)
    else Err(InvalidLiteral(s))
  }

  function DigitChar(d: nat): (c: char)
    requires d < 10
    ensures IsDigit(c) && DigitValue(c) == d
  {
    (('0' as int) + d) as char
  }

  /** `str(n)` for a natural number: its decimal digits, most significant first. */
  function NatToString(n: nat): (s: string)
    ensures s != [] && forall i | 0 <= i < |s| :: IsDigit(s[i])
  {
    if n < 10 then [DigitChar(n)] else NatToString(n / 10) + [DigitChar(n % 10)]
  }

  /** `str(n)` for an integer. */
  function IntToString(n: int): string {
    if n < 0 then "-" + NatToString(-n) else NatToString(n)
  }

  lemma {:induction false} NatToStringValue(n: nat)
    ensures DigitsValue(NatToString(n)) == n
  {
    if n >= 10 {
      var s := NatToString(n);
      assert s[..|s| - 1] == NatToString(n / 10);
      NatToStringValue(n / 10);
    }
  }

  /** A run of digits is a digit-group string of one group, and is its own digits. */
  lemma {:induction false} DigitsAreOneGroup(s: string)
    requires s != [] && forall i | 0 <= i < |s| :: IsDigit(s[i])
    ensures IsDigitGroups(s) && GroupDigits(s) == s
  {
    if |s| > 1 {
      DigitsAreOneGroup(s[1..]);
      assert [s[0]] + s[1..] == s;
    }
  }

  /** Trimming leaves a string alone when neither end is a blank. */
  lemma NoBlankEnds(s: string)
    requires s != [] && !IsSpace(s[0]) && !IsSpace(s[|s| - 1])
    ensures Strip(s) == s
  {
    assert TrimmedEnd(s, |s|) == |s|;
    assert TrimmedStart(s, 0, |s|) == 0;
    assert s[0..|s|] == s;
  }

  /** Digits, with or without a minus sign in front, have no blanks to trim. */
  lemma SignedDigitsUntrimmed(sign: string, digits: string)
    requires sign == "" || sign == "-"
    requires digits != [] && forall i | 0 <= i < |digits| :: IsDigit(digits[i])
    ensures Strip(sign + digits) == sign + digits
  {
    var s := sign + digits;
    assert s[|s| - 1] == digits[|digits| - 1];
    assert s[0] == if sign == "" then digits[0] else '-';
    NoBlankEnds(s);
  }

  /** Digit groups after an optional minus sign, with no blanks around them, read as their signed value. */
  lemma SignedGroupsRead(sign: string, b: string)
    requires sign == "" || sign == "-"
    requires IsDigitGroups(b) && Strip(sign + b) == sign + b
    requires |GroupDigits(b)| <= MaxStrDigits
    ensures ParseInt(sign + b) == Ok(if sign == "-" then -(DigitsValue(GroupDigits(b)) as int) else DigitsValue(GroupDigits(b)))
  {
    var s := sign + b;
    if sign == "-" {
      assert Unsigned(s) == b;
    } else {
      assert s == b && s[0] != '-' && s[0] != '+';
    }
  }

  /**
   * `int(str(n)) == n`: the decimal form of every integer `str` can convert
   * (at most `MaxStrDigits` digits) reads back as that integer.
   */
  lemma ParseIntOfString(n: int)
    requires |NatToString(if n < 0 then -n else n)| <= MaxStrDigits
    ensures ParseInt(IntToString(n)) == Ok(n)
  {
    var m: nat := if n < 0 then -n else n;
    var sign := if n < 0 then "-" else "";
    var digits := NatToString(m);
    assert IntToString(n) == sign + digits;
    SignedDigitsUntrimmed(sign, digits);
    DigitsAreOneGroup(digits);
    SignedGroupsRead(sign, digits);
    NatToStringValue(m);
  }

  /** A run of more than `MaxStrDigits` digits is refused with the digit-limit error, not read. */
  lemma LongDigitRunRefused(ds: string)
    requires |ds| > MaxStrDigits && forall i | 0 <= i < |ds| :: IsDigit(ds[i])
    ensures ParseInt(ds) == Err(DigitLimitError(|ds|))
  {
    NoBlankEnds(ds);
    assert Unsigned(ds) == ds;
    DigitsAreOneGroup(ds);
  }

  /** Underscores between digit groups are accepted and ignored: `int("1_000") == 1000`. */
  lemma UnderscoreGroupsExample()
    ensures ParseInt("1_000") == Ok(1000)
  {
    var s := "1_000";
    NoBlankEnds(s);
    assert Unsigned(s) == s;
    assert s[2..] == "000";
    DigitsAreOneGroup("000");
    assert GroupDigits(s) == "1000";
    assert DigitsValue("1000") == 1000 by {
      assert "1000"[..3] == "100" && "100"[..2] == "10" && "10"[..1] == "1";
    }
  }

  /** An underscore that does not sit between two digits is refused. */
  lemma MisplacedUnderscoresRefused(s: string)
    requires s == "1__000" || s == "_1" || s == "1_"
    ensures ParseInt(s).Err?
  {
    NoBlankEnds(s);
    assert Unsigned(s) == s;
    if s == "1__000" {
      assert s[1] == '_' && s[2..] == "_000" && !IsDigitGroups(s[2..]);
    } else if s == "1_" {
      assert s[1] == '_' && s[2..] == [] && !IsDigitGroups(s[2..]);
    }
  }

  /** Rounds toward zero, as Python's `int(x)` does for a float. */
  function TruncateReal(x: real): (n: int)
    ensures x >= 0.0 ==> 0 <= n && (n as real) <= x < (n as real) + 1.0
    ensures x < 0.0 ==> n <= 0 && (n as real) - 1.0 < x <= (n as real)
  {
    if x >= 0.0 then x.Floor else -((-x).Floor)
  }

  /** Python's `int(v)`: floats truncate toward zero. */
  function PyInt(v: Value): (r: Result<int, Exc>)
    ensures v.VInt? ==> r == Ok(v.i)
    ensures v.VReal? ==> r == Ok(TruncateReal(v.r))
    ensures v.VBool? ==> r == Ok(if v.b then 1 else 0)
    ensures v.VStr? ==> r == ParseInt(v.s)
    ensures v.VNull? || v.VList? || v.VObj? ==> r.Err? && r.error.kind == "TypeError"
  {
    match v
    case VBool(b) => Ok(if b then 1 else 0)
    case VInt(i) => Ok(i)
    case VReal(x) => Ok(TruncateReal(x))
    case VStr(s) => ParseInt(s)
    case _ =>
      Err(Exc("TypeError", "int() argument must be a string, a bytes-like object or a real number, not "
                           + Repr(TypeName(v))))
  }

  /** `xs.count(v)`. */
  function Count<T(==)>(xs: seq<T>, v: T): nat {
    if xs == [] then 0 else (if xs[0] == v then 1 else 0) + Count(xs[1..], v)
  }

  /** `m` occurs in `xs` and no value occurs more often: what `max(set(xs), key=xs.count)` returns. */
  ghost predicate IsMode<T>(xs: seq<T>, m: T) {
    m in xs && forall y | y in xs :: Count(xs, y) <= Count(xs, m)
  }

  /** A value with a positive count occurs in the list. */
  lemma {:induction false} CountedOccurs<T>(xs: seq<T>, v: T)
    requires Count(xs, v) > 0
    ensures v in xs
  {
    if xs[0] != v {
      CountedOccurs(xs[1..], v);
    }
  }

  /** Two different values together occur no more often than the list is long. */
  lemma {:induction false} CountsOfTwo<T>(xs: seq<T>, a: T, b: T)
    requires a != b
    ensures Count(xs, a) + Count(xs, b) <= |xs|
  {
    if xs != [] {
      CountsOfTwo(xs[1..], a, b);
    }
  }

  /** A value held by a strict majority of the list is its only mode. */
  lemma MajorityIsOnlyMode<T>(xs: seq<T>, b: T, m: T)
    requires Count(xs, b) * 2 > |xs|
    requires IsMode(xs, m)
    ensures m == b
  {
    CountedOccurs(xs, b);
    if m != b {
      CountsOfTwo(xs, m, b);
    }
  }

  /**
   * `max(set(xs), key=xs.count)`: walks the set in an order the model leaves
   * open and keeps the first element of greatest count, so any mode may win.
   */
  method MostCommon<T(==)>(xs: seq<T>) returns (m: T)
    requires xs != []
    ensures IsMode(xs, m)
  {
    var pending := set x | x in xs;
    assert xs[0] in pending;
    m :| m in pending;
    pending := pending - {m};
    while pending != {}
      invariant m in xs
      invariant forall y | y in pending :: y in xs
      invariant forall y | y in xs && y !in pending :: Count(xs, y) <= Count(xs, m)
      decreases |pending|
    {
      var x :| x in pending;
      if Count(xs, x) > Count(xs, m) {
        m := x;
      }
      pending := pending - {x};
    }
  }

  /** `list(d.keys())`: every key once, in an order the model leaves open. */
  method KeyList(d: map<string, Value>) returns (ks: seq<string>)
    ensures forall k :: k in ks <==> k in d
    ensures forall i, j | 0 <= i < j < |ks| :: ks[i] != ks[j]
  {
    ks := [];
    var pending := d.Keys;
    while pending != {}
      invariant forall k :: k in d <==> k in ks || k in pending
      invariant forall k | k in ks :: k !in pending
      invariant forall i, j | 0 <= i < j < |ks| :: ks[i] != ks[j]
      decreases |pending|
    {
      var k :| k in pending;
      ks := ks + [k];
      pending := pending - {k};
    }
  }
}
