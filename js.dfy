/**
 * The parts of JavaScript's built-in semantics that the request handlers rely
 * on: JSON values as Express hands them over, truthiness, `String(v)`,
 * integer-to-string conversion, `parseInt` without a radix and
 * `String.prototype.split` on a one-character separator.
 */
module Js {
  import opened Wrappers

  /**
   * A JSON value as it appears in a parsed request body or query string.
   * Numbers are integers. An object keeps its own members: JSON and query
   * strings never produce a function, so an own `toString` member is never
   * callable, and that decides what `String` does with the object.
   */
  datatype Value =
    | Null
    | Bool(b: bool)
    | Num(n: int)
    | Str(s: string)
    | Arr(items: seq<Value>)
    | Obj(members: map<string, Value>)

  /** Reading a property: a missing key reads as `undefined`, that is `None`. */
  function Get(m: map<string, Value>, key: string): Option<Value> {
    if key in m then Some(m[key]) else None
  }

  /** ToBoolean: `undefined`, `null`, `false`, `0` and `""` are falsy, everything else truthy. */
  predicate Truthy(v: Option<Value>) {
    match v
    case None => false
    case Some(Null) => false
    case Some(Bool(b)) => b
    case Some(Num(n)) => n != 0
    case Some(Str(s)) => s != ""
    case Some(Arr(_)) => true
    case Some(Obj(_)) => true
  }

  /** A number produced by `parseInt`: `NaN` or an integer. `-0` is the integer 0. */
  datatype Number = NaN | Int(i: int) {
    /** `NaN` and `0` are falsy. */
    predicate Truthy() {
      Int? && i != 0
    }
  }

  // ---------------------------------------------------------------------------
  // Integer to string
  // ---------------------------------------------------------------------------

  function DigitChar(d: nat): (c: char)
    requires d < 10
  {
    (d + '0' as int) as char
  }

  /** The decimal digits of `n`, most significant first, with no leading zero. */
  function Digits(n: nat): (s: string)
    ensures |s| >= 1
    ensures forall i :: 0 <= i < |s| ==> '0' <= s[i] <= '9'
    ensures s[0] == '0' ==> n == 0
    decreases n
  {
    if n < 10 then [DigitChar(n)] else Digits(n / 10) + [DigitChar(n % 10)]
  }

  /** `String(n)` for an integer `n`. */
  function Decimal(n: int): string {
    if n < 0 then "-" + Digits(-n) else Digits(n)
  }

  /** `String(v)`; an absent property converts to `"undefined"`. */
  function ToStr(v: Option<Value>): (r: Attempt<string>)
    ensures r.Threw? ==> v.Some? && (v.value.Obj? || v.value.Arr?)
  {
    match v
    case None => Ok("undefined")
    case Some(x) => Show(x)
  }

  /**
   * ToString of a value, which throws a TypeError for an object with an own
   * `toString` member: that member is not callable, and the inherited
   * `valueOf` returns the object itself, so no primitive is found. Any
   * other object gives `"[object Object]"`; an array joins its elements.
   */
  function Show(v: Value): Attempt<string>
    decreases v, 1, 0
  {
    match v
    case Null => Ok("null")
    case Bool(b) => Ok(if b then "true" else "false")
    case Num(n) => Ok(Decimal(n))
    case Str(s) => Ok(s)
    case Arr(_) => JoinElements(v, 0)
    case Obj(members) => if "toString" in members then Threw else Ok("[object Object]")
  }

  /**
   * `Array.prototype.join(",")` from element `i` on; `null` elements give the
   * empty string, and an element whose conversion throws makes the join throw.
   */
  function JoinElements(arr: Value, i: nat): Attempt<string>
    requires arr.Arr? && i <= |arr.items|
    decreases arr, 0, |arr.items| - i
  {
    if i == |arr.items| then Ok("")
    else
      var e := arr.items[i];
      assert e in arr.items;
      match (if e.Null? then Ok("") else Show(e))
      case Threw => Threw
      case Ok(text) =>
        if i + 1 == |arr.items| then Ok(text)
        else
          match JoinElements(arr, i + 1)
          case Threw => Threw
          case Ok(tail) => Ok(text + "," + tail)
  }

  /** `String` throws on an object exactly when it has an own `toString` member. */
  lemma ToStrOfObject(members: map<string, Value>)
    ensures ToStr(Some(Obj(members))).Threw? <==> "toString" in members
    ensures "toString" !in members ==> ToStr(Some(Obj(members))) == Ok("[object Object]")
  {
  }

  /** `String` of an array throws when one of its elements' conversion throws. */
  lemma {:induction false} JoinThrows(arr: Value, i: nat, j: nat)
    requires arr.Arr? && i <= j < |arr.items|
    requires Show(arr.items[j]).Threw?
    ensures JoinElements(arr, i).Threw?
    decreases j - i
  {
    assert arr.items[j] in arr.items;
    if i < j {
      JoinThrows(arr, i + 1, j);
    }
  }

  /** `parseInt(v)`: the value is converted with `String` first, which may throw. */
  function ParseValue(v: Option<Value>): (r: Attempt<Number>)
    ensures r.Threw? <==> ToStr(v).Threw?
  {
    match ToStr(v)
    case Threw => Threw
    case Ok(s) => Ok(ParseInt(s))
  }

  // ---------------------------------------------------------------------------
  // parseInt(string) with no radix argument
  // ---------------------------------------------------------------------------

  /** The WhiteSpace and LineTerminator code points that parseInt skips. */
  predicate IsWhitespace(c: char) {
    c == '\t' || c == '\n' || c == '\U{B}' || c == '\U{C}' || c == '\r' || c == ' '
    || c == '\U{A0}' || c == '\U{1680}' || ('\U{2000}' <= c <= '\U{200A}')
    || c == '\U{2028}' || c == '\U{2029}' || c == '\U{202F}' || c == '\U{205F}'
    || c == '\U{3000}' || c == '\U{FEFF}'
  }

  /** The input with its leading whitespace removed. */
  function TrimStart(s: string): (t: string)
    ensures |t| <= |s| && t == s[|s| - |t|..]
    ensures t == [] || !IsWhitespace(t[0])
    ensures forall i :: 0 <= i < |s| - |t| ==> IsWhitespace(s[i])
  {
    if s != [] && IsWhitespace(s[0]) then TrimStart(s[1..]) else s
  }

  /** A string that starts with anything but whitespace is left as it is. */
  lemma TrimStartKeeps(s: string)
    requires s == [] || !IsWhitespace(s[0])
    ensures TrimStart(s) == s
  {
  }

  /** The value of `c` as a digit of radix up to 36; 36 when `c` is no digit at all. */
  function DigitValue(c: char): nat {
    if '0' <= c <= '9' then c as int - '0' as int
    else if 'a' <= c <= 'z' then c as int - 'a' as int + 10
    else if 'A' <= c <= 'Z' then c as int - 'A' as int + 10
    else 36
  }

  /** The longest prefix of `s` made of digits of the given radix. */
  function DigitPrefix(s: string, radix: nat): (z: string)
    ensures z <= s
    ensures forall i :: 0 <= i < |z| ==> DigitValue(z[i]) < radix
    ensures |z| < |s| ==> DigitValue(s[|z|]) >= radix
  {
    if s == [] || DigitValue(s[0]) >= radix then [] else [s[0]] + DigitPrefix(s[1..], radix)
  }

  /** The number a digit string denotes in the given radix. */
  function Magnitude(z: string, radix: nat): nat {
    if z == [] then 0 else Magnitude(z[..|z| - 1], radix) * radix + DigitValue(z[|z| - 1])
  }

  /**
   * The number at the start of a sign-less string: radix 16 after a `0x` or
   * `0X` prefix, radix 10 otherwise, read up to the first non-digit; `None`
   * when no digit follows.
   */
  function LeadingNumber(u: string): Option<nat> {
    var hex := |u| >= 2 && u[0] == '0' && (u[1] == 'x' || u[1] == 'X');
    var radix := if hex then 16 else 10;
    var z := DigitPrefix(if hex then u[2..] else u, radix);
    if z == [] then None else Some(Magnitude(z, radix))
  }

  /**
   * `parseInt(s)`: skip leading whitespace, take an optional sign, then read
   * the leading number; `NaN` when there is none.
   */
  function ParseInt(s: string): (r: Number)
    ensures NoDigit(s) ==> r == NaN
  {
    NoDigitIsNaN(s);
    ParseSigned(TrimStart(s))
  }

  /** `s` holds no decimal digit. */
  predicate NoDigit(s: string) {
    forall i :: 0 <= i < |s| ==> !('0' <= s[i] <= '9')
  }

  /** A suffix of a digit-free string is digit-free. */
  lemma NoDigitSuffix(s: string, k: nat)
    requires NoDigit(s) && k <= |s|
    ensures NoDigit(s[k..])
  {
    forall i | 0 <= i < |s| - k
      ensures !('0' <= s[k..][i] <= '9')
    {
      assert s[k..][i] == s[k + i];
    }
  }

  /** A string without a decimal digit has no leading number, not even a hexadecimal one. */
  lemma NoDigitNoLeading(u: string)
    requires NoDigit(u)
    ensures LeadingNumber(u) == None
  {
    if u != [] {
      assert !('0' <= u[0] <= '9');
    }
  }

  /** parseInt finds no number in a string without a decimal digit. */
  lemma NoDigitIsNaN(s: string)
    ensures NoDigit(s) ==> ParseSigned(TrimStart(s)) == NaN
  {
    if NoDigit(s) {
      var t := TrimStart(s);
      NoDigitSuffix(s, |s| - |t|);
      NoDigitNoLeading(t);
      if t != [] {
        NoDigitSuffix(t, 1);
        NoDigitNoLeading(t[1..]);
      }
    }
  }

  /** parseInt after the leading whitespace is gone. */
  function ParseSigned(t: string): Number {
    if t != [] && t[0] == '-' then
      match LeadingNumber(t[1..])
      case None => NaN
      case Some(m) => Int(0 - m)
    else
      match LeadingNumber(if t != [] && t[0] == '+' then t[1..] else t)
      case None => NaN
      case Some(m) => Int(m)
  }

  lemma {:induction false} MagnitudeOfDigits(n: nat)
    ensures Magnitude(Digits(n), 10) == n
    decreases n
  {
    if n >= 10 {
      var d := Digits(n / 10);
      var s := d + [DigitChar(n % 10)];
      assert s[..|s| - 1] == d;
      MagnitudeOfDigits(n / 10);
    }
  }

  lemma {:induction false} DigitPrefixStops(z: string, rest: string, radix: nat)
    requires forall i :: 0 <= i < |z| ==> DigitValue(z[i]) < radix
    requires rest == [] || DigitValue(rest[0]) >= radix
    ensures DigitPrefix(z + rest, radix) == z
    decreases |z|
  {
    if z != [] {
      assert (z + rest)[1..] == z[1..] + rest;
      DigitPrefixStops(z[1..], rest, radix);
    } else {
      assert z + rest == rest;
    }
  }

  lemma LeadingNumberOfDigits(m: nat, rest: string)
    requires rest == [] || (DigitValue(rest[0]) >= 10 && rest[0] != 'x' && rest[0] != 'X')
    ensures LeadingNumber(Digits(m) + rest) == Some(m)
    ensures '0' <= (Digits(m) + rest)[0] <= '9'
  {
    var d := Digits(m);
    var u := d + rest;
    assert u[0] == d[0];
    assert |u| >= 2 && u[0] == '0' ==> |d| == 1 && u[1] == rest[0];
    DigitPrefixStops(d, rest, 10);
    MagnitudeOfDigits(m);
  }

  /**
   * parseInt reads back the decimal rendering of every integer, and ignores
   * whatever follows it as long as that does not continue the number.
   */
  lemma ParseIntOfDecimal(n: int, rest: string)
    requires rest == [] || (DigitValue(rest[0]) >= 10 && rest[0] != 'x' && rest[0] != 'X')
    ensures ParseInt(Decimal(n) + rest) == Int(n)
  {
    if n < 0 {
      ParseIntOfNegative(-n, rest);
    } else {
      ParseIntOfNatural(n, rest);
    }
  }

  /** parseInt reads back `String(n)` for every integer `n`. */
  lemma ParseIntRoundTrip(n: int)
    ensures ParseInt(Decimal(n)) == Int(n)
  {
    ParseIntOfDecimal(n, []);
    assert Decimal(n) + [] == Decimal(n);
  }

  /** A JSON number converts with `String` and parses back to itself. */
  lemma ParseIntOfNumber(v: Option<Value>, n: int)
    requires v == Some(Num(n))
    ensures ParseValue(v) == Ok(Int(n))
  {
    ParseIntRoundTrip(n);
  }

  lemma ParseIntOfNatural(m: nat, rest: string)
    requires rest == [] || (DigitValue(rest[0]) >= 10 && rest[0] != 'x' && rest[0] != 'X')
    ensures ParseInt(Digits(m) + rest) == Int(m)
  {
    LeadingNumberOfDigits(m, rest);
    ParseIntOfUnsigned(Digits(m) + rest, m);
  }

  lemma ParseIntOfUnsigned(s: string, m: nat)
    requires s != [] && '0' <= s[0] <= '9'
    requires LeadingNumber(s) == Some(m)
    ensures ParseInt(s) == Int(m)
  {
    TrimStartKeeps(s);
    SignlessParse(s, m);
  }

  /** A string that starts with a digit is read as its leading number. */
  lemma SignlessParse(t: string, m: nat)
    requires t != [] && '0' <= t[0] <= '9'
    requires LeadingNumber(t) == Some(m)
    ensures ParseSigned(t) == Int(m)
  {
  }

  lemma ParseIntOfNegative(m: nat, rest: string)
    requires m > 0
    requires rest == [] || (DigitValue(rest[0]) >= 10 && rest[0] != 'x' && rest[0] != 'X')
    ensures ParseInt(Decimal(0 - m) + rest) == Int(0 - m)
  {
    var u := Digits(m) + rest;
    var s := Decimal(0 - m) + rest;
    assert s == ['-'] + u;
    assert s[1..] == u;
    LeadingNumberOfDigits(m, rest);
    ParseIntOfMinus(s, m);
  }

  lemma ParseIntOfMinus(s: string, m: nat)
    requires s != [] && s[0] == '-'
    requires LeadingNumber(s[1..]) == Some(m)
    ensures ParseInt(s) == Int(0 - m)
  {
    assert !IsWhitespace('-');
    TrimStartKeeps(s);
  }

  /** An absent query parameter or body field, converted with `String`, parses to `NaN`. */
  lemma ParseIntOfUndefined()
    ensures ParseValue(None) == Ok(NaN)
  {
    var u := "undefined";
    assert u[0] == 'u' && !IsWhitespace('u');
    TrimStartKeeps(u);
    assert DigitValue(u[0]) == 30;
    assert DigitPrefix(u, 10) == [];
  }

  // ---------------------------------------------------------------------------
  // String.prototype.split with a one-character separator
  // ---------------------------------------------------------------------------

  /** `s.split(sep)`: the pieces between occurrences of `sep`; never empty. */
  function Split(s: string, sep: char): (pieces: seq<string>)
    ensures |pieces| >= 1
  {
    if s == [] then [[]]
    else
      var rest := Split(s[1..], sep);
      if s[0] == sep then [[]] + rest else [[s[0]] + rest[0]] + rest[1..]
  }

  /** `pieces.join(sep)`. */
  function Join(pieces: seq<string>, sep: char): string
    requires |pieces| >= 1
  {
    if |pieces| == 1 then pieces[0] else pieces[0] + [sep] + Join(pieces[1..], sep)
  }

  /** Joining the pieces with the separator gives back the original string. */
  lemma {:induction false} SplitJoin(s: string, sep: char)
    ensures Join(Split(s, sep), sep) == s
  {
    if s != [] {
      var rest := Split(s[1..], sep);
      SplitJoin(s[1..], sep);
      if s[0] != sep && |rest| > 1 {
        assert Split(s, sep)[1..] == rest[1..];
      }
    }
  }

  /** No piece contains the separator. */
  lemma {:induction false} SplitPiecesFree(s: string, sep: char)
    ensures forall i :: 0 <= i < |Split(s, sep)| ==> sep !in Split(s, sep)[i]
  {
    if s != [] {
      SplitPiecesFree(s[1..], sep);
      var rest := Split(s[1..], sep);
      var pieces := Split(s, sep);
      if s[0] != sep {
        forall i | 0 <= i < |pieces| ensures sep !in pieces[i] {
          if i > 0 {
            assert pieces[i] == rest[i];
          }
        }
      }
    }
  }

  /** A string without the separator is a single piece. */
  lemma {:induction false} SplitWhole(p: string, sep: char)
    requires sep !in p
    ensures Split(p, sep) == [p]
  {
    if p != [] {
      SplitWhole(p[1..], sep);
      assert [p[0]] + p[1..] == p;
    }
  }

  /** The first piece ends at the first separator, and the rest is the split of what follows it. */
  lemma {:induction false} SplitAtFirst(p: string, q: string, sep: char)
    requires sep !in p
    ensures Split(p + [sep] + q, sep) == [p] + Split(q, sep)
  {
    if p == [] {
      assert p + [sep] + q == [sep] + q;
      assert ([sep] + q)[1..] == q;
    } else {
      assert (p + [sep] + q)[1..] == p[1..] + [sep] + q;
      SplitAtFirst(p[1..], q, sep);
      assert [p[0]] + p[1..] == p;
    }
  }
}
