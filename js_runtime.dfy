/** The part of JavaScript's value model and built-in string functions that the
    controller and the dashboards rely on: JSON values, property reads that may
    throw, truthiness, `trim`, `split(' ')`, `slice(0, -1)`, `toLowerCase`,
    `includes`, `parseInt` and the number-to-string conversion of template
    literals. */
module JsRuntime {

  /** A value produced by `JSON.parse`. Numbers are integers (see README). */
  datatype Json =
    | JNull
    | JBool(b: bool)
    | JNum(n: int)
    | JStr(s: string)
    | JArr(items: seq<Json>)
    | JObj(fields: map<string, Json>)

  datatype Option<T> = None | Some(value: T)

  /** What `v.key` evaluates to: a TypeError, `undefined`, or a value. */
  datatype Prop = Throws | Undefined | Defined(value: Json)

  /** `v.key` for a JSON value. Reading a property of `null` throws; a key that
      is not an own property of an object, and every key read by the modelled
      code on a string, number, boolean or array, gives `undefined`. */
  function Get(v: Json, key: string): Prop
  {
    match v
    case JNull => Throws
    case JObj(m) => if key in m then Defined(m[key]) else Undefined
    case _ => Undefined
  }

  /** `p.key` where `p` is itself the result of a property read. */
  function GetFrom(p: Prop, key: string): Prop
  {
    match p
    case Throws => Throws
    case Undefined => Throws
    case Defined(v) => Get(v, key)
  }

  /** JavaScript truthiness of a JSON value (JSON cannot carry NaN). */
  predicate Truthy(v: Json)
  {
    match v
    case JNull => false
    case JBool(b) => b
    case JNum(n) => n != 0
    case JStr(s) => s != ""
    case _ => true
  }

  /** Truthiness of a property read that did not throw (`undefined` is falsy). */
  predicate PropTruthy(p: Prop)
  {
    p.Defined? && Truthy(p.value)
  }

  /** The integer results `parseInt` can produce. */
  datatype JsInt = NaN | Int(value: int)

  // ---------------------------------------------------------------------------
  // trim

  /** ECMAScript WhiteSpace and LineTerminator code points. */
  predicate IsWhiteSpace(c: char)
  {
    c == '\t' || c == '\n' || c == '\U{B}' || c == '\U{C}' || c == '\r' || c == ' '
    || c == '\U{A0}' || c == '\U{1680}' || ('\U{2000}' <= c <= '\U{200A}')
    || c == '\U{2028}' || c == '\U{2029}' || c == '\U{202F}' || c == '\U{205F}'
    || c == '\U{3000}' || c == '\U{FEFF}'
  }

  /** `s.trimStart()`: the suffix left after dropping leading white space. */
  function TrimStart(s: string): string
  {
    if s != [] && IsWhiteSpace(s[0]) then TrimStart(s[1..]) else s
  }

  /** `s.trimEnd()`: the prefix left after dropping trailing white space. */
  function TrimEnd(s: string): string
  {
    if s != [] && IsWhiteSpace(s[|s| - 1]) then TrimEnd(s[..|s| - 1]) else s
  }

  /** `s.trim()`. */
  function Trim(s: string): string
  {
    TrimEnd(TrimStart(s))
  }

  /** `trimStart` removes exactly the white space at the front. */
  lemma {:induction false} TrimStartRemovesLeading(s: string)
    ensures var r := TrimStart(s);
            |r| <= |s| && r == s[|s| - |r|..]
            && (forall i :: 0 <= i < |s| - |r| ==> IsWhiteSpace(s[i]))
            && (r == [] || !IsWhiteSpace(r[0]))
  {
    if s != [] && IsWhiteSpace(s[0]) {
      var t := s[1..];
      TrimStartRemovesLeading(t);
      var r := TrimStart(t);
      assert TrimStart(s) == r;
      assert r == t[|t| - |r|..] == s[|s| - |r|..];
      forall i | 0 <= i < |s| - |r| ensures IsWhiteSpace(s[i]) {
        if i > 0 {
          assert s[i] == t[i - 1];
        }
      }
    }
  }

  /** `trimEnd` removes exactly the white space at the back. */
  lemma {:induction false} TrimEndRemovesTrailing(s: string)
    ensures var r := TrimEnd(s);
            |r| <= |s| && r == s[..|r|]
            && (forall i :: |r| <= i < |s| ==> IsWhiteSpace(s[i]))
            && (r == [] || !IsWhiteSpace(r[|r| - 1]))
  {
    if s != [] && IsWhiteSpace(s[|s| - 1]) {
      var t := s[..|s| - 1];
      TrimEndRemovesTrailing(t);
      var r := TrimEnd(t);
      assert TrimEnd(s) == r;
      assert r == t[..|r|] == s[..|r|];
      forall i | |r| <= i < |s| ensures IsWhiteSpace(s[i]) {
        if i < |t| {
          assert s[i] == t[i];
        }
      }
    }
  }

  /** `trim` leaves a piece of `s` with no white space at either end, and
      everything it cut off is white space. */
  lemma TrimmedPiece(s: string)
    ensures var r := Trim(s);
            (exists k :: OccursAt(s, r, k)
                         && forall i :: 0 <= i < |s| && !(k <= i < k + |r|) ==> IsWhiteSpace(s[i]))
            && (r == [] || (!IsWhiteSpace(r[0]) && !IsWhiteSpace(r[|r| - 1])))
  {
    var t := TrimStart(s);
    TrimStartRemovesLeading(s);
    TrimEndRemovesTrailing(t);
    var r := TrimEnd(t);
    var k := |s| - |t|;
    assert r == t[..|r|];
    assert t[..|r|] == s[k..k + |r|];
    assert OccursAt(s, r, k);
    assert r == Trim(s);
    assert forall i :: 0 <= i < |s| && !(k <= i < k + |r|) ==> IsWhiteSpace(s[i]) by {
      forall i | k + |r| <= i < |s| ensures IsWhiteSpace(s[i]) {
        assert s[i] == t[i - k];
      }
    }
    if r != [] {
      assert r[0] == t[0];
    }
  }

  /** Text that starts with a sign or a digit, and so not with white space, is its own `trimStart`. */
  lemma TrimStartKeeps(s: string)
    requires s != [] && (s[0] == '-' || '0' <= s[0] <= '9')
    ensures TrimStart(s) == s
  {
    assert !IsWhiteSpace(s[0]);
  }

  /** A string that neither starts nor ends with white space is its own trim. */
  lemma TrimUnchanged(s: string)
    requires s == [] || (!IsWhiteSpace(s[0]) && !IsWhiteSpace(s[|s| - 1]))
    ensures Trim(s) == s
  {
  }

  // ---------------------------------------------------------------------------
  // split(' ') and slice(0, -1)

  /** The tokens of `s` separated by single spaces, glued back together. */
  function JoinSpaces(parts: seq<string>): string
    requires |parts| >= 1
  {
    if |parts| == 1 then parts[0] else parts[0] + " " + JoinSpaces(parts[1..])
  }

  /** Number of space characters in `s`. */
  function SpaceCount(s: string): nat
  {
    if s == [] then 0 else (if s[0] == ' ' then 1 else 0) + SpaceCount(s[1..])
  }

  /** `s.split(' ')`: cut at every single space, keeping empty tokens, so that
      joining the tokens with spaces gives `s` back. */
  function Split(s: string): (r: seq<string>)
    ensures |r| == SpaceCount(s) + 1
    ensures forall i :: 0 <= i < |r| ==> ' ' !in r[i]
    ensures JoinSpaces(r) == s
  {
    if s == [] then [""]
    else
      var rest := Split(s[1..]);
      if s[0] == ' ' then [""] + rest
      else [[s[0]] + rest[0]] + rest[1..]
  }

  /** A leading space-free token splits off on its own. */
  lemma {:induction false} SplitAfterToken(a: string, t: string)
    requires ' ' !in a
    ensures Split(a + " " + t) == [a] + Split(t)
  {
    if a == [] {
      assert a + " " + t == [' '] + t;
      assert (a + " " + t)[1..] == t;
    } else {
      assert (a + " " + t)[1..] == a[1..] + " " + t;
      SplitAfterToken(a[1..], t);
      assert a == [a[0]] + a[1..];
    }
  }

  /** A string without spaces is a single token. */
  lemma {:induction false} SplitSingleToken(a: string)
    requires ' ' !in a
    ensures Split(a) == [a]
  {
    if a != [] {
      SplitSingleToken(a[1..]);
      assert a == [a[0]] + a[1..];
    }
  }

  /** `s.slice(0, -1)`: everything but the last character ("" stays ""). */
  function DropLast(s: string): (r: string)
    ensures s == [] ==> r == []
    ensures s != [] ==> r + [s[|s| - 1]] == s
  {
    if s == [] then s else s[..|s| - 1]
  }

  // ---------------------------------------------------------------------------
  // toLowerCase and includes

  /** Lower-case mapping of one character (ASCII letters only, see README). */
  function LowerChar(c: char): char
  {
    if 'A' <= c <= 'Z' then (c as int + 32) as char else c
  }

  /** `s.toLowerCase()`. */
  function ToLower(s: string): string
  {
    if s == [] then [] else [LowerChar(s[0])] + ToLower(s[1..])
  }

  /** `toLowerCase` keeps the length, maps each character on its own and
      leaves no upper-case letter. */
  lemma {:induction false} ToLowerChars(s: string)
    ensures |ToLower(s)| == |s|
    ensures forall i :: 0 <= i < |s| ==> ToLower(s)[i] == LowerChar(s[i])
    ensures forall i :: 0 <= i < |s| ==> !('A' <= ToLower(s)[i] <= 'Z')
  {
    if s != [] {
      ToLowerChars(s[1..]);
      assert forall i :: 1 <= i < |s| ==> ToLower(s)[i] == ToLower(s[1..])[i - 1];
    }
  }

  /** Lower-casing twice is lower-casing once. */
  lemma ToLowerIdempotent(s: string)
    ensures ToLower(ToLower(s)) == ToLower(s)
  {
    var once := ToLower(s);
    var twice := ToLower(once);
    ToLowerChars(s);
    ToLowerChars(once);
    assert |twice| == |once|;
    forall i | 0 <= i < |once| ensures twice[i] == once[i] {
      assert once[i] == LowerChar(s[i]);
    }
  }

  /** `sub` occurs in `s` starting at index `i`. */
  predicate OccursAt(s: string, sub: string, i: int)
  {
    0 <= i && i + |sub| <= |s| && s[i..i + |sub|] == sub
  }

  /** One differing character rules out an occurrence. */
  lemma NotOccursAt(s: string, sub: string, i: int, j: int)
    requires 0 <= i && 0 <= j < |sub| && i + j < |s| && s[i + j] != sub[j]
    ensures !OccursAt(s, sub, i)
  {
    if i + |sub| <= |s| {
      assert s[i..i + |sub|][j] == s[i + j];
    }
  }

  /** `s.includes(sub)`, searched left to right. */
  function Includes(s: string, sub: string): (r: bool)
    ensures r <==> exists i :: OccursAt(s, sub, i)
  {
    if |s| < |sub| then
      assert forall i :: !OccursAt(s, sub, i);
      false
    else if s[..|sub|] == sub then
      assert OccursAt(s, sub, 0);
      true
    else
      var r := Includes(s[1..], sub);
      assert forall i :: 1 <= i ==> (OccursAt(s, sub, i) <==> OccursAt(s[1..], sub, i - 1));
      assert !OccursAt(s, sub, 0);
      assert r ==> OccursAt(s, sub, 1 + (var j :| OccursAt(s[1..], sub, j); j));
      r
  }

  // ---------------------------------------------------------------------------
  // parseInt and decimal text

  /** Whether `c` is a digit in base 10 or 16. */
  predicate IsDigit(c: char, radix: int)
  {
    ('0' <= c <= '9') || (radix == 16 && (('a' <= c <= 'f') || ('A' <= c <= 'F')))
  }

  /** The numeric value of a digit character. */
  function DigitValue(c: char): nat
  {
    if '0' <= c <= '9' then c as nat - '0' as nat
    else if 'a' <= c <= 'z' then c as nat - 'a' as nat + 10
    else if 'A' <= c <= 'Z' then c as nat - 'A' as nat + 10
    else 0
  }

  /** The longest prefix of `s` made of digits of the radix. */
  function DigitPrefix(s: string, radix: int): (r: string)
    ensures |r| <= |s| && r == s[..|r|]
    ensures forall i :: 0 <= i < |r| ==> IsDigit(r[i], radix)
    ensures |r| < |s| ==> !IsDigit(s[|r|], radix)
  {
    if s != [] && IsDigit(s[0], radix) then [s[0]] + DigitPrefix(s[1..], radix) else []
  }

  /** The value of a digit string, most significant digit first. */
  function DigitsValue(ds: string, radix: nat): nat
  {
    if ds == [] then 0 else DigitsValue(ds[..|ds| - 1], radix) * radix + DigitValue(ds[|ds| - 1])
  }

  /** The digits at the front of `s` read in `radix`, or NaN if there are none. */
  function LeadingNumber(s: string, radix: nat): (r: JsInt)
    ensures r.Int? ==> r.value >= 0
  {
    var digits := DigitPrefix(s, radix);
    if digits == [] then NaN else Int(DigitsValue(digits, radix))
  }

  /** What `parseInt` reads after the sign: base 16 after a `0x`/`0X` prefix,
      base 10 otherwise. */
  function ParseUnsigned(u: string): (r: JsInt)
    ensures r.Int? ==> r.value >= 0
  {
    if |u| >= 2 && u[0] == '0' && (u[1] == 'x' || u[1] == 'X') then LeadingNumber(u[2..], 16)
    else LeadingNumber(u, 10)
  }

  /** `parseInt(s)` with no radix argument: skip leading white space, read an
      optional sign, then the longest run of digits; no digit at all gives NaN. */
  function ParseInt(s: string): (r: JsInt)
    ensures TrimStart(s) == [] ==> r == NaN
    ensures r.Int? && r.value < 0 ==> TrimStart(s)[0] == '-'
  {
    var t := TrimStart(s);
    if t != [] && t[0] == '-' then
      (match ParseUnsigned(t[1..]) case NaN => NaN case Int(m) => Int(-m))
    else if t != [] && t[0] == '+' then ParseUnsigned(t[1..])
    else ParseUnsigned(t)
  }

  /** The decimal digit character of `d`. */
  function DecimalDigit(d: nat): char
    requires d < 10
  {
    ('0' as int + d) as char
  }

  /** The decimal text of a natural number, as `String(n)` writes it. */
  function NatToDecimal(n: nat): (r: string)
    ensures |r| >= 1
    ensures forall i :: 0 <= i < |r| ==> '0' <= r[i] <= '9'
    ensures DigitsValue(r, 10) == n
  {
    if n < 10 then [DecimalDigit(n)]
    else
      var r := NatToDecimal(n / 10) + [DecimalDigit(n % 10)];
      assert r[..|r| - 1] == NatToDecimal(n / 10);
      r
  }

  /** The decimal text of an integer, with a leading '-' when negative. */
  function IntToDecimal(n: int): string
  {
    if n < 0 then "-" + NatToDecimal(-n) else NatToDecimal(n)
  }

  /** `parseInt` stops at the first character that is not a digit, so text
      after the number is ignored (unless it turns a leading "0" into a "0x"
      hexadecimal prefix). */
  lemma ParseUnsignedIgnoresSuffix(n: nat, suffix: string)
    requires suffix == [] || !('0' <= suffix[0] <= '9' || suffix[0] == 'x' || suffix[0] == 'X')
    ensures ParseUnsigned(NatToDecimal(n) + suffix) == Int(n)
  {
    var digits := NatToDecimal(n);
    var s := digits + suffix;
    assert |s| >= 2 ==> s[1] == (if |digits| >= 2 then digits[1] else suffix[0]);
    DigitPrefixSplit(digits, suffix);
  }

  /** `parseInt` reads the decimal text of a number back, ignoring any text
      after it that cannot continue the number. */
  lemma ParseIntIgnoresSuffix(n: nat, suffix: string)
    requires suffix == [] || !('0' <= suffix[0] <= '9' || suffix[0] == 'x' || suffix[0] == 'X')
    ensures ParseInt(NatToDecimal(n) + suffix) == Int(n)
  {
    var s := NatToDecimal(n) + suffix;
    assert '0' <= s[0] <= '9' by { assert s[0] == NatToDecimal(n)[0]; }
    TrimStartKeeps(s);
    ParseUnsignedIgnoresSuffix(n, suffix);
  }

  /** `parseInt` reads back every integer's decimal text. */
  lemma ParseIntDecimal(n: int)
    ensures ParseInt(IntToDecimal(n)) == Int(n)
  {
    var m: nat := if n < 0 then -n else n;
    var s := IntToDecimal(n);
    assert s[0] == '-' || '0' <= s[0] <= '9';
    TrimStartKeeps(s);
    ParseUnsignedIgnoresSuffix(m, []);
    assert NatToDecimal(m) + [] == NatToDecimal(m);
    if n < 0 {
      assert s[1..] == NatToDecimal(m);
    }
  }

  /** The digit prefix of `digits + suffix` is `digits` when the suffix does not
      start with a decimal digit. */
  lemma {:induction false} DigitPrefixSplit(digits: string, suffix: string)
    requires forall i :: 0 <= i < |digits| ==> '0' <= digits[i] <= '9'
    requires suffix == [] || !('0' <= suffix[0] <= '9')
    ensures DigitPrefix(digits + suffix, 10) == digits
  {
    if digits != [] {
      assert (digits + suffix)[1..] == digits[1..] + suffix;
      DigitPrefixSplit(digits[1..], suffix);
    } else {
      assert digits + suffix == suffix;
    }
  }

  // ---------------------------------------------------------------------------
  // String conversion in template literals

  /** The elements of `parts` joined with `sep`. */
  function Join(parts: seq<string>, sep: string): string
  {
    if parts == [] then "" else if |parts| == 1 then parts[0] else parts[0] + sep + Join(parts[1..], sep)
  }

  /** `${v}` for a JSON value: what `String(v)` gives. Arrays join their
      elements with commas, writing `null` elements as empty text. */
  function ToJsString(v: Json): (r: string)
    ensures v.JStr? ==> r == v.s
  {
    match v
    case JNull => "null"
    case JBool(b) => if b then "true" else "false"
    case JNum(n) => IntToDecimal(n)
    case JStr(s) => s
    case JArr(items) =>
      Join(seq(|items|, i requires 0 <= i < |items| => if items[i].JNull? then "" else ToJsString(items[i])), ",")
    case JObj(_) => "[object Object]"
  }

  /** `${p}` for a property read that did not throw. */
  function PropToJsString(p: Prop): string
    requires !p.Throws?
  {
    if p.Undefined? then "undefined" else ToJsString(p.value)
  }
}
