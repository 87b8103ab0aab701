/** JavaScript values as the client sees them: decoded JSON bodies and
    loosely typed ("unknown") inputs, together with the coercions the client
    code relies on (truthiness, `trim`, `toUpperCase`, `Number`, `Math.trunc`,
    `Math.max`, `Math.min`). */
module Js {

  datatype Option<+T> = None | Some(value: T)

  /** A JS number: finite, or one of the three non-finite values. */
  datatype Number = Finite(r: real) | NaN | PosInf | NegInf

  datatype Value =
    | Undefined
    | Null
    | Bool(b: bool)
    | Num(n: Number)
    | Str(s: string)
    | Arr(items: seq<Value>)
    | Obj(fields: map<string, Value>)

  /** `typeof v === 'object' && v !== null`: arrays are objects too. */
  predicate IsObject(v: Value) {
    v.Arr? || v.Obj?
  }

  /** The property read `v.key`: an absent key, or a value that is not a
      plain object, reads as undefined. */
  function Field(v: Value, key: string): Value {
    if v.Obj? && key in v.fields then v.fields[key] else Undefined
  }

  /** JS truthiness. */
  predicate Truthy(v: Value) {
    match v
    case Undefined => false
    case Null => false
    case Bool(b) => b
    case Num(n) => (n.Finite? && n.r != 0.0) || n.PosInf? || n.NegInf?
    case Str(s) => s != []
    case Arr(_) => true
    case Obj(_) => true
  }

  /** `a || b` */
  function Or(a: Value, b: Value): Value {
    if Truthy(a) then a else b
  }

  // ---------------------------------------------------------------------
  // Strings
  // ---------------------------------------------------------------------

  /** The ECMAScript WhiteSpace and LineTerminator code points: what
      `trim`, `trimStart` and the regular expression class `\s` remove. */
  predicate IsSpace(c: char) {
    || c == '\t' || c == '\n' || c == '\U{000B}' || c == '\U{000C}' || c == '\r' || c == ' '
    || c == '\U{00A0}' || c == '\U{1680}' || ('\U{2000}' <= c <= '\U{200A}')
    || c == '\U{2028}' || c == '\U{2029}' || c == '\U{202F}' || c == '\U{205F}'
    || c == '\U{3000}' || c == '\U{FEFF}'
  }

  predicate AllSpace(s: string) {
    forall i :: 0 <= i < |s| ==> IsSpace(s[i])
  }

  /** Neither starts nor ends with white space. */
  predicate IsTrimmed(s: string) {
    s == [] || (!IsSpace(s[0]) && !IsSpace(s[|s| - 1]))
  }

  /** `String.prototype.trimStart`: the suffix left after dropping the
      leading white space. */
  function TrimStart(s: string): (r: string)
    ensures |r| <= |s| && r == s[|s| - |r|..]
    ensures r == [] || !IsSpace(r[0])
    ensures AllSpace(s[..|s| - |r|])
  {
    if |s| > 0 && IsSpace(s[0]) then TrimStart(s[1..]) else s
  }

  /** `String.prototype.trimEnd`: the prefix left after dropping the
      trailing white space. */
  function TrimEnd(s: string): (r: string)
    ensures |r| <= |s| && r == s[..|r|]
    ensures r == [] || !IsSpace(r[|r| - 1])
    ensures AllSpace(s[|r|..])
  {
    if |s| > 0 && IsSpace(s[|s| - 1]) then
      var r := TrimEnd(s[..|s| - 1]);
      assert AllSpace(s[|r|..]) by {
        forall i | 0 <= i < |s| - |r| ensures IsSpace(s[|r|..][i]) {
          if i < |s| - 1 - |r| {
            assert s[|r|..][i] == s[..|s| - 1][|r|..][i];
          }
        }
      }
      r
    else s
  }

  /** `String.prototype.trim`. The result is trimmed, is empty exactly when
      the input is all white space, and a trimmed input is returned as is
      (so trimming twice is trimming once); `TrimIsInfix` says which part of
      the input it is. */
  function Trim(s: string): (r: string)
    ensures IsTrimmed(r)
    ensures r == [] <==> AllSpace(s)
    ensures IsTrimmed(s) ==> r == s
  {
    var t := TrimStart(s);
    assert t == [] ==> AllSpace(s) by {
      if t == [] {
        assert s[..|s|] == s;
      }
    }
    TrimEnd(t)
  }

  /** `trim` cuts exactly the ends: the result is the part of the input
      left between its leading white space (`k` characters, as `trimStart`
      cuts) and an all-white-space suffix; being trimmed itself, neither cut
      could be longer. */
  lemma TrimIsInfix(s: string)
    ensures var k := |s| - |TrimStart(s)|; var r := Trim(s);
      && k + |r| <= |s| && r == s[k..][..|r|]
      && AllSpace(s[..k]) && AllSpace(s[k..][|r|..])
      && (r == [] || (!IsSpace(r[0]) && !IsSpace(r[|r| - 1])))
  {
    var t := TrimStart(s);
    assert s[|s| - |t|..] == t;
  }

  /** `toText` (it appears verbatim in api/modules/agent.ts and in
      api/modules/lostFound.ts): a string is trimmed, anything else is ''. */
  function ToText(v: Value): (r: string)
    ensures IsTrimmed(r)
    ensures !v.Str? ==> r == []
    ensures v.Str? ==> (r == [] <==> AllSpace(v.s))
  {
    if v.Str? then Trim(v.s) else ""
  }

  /** `toOptionalText` (api/modules/agent.ts) and the `toText(x) || undefined`
      idiom of api/modules/lostFound.ts: blank becomes absent. */
  function ToOptionalText(v: Value): (r: Option<string>)
    ensures r.None? <==> ToText(v) == []
    ensures r.Some? ==> r.value == ToText(v)
  {
    var t := ToText(v);
    if t == [] then None else Some(t)
  }

  /** `.filter(Boolean)` on strings: the non-empty ones, in order. */
  function NonBlank(texts: seq<string>): (r: seq<string>)
    ensures |r| <= |texts|
    ensures forall i :: 0 <= i < |r| ==> r[i] != []
  {
    if texts == [] then []
    else if texts[0] == [] then NonBlank(texts[1..])
    else [texts[0]] + NonBlank(texts[1..])
  }

  /** Order and multiplicity: filtering a concatenation is concatenating
      the filtered parts, and a single string is kept exactly when it is
      non-empty. Together these fix `NonBlank` on every input. */
  lemma {:induction false} NonBlankAppend(a: seq<string>, b: seq<string>)
    ensures NonBlank(a + b) == NonBlank(a) + NonBlank(b)
    ensures NonBlank([]) == []
    ensures forall t :: NonBlank([t]) == if t == [] then [] else [t]
  {
    if a == [] {
      assert a + b == b;
    } else {
      assert (a + b)[1..] == a[1..] + b;
      NonBlankAppend(a[1..], b);
    }
    forall t ensures NonBlank([t]) == if t == [] then [] else [t] {
      assert [t][1..] == [];
    }
  }

  /** Every non-empty string is kept. */
  lemma {:induction false} NonBlankKeeps(texts: seq<string>, i: nat)
    requires i < |texts| && texts[i] != []
    ensures texts[i] in NonBlank(texts)
  {
    if i > 0 {
      assert texts[1..][i - 1] == texts[i];
      NonBlankKeeps(texts[1..], i - 1);
    }
  }

  /** Every kept string comes from an index no smaller than its own. */
  lemma {:induction false} NonBlankOrigin(texts: seq<string>, j: nat) returns (i: nat)
    requires j < |NonBlank(texts)|
    ensures j <= i < |texts| && texts[i] == NonBlank(texts)[j]
  {
    if texts[0] == [] {
      var k := NonBlankOrigin(texts[1..], j);
      i := k + 1;
    } else if j == 0 {
      i := 0;
    } else {
      var k := NonBlankOrigin(texts[1..], j - 1);
      i := k + 1;
    }
  }

  /** `items.map(toText)` */
  function Texts(items: seq<Value>): (r: seq<string>)
    ensures |r| == |items|
    ensures forall i :: 0 <= i < |items| ==> r[i] == ToText(items[i])
  {
    seq(|items|, i requires 0 <= i < |items| => ToText(items[i]))
  }

  /** `items.map(toText).filter(Boolean)`: the trimmed non-blank strings, in
      order; non-strings and blanks are dropped. */
  function NonBlankTexts(items: seq<Value>): (r: seq<string>)
    ensures |r| <= |items|
    ensures forall i :: 0 <= i < |r| ==> r[i] != [] && IsTrimmed(r[i])
  {
    var texts := Texts(items);
    var r := NonBlank(texts);
    assert forall j :: 0 <= j < |r| ==> IsTrimmed(r[j]) by {
      forall j | 0 <= j < |r| ensures IsTrimmed(r[j]) {
        var i := NonBlankOrigin(texts, j);
      }
    }
    r
  }

  /** Order and multiplicity of `map(toText).filter(Boolean)`: the texts of
      a concatenation are the texts of its parts, concatenated, and one item
      gives its trimmed text exactly when that text is non-empty. */
  lemma NonBlankTextsAppend(a: seq<Value>, b: seq<Value>, v: Value)
    ensures NonBlankTexts(a + b) == NonBlankTexts(a) + NonBlankTexts(b)
    ensures NonBlankTexts([v]) == if ToText(v) == [] then [] else [ToText(v)]
  {
    assert Texts(a + b) == Texts(a) + Texts(b);
    NonBlankAppend(Texts(a), Texts(b));
    assert Texts([v]) == [ToText(v)];
  }

  /** Every non-blank item is kept, in its trimmed form. */
  lemma NonBlankTextsKeeps(items: seq<Value>, i: nat)
    requires i < |items| && ToText(items[i]) != []
    ensures ToText(items[i]) in NonBlankTexts(items)
  {
    NonBlankKeeps(Texts(items), i);
  }

  /** Every kept text is the trimmed form of some item, at an index no
      smaller than its own. */
  lemma NonBlankTextsOrigin(items: seq<Value>, j: nat) returns (i: nat)
    requires j < |NonBlankTexts(items)|
    ensures j <= i < |items| && ToText(items[i]) == NonBlankTexts(items)[j]
  {
    i := NonBlankOrigin(Texts(items), j);
  }

  function MinNat(a: nat, b: nat): nat {
    if a <= b then a else b
  }

  /** `slice(0, n)` on a string or an array. */
  function Take<T>(s: seq<T>, n: nat): (r: seq<T>)
    ensures |r| == MinNat(n, |s|)
    ensures r == s[..|r|]
  {
    if |s| <= n then s else s[..n]
  }

  predicate StartsWith(s: string, prefix: string) {
    |prefix| <= |s| && s[..|prefix|] == prefix
  }

  /** `s.includes(part)` */
  predicate Includes(s: string, part: string) {
    StartsWith(s, part) || (s != [] && Includes(s[1..], part))
  }

  /** `toUpperCase`, restricted to ASCII letters. */
  function UpperChar(c: char): char {
    if 'a' <= c <= 'z' then (c as int - 32) as char else c
  }

  function Upper(s: string): (r: string)
    ensures |r| == |s|
    ensures forall i :: 0 <= i < |s| ==> r[i] == UpperChar(s[i])
  {
    seq(|s|, i requires 0 <= i < |s| => UpperChar(s[i]))
  }

  predicate HasNoAsciiLetter(s: string) {
    forall i :: 0 <= i < |s| ==> !('A' <= s[i] <= 'Z') && !('a' <= s[i] <= 'z')
  }

  /** A word without ASCII letters (a digit, a Chinese label) is the
      upper-case form of itself only. */
  lemma UpperOnlyOf(t: string, word: string)
    requires HasNoAsciiLetter(word)
    ensures Upper(t) == word <==> t == word
  {
    if Upper(t) == word {
      forall i | 0 <= i < |t| ensures t[i] == word[i] {
        assert UpperChar(t[i]) == word[i];
      }
    }
  }

  /** Decimal digits of a natural number. */
  function DecimalString(n: nat): (r: string)
    ensures r != []
    ensures forall i :: 0 <= i < |r| ==> '0' <= r[i] <= '9'
  {
    var d := ['0' + (n % 10) as char];
    if n < 10 then d else DecimalString(n / 10) + d
  }

  /** `String(n)` for an integer. */
  function IntString(n: int): string {
    if n < 0 then "-" + DecimalString(-n) else DecimalString(n)
  }

  // ---------------------------------------------------------------------
  // Numbers
  // ---------------------------------------------------------------------

  predicate IsDigits(s: string) {
    s != [] && forall i :: 0 <= i < |s| ==> '0' <= s[i] <= '9'
  }

  function DigitsValue(s: string): nat
    requires forall i :: 0 <= i < |s| ==> '0' <= s[i] <= '9'
  {
    if s == [] then 0 else DigitsValue(s[..|s| - 1]) * 10 + (s[|s| - 1] as int - '0' as int)
  }

  /** `Number(s)` for a string, on the decimal integer forms only: blank is
      0, an optionally signed run of digits is its value, `Infinity` with an
      optional sign is infinite, everything else is NaN. */
  function StringToNumber(s: string): Number {
    var t := Trim(s);
    if t == [] then Finite(0.0)
    else if t == "Infinity" || t == "+Infinity" then PosInf
    else if t == "-Infinity" then NegInf
    else if IsDigits(t) then Finite(DigitsValue(t) as real)
    else if t[0] == '+' && IsDigits(t[1..]) then Finite(DigitsValue(t[1..]) as real)
    else if t[0] == '-' && IsDigits(t[1..]) then Finite(-(DigitsValue(t[1..]) as real))
    else NaN
  }

  /** `Number(v)`. An array is read through its string form, the elements
      joined with commas: `[]` is '' and so 0; two or more elements always
      leave a comma and so NaN; one element gives the number of its own
      string form (null and undefined print as ''). An object prints as
      "[object Object]", which is NaN. */
  function ToNumber(v: Value): Number {
    match v
    case Undefined => NaN
    case Null => Finite(0.0)
    case Bool(b) => Finite(if b then 1.0 else 0.0)
    case Num(n) => n
    case Str(s) => StringToNumber(s)
    case Arr(items) =>
      if |items| == 0 then Finite(0.0)
      else if |items| > 1 then NaN
      else (match items[0]
        case Undefined => Finite(0.0)
        case Null => Finite(0.0)
        case Bool(_) => NaN
        case Num(n) => n
        case Str(s) => StringToNumber(s)
        case Arr(_) => ToNumber(items[0])
        case Obj(_) => NaN)
    case Obj(_) => NaN
  }

  predicate IsInteger(r: real) {
    r.Floor as real == r
  }

  /** Truncation toward zero of a real. */
  function TruncReal(r: real): (i: int)
    ensures 0.0 <= r ==> 0 <= i && i as real <= r < i as real + 1.0
    ensures r <= 0.0 ==> i <= 0 && i as real - 1.0 < r <= i as real
  {
    if r >= 0.0 then r.Floor else -((-r).Floor)
  }

  /** `Math.trunc` */
  function Trunc(n: Number): Number {
    if n.Finite? then Finite(TruncReal(n.r) as real) else n
  }

  /** x < y on the extended reals. */
  predicate Below(x: Number, y: Number) {
    || (x.NegInf? && !y.NegInf? && !y.NaN?)
    || (!x.PosInf? && !x.NaN? && y.PosInf?)
    || (x.Finite? && y.Finite? && x.r < y.r)
  }

  /** `Math.max(a, b)`: NaN if either is NaN. */
  function Max(a: Number, b: Number): Number {
    if a.NaN? || b.NaN? then NaN else if Below(a, b) then b else a
  }

  /** `Math.min(a, b)`: NaN if either is NaN. */
  function Min(a: Number, b: Number): Number {
    if a.NaN? || b.NaN? then NaN else if Below(b, a) then b else a
  }

  /** `Number.isFinite` */
  predicate IsFinite(n: Number) {
    n.Finite?
  }
}
