/**
 * The few PHP value semantics the synchronisation engine relies on: truthiness,
 * the `(int)` and `(array)` casts applied to the user configuration, string
 * conversion for `implode`, and the byte-string helpers `ltrim`, `strtok` and
 * `strtolower`. Strings are sequences of characters; only ASCII matters here.
 */
module PhpValues {

  datatype Option<T> = None | Some(value: T)

  /** A PHP value as it can appear in a configuration array or in shared data. */
  datatype PhpValue =
    | Null
    | Bool(b: bool)
    | Int(i: int)
    | Str(s: string)
    | List(items: seq<PhpValue>)

  /** A string is falsy in PHP exactly when it is "" or "0". */
  predicate TruthyString(s: string) {
    s != "" && s != "0"
  }

  /** PHP's conversion to bool, as used by `if ($value)` and `(bool)`. */
  predicate Truthy(v: PhpValue) {
    match v
    case Null => false
    case Bool(b) => b
    case Int(i) => i != 0
    case Str(s) => TruthyString(s)
    case List(items) => |items| > 0
  }

  /** `(array) $v`: null becomes [], a list stays, a scalar is wrapped. */
  function ToList(v: PhpValue): seq<PhpValue> {
    match v
    case Null => []
    case List(items) => items
    case _ => [v]
  }

  const NumericWhitespace: set<char> := {' ', '\t', '\n', '\r', 11 as char, 12 as char}

  predicate IsDigit(c: char) {
    '0' <= c <= '9'
  }

  /** Value of the longest run of decimal digits at the head of `s`, accumulated onto `acc`. */
  function LeadingDigits(s: string, acc: nat): nat
    decreases |s|
  {
    if s != [] && IsDigit(s[0]) then LeadingDigits(s[1..], acc * 10 + (s[0] as int - '0' as int))
    else acc
  }

  /** `(int) "…"`: leading whitespace, an optional sign, then the leading decimal digits. */
  function StringToInt(s: string): int {
    var t := SkipWhile(s, NumericWhitespace);
    if t != [] && t[0] == '-' then 0 - LeadingDigits(t[1..], 0)
    else if t != [] && t[0] == '+' then LeadingDigits(t[1..], 0)
    else LeadingDigits(t, 0)
  }

  /** `(int) $v`. */
  function ToInt(v: PhpValue): int {
    match v
    case Null => 0
    case Bool(b) => if b then 1 else 0
    case Int(i) => i
    case Str(s) => StringToInt(s)
    case List(items) => if |items| == 0 then 0 else 1
  }

  /** Decimal rendering of a natural number. */
  function NatToString(n: nat): (r: string)
    ensures |r| > 0
    decreases n
  {
    var d := [(48 + n % 10) as char];
    if n < 10 then d else NatToString(n / 10) + d
  }

  /** `(string) $v` for the values a recipient list can hold; arrays render as "Array". */
  function ToStr(v: PhpValue): string {
    match v
    case Null => ""
    case Bool(b) => if b then "1" else ""
    case Int(i) => if i < 0 then "-" + NatToString(-i) else NatToString(i)
    case Str(s) => s
    case List(_) => "Array"
  }

  /** `implode($glue, $values)`. */
  function Implode(glue: string, values: seq<PhpValue>): string {
    if values == [] then ""
    else if |values| == 1 then ToStr(values[0])
    else ToStr(values[0]) + glue + Implode(glue, values[1..])
  }

  /** The suffix of `s` left after dropping every leading character in `chars`. */
  function SkipWhile(s: string, chars: set<char>): (r: string)
    ensures |r| <= |s| && r == s[|s| - |r|..]
    ensures r == [] || r[0] !in chars
    ensures forall j :: 0 <= j < |s| - |r| ==> s[j] in chars
    decreases |s|
  {
    if s != [] && s[0] in chars then SkipWhile(s[1..], chars) else s
  }

  /** The longest prefix of `s` containing no character of `stops`. */
  function TakeUntil(s: string, stops: set<char>): (r: string)
    ensures |r| <= |s| && r == s[..|r|]
    ensures forall j :: 0 <= j < |r| ==> r[j] !in stops
    ensures |r| == |s| || s[|r|] in stops
    decreases |s|
  {
    if s == [] || s[0] in stops then [] else [s[0]] + TakeUntil(s[1..], stops)
  }

  /** The characters `ltrim` strips by default. */
  const LTrimChars: set<char> := {' ', '\t', '\n', '\r', 0 as char, 11 as char}

  /** `ltrim($s)` with the default character list. */
  function LTrim(s: string): string {
    SkipWhile(s, LTrimChars)
  }

  /**
   * `strtok($s, $delims)` on a fresh string: leading delimiters are skipped and the
   * token runs up to the next delimiter; `false` (None) when nothing but delimiters is left.
   */
  function StrTok(s: string, delims: set<char>): Option<string> {
    var rest := SkipWhile(s, delims);
    if rest == [] then None else Some(TakeUntil(rest, delims))
  }

  predicate IsUpper(c: char) {
    'A' <= c <= 'Z'
  }

  function LowerChar(c: char): char {
    if IsUpper(c) then (c as int + 32) as char else c
  }

  /** `strtolower`, ASCII letters only. */
  function ToLower(s: string): (r: string)
    ensures |r| == |s|
    ensures forall j :: 0 <= j < |s| ==> r[j] == LowerChar(s[j])
  {
    seq(|s|, j requires 0 <= j < |s| => LowerChar(s[j]))
  }
}
