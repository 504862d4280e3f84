/** JSON text as serde_json writes and reads it for the bot's message types
    (the derived `Serialize`/`Deserialize` of src/message/mod.rs).

    Writing (`serde_json::to_string`) is compact: no whitespace, members in
    the order given, strings escaped only where JSON demands it (the quote,
    the backslash and control characters), so non-ASCII text is written as
    it is. Reading (`serde_json::from_str`) accepts whitespace between
    tokens and rejects trailing characters, leading zeros, trailing commas,
    raw control characters in strings and lone surrogate escapes. Unlike
    serde_json, it does not reject a number beyond the range of an f64. */
module Json {
  import opened Results

  /** A JSON document. An integer keeps its exact value, except `-0`, which
      serde_json reads as a float; a number written with a fraction or an
      exponent is kept as its text, since no field of the bot's types holds
      one. */
  datatype JValue =
    | JNull
    | JBool(b: bool)
    | JInt(n: int)
    | JFloat(lexeme: string)
    | JString(s: string)
    | JArray(items: seq<JValue>)
    | JObject(members: seq<JMember>)

  datatype JMember = JMember(key: string, value: JValue)

  predicate IsDigit(c: char) { '0' <= c <= '9' }

  predicate IsWhitespace(c: char) { c == ' ' || c == '\t' || c == '\n' || c == '\r' }

  predicate AllDigits(s: string) { forall i | 0 <= i < |s| :: IsDigit(s[i]) }

  // ---------------------------------------------------------------------
  // Writing
  // ---------------------------------------------------------------------

  function DigitChar(d: nat): (c: char)
    requires d < 10
    ensures IsDigit(c)
  {
    ('0' as int + d) as char
  }

  function HexDigitChar(d: nat): char
    requires d < 16
  {
    if d < 10 then DigitChar(d) else ('a' as int + d - 10) as char
  }

  /** Decimal digits of a natural number, most significant first. */
  function NatText(n: nat): (s: string)
    decreases n
  {
    if n < 10 then [DigitChar(n)] else NatText(n / 10) + [DigitChar(n % 10)]
  }

  /** Decimal text of an integer, with a leading `-` when negative. */
  function IntText(n: int): string
  {
    if n < 0 then "-" + NatText(-n) else NatText(n)
  }

  /** How one character of a string is written between the quotes. */
  function EscapeChar(c: char): string
  {
    if c == '"' then "\\\""
    else if c == '\\' then "\\\\"
    else if c as int == 0x08 then "\\b"
    else if c as int == 0x0C then "\\f"
    else if c == '\n' then "\\n"
    else if c == '\r' then "\\r"
    else if c == '\t' then "\\t"
    else if (c as int) < 0x20 then "\\u00" + [HexDigitChar(c as int / 16), HexDigitChar(c as int % 16)]
    else [c]
  }

  function Escape(s: string): string
  {
    if s == [] then [] else EscapeChar(s[0]) + Escape(s[1..])
  }

  function QuoteText(s: string): string
  {
    "\"" + Escape(s) + "\""
  }

  /** `serde_json::to_string` of a document. */
  function Print(v: JValue): string
    decreases v
  {
    match v
    case JNull => "null"
    case JBool(b) => if b then "true" else "false"
    case JInt(n) => IntText(n)
    case JFloat(lexeme) => lexeme
    case JString(s) => QuoteText(s)
    case JArray(items) => "[" + PrintItems(items) + "]"
    case JObject(members) => "{" + PrintMembers(members) + "}"
  }

  /** Array elements, separated by commas. */
  function PrintItems(items: seq<JValue>): string
    decreases items
  {
    if items == [] then ""
    else if |items| == 1 then Print(items[0])
    else Print(items[0]) + "," + PrintItems(items[1..])
  }

  /** Object members `"key":value`, separated by commas, in order. */
  function PrintMembers(members: seq<JMember>): string
    decreases members
  {
    if members == [] then ""
    else
      var head := QuoteText(members[0].key) + ":" + Print(members[0].value);
      if |members| == 1 then head else head + "," + PrintMembers(members[1..])
  }

  // ---------------------------------------------------------------------
  // Reading. Each parser takes the remaining text and returns the value it
  // read with the text that follows it.
  // ---------------------------------------------------------------------

  function SkipWhitespace(s: string): (r: string)
    ensures |r| <= |s|
    ensures r == [] || !IsWhitespace(r[0])
  {
    if s != [] && IsWhitespace(s[0]) then SkipWhitespace(s[1..]) else s
  }

  /** The longest run of digits at the front of `s`. */
  function TakeDigits(s: string): (d: string)
    ensures |d| <= |s| && d == s[..|d|]
    ensures AllDigits(d)
    ensures |d| == |s| || !IsDigit(s[|d|])
  {
    if s != [] && IsDigit(s[0]) then [s[0]] + TakeDigits(s[1..]) else []
  }

  /** The value of a run of decimal digits. */
  function DigitsValue(d: string): int
  {
    if d == [] then 0 else DigitsValue(d[..|d| - 1]) * 10 + (d[|d| - 1] as int - '0' as int)
  }

  /** Length of the fraction part `.digits` at the front of `s` (0 when there
      is none); `None` when a `.` is not followed by a digit. */
  function FractionLength(s: string): (r: Option<nat>)
    ensures r.Some? ==> r.value <= |s|
  {
    if s != [] && s[0] == '.' then
      var d := TakeDigits(s[1..]);
      if d == [] then None else Some(1 + |d|)
    else Some(0)
  }

  /** Length of the exponent part `e[+-]digits` at the front of `s` (0 when
      there is none); `None` when it has no digit. */
  function ExponentLength(s: string): (r: Option<nat>)
    ensures r.Some? ==> r.value <= |s|
  {
    if s != [] && (s[0] == 'e' || s[0] == 'E') then
      var sign := if |s| > 1 && (s[1] == '+' || s[1] == '-') then 1 else 0;
      var d := TakeDigits(s[1 + sign..]);
      if d == [] then None else Some(1 + sign + |d|)
    else Some(0)
  }

  /** Length of the integer part at the front of `t`: `0` alone or a digit
      run that does not start with `0`; `None` when there is none or it has
      a leading zero. */
  function IntegerLength(t: string): (r: Option<nat>)
    ensures r.Some? ==> 0 < r.value <= |t|
  {
    if t == [] || !IsDigit(t[0]) then None
    else if t[0] == '0' && |t| > 1 && IsDigit(t[1]) then None
    else Some(|TakeDigits(t)|)
  }

  /** The number whose integer part, fraction and exponent take the given
      lengths at the front of `s`. A magnitude beyond the range of an f64 is
      not refused here, although serde_json refuses it. */
  function NumberValue(s: string, w: nat, f: nat, e: nat): (r: Option<(JValue, string)>)
    requires 0 < w + f + e <= |s|
    ensures r.Some? ==> |r.value.1| < |s|
  {
    var len := w + f + e;
    if f == 0 && e == 0 then Some((JInt(DigitsValue(s[..w])), s[len..]))
    else Some((JFloat(s[..len]), s[len..]))
  }

  /** A number without its sign: the integer part, then an optional
      fraction and an optional exponent. */
  function ParseUnsigned(s: string): (r: Option<(JValue, string)>)
    ensures r.Some? ==> |r.value.1| < |s|
  {
    match IntegerLength(s)
    case None => None
    case Some(w) =>
      match FractionLength(s[w..])
      case None => None
      case Some(f) =>
        match ExponentLength(s[w..][f..])
        case None => None
        case Some(e) => NumberValue(s, w, f, e)
  }

  /** The number written with a leading `-`. serde_json reads `-0` as the
      float negative zero, not as the integer 0. */
  function Negated(v: JValue): JValue
  {
    match v
    case JInt(n) => if n == 0 then JFloat("-0") else JInt(-n)
    case JFloat(lexeme) => JFloat("-" + lexeme)
    case _ => v
  }

  /** A number: `-`? then an unsigned number. */
  function ParseNumber(s: string): (r: Option<(JValue, string)>)
    requires s != []
    ensures r.Some? ==> |r.value.1| < |s|
  {
    if s[0] == '-' then
      match ParseUnsigned(s[1..])
      case None => None
      case Some((v, rest)) => Some((Negated(v), rest))
    else ParseUnsigned(s)
  }

  function HexValue(c: char): Option<nat>
  {
    if '0' <= c <= '9' then Some(c as int - '0' as int)
    else if 'a' <= c <= 'f' then Some(c as int - 'a' as int + 10)
    else if 'A' <= c <= 'F' then Some(c as int - 'A' as int + 10)
    else None
  }

  /** The value of four hexadecimal digits. */
  function Hex4(s: string): (r: Option<nat>)
    requires |s| == 4
    ensures r.Some? ==> r.value < 0x1_0000
  {
    match (HexValue(s[0]), HexValue(s[1]), HexValue(s[2]), HexValue(s[3]))
    case (Some(a), Some(b), Some(c), Some(d)) =>
      if a < 16 && b < 16 && c < 16 && d < 16 then Some(((a * 16 + b) * 16 + c) * 16 + d) else None
    case _ => None
  }

  /** The escape sequence that follows a backslash inside a string. A
      `\u` escape of a high surrogate must be followed by one of a low
      surrogate; the pair stands for one character. */
  function ParseEscape(s: string): (r: Option<(char, string)>)
    ensures r.Some? ==> |r.value.1| < |s|
  {
    if s == [] then None
    else if s[0] == '"' then Some(('"', s[1..]))
    else if s[0] == '\\' then Some(('\\', s[1..]))
    else if s[0] == '/' then Some(('/', s[1..]))
    else if s[0] == 'b' then Some((0x08 as char, s[1..]))
    else if s[0] == 'f' then Some((0x0C as char, s[1..]))
    else if s[0] == 'n' then Some(('\n', s[1..]))
    else if s[0] == 'r' then Some(('\r', s[1..]))
    else if s[0] == 't' then Some(('\t', s[1..]))
    else if s[0] == 'u' && |s| >= 5 then
      match Hex4(s[1..5])
      case None => None
      case Some(hi) =>
        if 0xDC00 <= hi <= 0xDFFF then None
        else if 0xD800 <= hi <= 0xDBFF then
          if |s| >= 11 && s[5] == '\\' && s[6] == 'u' then
            match Hex4(s[7..11])
            case None => None
            case Some(lo) =>
              if 0xDC00 <= lo <= 0xDFFF
              then Some(((0x1_0000 + (hi - 0xD800) * 0x400 + (lo - 0xDC00)) as char, s[11..]))
              else None
          else None
        else Some((hi as char, s[5..]))
    else None
  }

  /** The characters of a string up to and including its closing quote. */
  function ParseChars(s: string): (r: Option<(string, string)>)
    ensures r.Some? ==> |r.value.1| < |s|
    decreases |s|
  {
    if s == [] then None
    else if s[0] == '"' then Some(([], s[1..]))
    else if s[0] == '\\' then
      match ParseEscape(s[1..])
      case None => None
      case Some((c, rest)) =>
        match ParseChars(rest)
        case None => None
        case Some((t, rest')) => Some(([c] + t, rest'))
    else if (s[0] as int) < 0x20 then None
    else
      match ParseChars(s[1..])
      case None => None
      case Some((t, rest')) => Some(([s[0]] + t, rest'))
  }

  function ParseWord(s: string, word: string, v: JValue): (r: Option<(JValue, string)>)
    requires word != []
    ensures r.Some? ==> |r.value.1| < |s|
  {
    if |s| >= |word| && s[..|word|] == word then Some((v, s[|word|..])) else None
  }

  /** One value, after optional whitespace. */
  function ParseValue(s: string): (r: Option<(JValue, string)>)
    ensures r.Some? ==> |r.value.1| < |s|
    decreases |s|, 1
  {
    var t := SkipWhitespace(s);
    if t == [] then None
    else if t[0] == '{' then ParseObject(t)
    else if t[0] == '[' then ParseArray(t)
    else if t[0] == '"' then
      match ParseChars(t[1..])
      case None => None
      case Some((str, rest)) => Some((JString(str), rest))
    else if t[0] == '-' || IsDigit(t[0]) then ParseNumber(t)
    else if t[0] == 'n' then ParseWord(t, "null", JNull)
    else if t[0] == 't' then ParseWord(t, "true", JBool(true))
    else if t[0] == 'f' then ParseWord(t, "false", JBool(false))
    else None
  }

  function ParseArray(s: string): (r: Option<(JValue, string)>)
    requires s != [] && s[0] == '['
    ensures r.Some? ==> |r.value.1| < |s|
    decreases |s|, 0
  {
    var t := SkipWhitespace(s[1..]);
    if t != [] && t[0] == ']' then Some((JArray([]), t[1..]))
    else
      match ParseElements(t)
      case None => None
      case Some((items, rest)) => Some((JArray(items), rest))
  }

  /** Elements of a non-empty array, up to and including the closing `]`. */
  function ParseElements(s: string): (r: Option<(seq<JValue>, string)>)
    ensures r.Some? ==> |r.value.1| < |s|
    decreases |s|, 2
  {
    match ParseValue(s)
    case None => None
    case Some((v, rest)) =>
      var t := SkipWhitespace(rest);
      if t == [] then None
      else if t[0] == ',' then
        match ParseElements(t[1..])
        case None => None
        case Some((vs, rest')) => Some(([v] + vs, rest'))
      else if t[0] == ']' then Some(([v], t[1..]))
      else None
  }

  function ParseObject(s: string): (r: Option<(JValue, string)>)
    requires s != [] && s[0] == '{'
    ensures r.Some? ==> |r.value.1| < |s|
    decreases |s|, 0
  {
    var t := SkipWhitespace(s[1..]);
    if t != [] && t[0] == '}' then Some((JObject([]), t[1..]))
    else
      match ParseMembers(t)
      case None => None
      case Some((members, rest)) => Some((JObject(members), rest))
  }

  /** Members of a non-empty object, starting at a key, up to and including
      the closing `}`. */
  function ParseMembers(s: string): (r: Option<(seq<JMember>, string)>)
    ensures r.Some? ==> |r.value.1| < |s|
    decreases |s|, 2
  {
    if s == [] || s[0] != '"' then None
    else
      match ParseChars(s[1..])
      case None => None
      case Some((key, rest)) =>
        var t := SkipWhitespace(rest);
        if t == [] || t[0] != ':' then None
        else
          match ParseValue(t[1..])
          case None => None
          case Some((v, rest')) =>
            var u := SkipWhitespace(rest');
            if u == [] then None
            else if u[0] == ',' then
              match ParseMembers(SkipWhitespace(u[1..]))
              case None => None
              case Some((ms, rest'')) => Some(([JMember(key, v)] + ms, rest''))
            else if u[0] == '}' then Some(([JMember(key, v)], u[1..]))
            else None
  }

  /** `serde_json::from_str`: one value, surrounded by optional whitespace
      and nothing else. */
  function Parse(s: string): Option<JValue>
  {
    match ParseValue(s)
    case None => None
    case Some((v, rest)) => if SkipWhitespace(rest) == [] then Some(v) else None
  }
}
