/** What the JSON writer and reader promise about each other: reading what
    was written gives back the same document, and text that needs no escape
    (non-ASCII included) is written as it is. */
module JsonRoundTrip {
  import opened Results
  import opened Json

  /** Text that can follow a written value without being read as part of it. */
  predicate Delimited(rest: string)
  {
    rest == [] || rest[0] == ',' || rest[0] == ']' || rest[0] == '}' || IsWhitespace(rest[0])
  }

  /** Documents the writer produces: numbers are integers throughout. */
  predicate Printable(v: JValue)
    decreases v
  {
    match v
    case JFloat(_) => false
    case JArray(items) => forall i | 0 <= i < |items| :: Printable(items[i])
    case JObject(members) => forall i | 0 <= i < |members| :: Printable(members[i].value)
    case _ => true
  }

  /** A character that the writer copies into a string unchanged. */
  predicate Verbatim(c: char)
  {
    c != '"' && c != '\\' && (c as int) >= 0x20
  }

  // ---------------------------------------------------------------------
  // Regrouping concatenations: small facts that the larger proofs call
  // instead of reasoning about sequence equality themselves
  // ---------------------------------------------------------------------

  lemma Assoc3(a: string, b: string, c: string)
    ensures a + b + c == a + (b + c)
  {
  }

  lemma Assoc4(a: string, b: string, c: string, d: string)
    ensures a + b + c + d == a + (b + (c + d))
  {
  }

  lemma Assoc5(a: string, b: string, c: string, d: string, e: string)
    ensures a + b + c + d + e == a + (b + (c + d + e))
  {
  }

  // ---------------------------------------------------------------------
  // Numbers
  // ---------------------------------------------------------------------

  lemma {:induction false} NatTextFacts(n: nat)
    ensures |NatText(n)| > 0 && AllDigits(NatText(n))
    ensures DigitsValue(NatText(n)) == n
    ensures NatText(n)[0] == '0' ==> n == 0 && NatText(n) == "0"
    decreases n
  {
    if n >= 10 {
      NatTextFacts(n / 10);
      var s := NatText(n);
      assert s[..|s| - 1] == NatText(n / 10);
      assert s[0] == NatText(n / 10)[0];
    }
  }

  lemma {:induction false} TakeDigitsOf(d: string, rest: string)
    requires AllDigits(d)
    requires rest == [] || !IsDigit(rest[0])
    ensures TakeDigits(d + rest) == d
  {
    if d != [] {
      assert (d + rest)[1..] == d[1..] + rest;
      TakeDigitsOf(d[1..], rest);
      assert [d[0]] + d[1..] == d;
    }
  }

  lemma NoFractionNoExponent(rest: string)
    requires Delimited(rest)
    ensures FractionLength(rest) == Some(0)
    ensures ExponentLength(rest) == Some(0)
  {
  }

  lemma IntegerLengthOf(digits: string, rest: string)
    requires digits != [] && AllDigits(digits)
    requires digits[0] == '0' ==> |digits| == 1
    requires rest == [] || !IsDigit(rest[0])
    ensures IntegerLength(digits + rest) == Some(|digits|)
  {
    TakeDigitsOf(digits, rest);
  }

  /** A run of digits without a leading zero reads back as an integer. */
  lemma DigitsParse(digits: string, rest: string)
    requires digits != [] && AllDigits(digits)
    requires digits[0] == '0' ==> |digits| == 1
    requires Delimited(rest)
    ensures ParseUnsigned(digits + rest) == Some((JInt(DigitsValue(digits)), rest))
  {
    var s := digits + rest;
    IntegerLengthOf(digits, rest);
    var w := |digits|;
    assert s[w..] == rest;
    NoFractionNoExponent(rest);
    assert rest[0..] == rest;
    assert ParseUnsigned(s) == NumberValue(s, w, 0, 0);
    assert s[..w] == digits;
  }

  /** A number's sign is read apart from its digits. */
  lemma SignParse(t: string, v: JValue, rest: string)
    requires t != [] && IsDigit(t[0])
    requires ParseUnsigned(t) == Some((v, rest))
    ensures ParseNumber(t) == Some((v, rest))
    ensures ParseNumber("-" + t) == Some((Negated(v), rest))
  {
    assert ("-" + t)[1..] == t;
  }

  /** A natural number reads back as itself, with nothing of what follows. */
  lemma NatTextParse(m: nat, rest: string)
    requires Delimited(rest)
    ensures NatText(m) != [] && IsDigit(NatText(m)[0])
    ensures ParseUnsigned(NatText(m) + rest) == Some((JInt(m), rest))
  {
    NatTextFacts(m);
    DigitsParse(NatText(m), rest);
  }

  lemma NegativeTextParse(n: int, rest: string)
    requires n < 0 && Delimited(rest)
    ensures ParseNumber(IntText(n) + rest) == Some((JInt(n), rest))
  {
    var t := NatText(-n) + rest;
    assert IntText(n) == "-" + NatText(-n);
    Assoc3("-", NatText(-n), rest);
    NatTextParse(-n, rest);
    SignParse(t, JInt(-n), rest);
  }

  /** `-0` reads as a float, not as an integer. */
  lemma NegativeZeroParse(rest: string)
    requires Delimited(rest)
    ensures ParseNumber("-0" + rest) == Some((JFloat("-0"), rest))
  {
    var t := "0" + rest;
    assert NatText(0) == "0";
    NatTextParse(0, rest);
    SignParse(t, JInt(0), rest);
    assert "-0" + rest == "-" + t;
  }

  /** An integer reads back as itself, with nothing of what follows. */
  lemma IntTextParse(n: int, rest: string)
    requires Delimited(rest)
    ensures ParseNumber(IntText(n) + rest) == Some((JInt(n), rest))
  {
    if n < 0 {
      NegativeTextParse(n, rest);
    } else {
      NatTextParse(n, rest);
      SignParse(NatText(n) + rest, JInt(n), rest);
    }
  }

  // ---------------------------------------------------------------------
  // Strings
  // ---------------------------------------------------------------------

  lemma HexDigitValue(d: nat)
    requires d < 16
    ensures HexValue(HexDigitChar(d)) == Some(d)
  {
  }

  /** A character written as `\u00XX` reads back as itself. */
  lemma ControlEscapeParse(c: char, t: string)
    requires (c as int) < 0x20
    ensures ParseEscape("u00" + [HexDigitChar(c as int / 16), HexDigitChar(c as int % 16)] + t)
         == Some((c, t))
  {
    var e := "u00" + [HexDigitChar(c as int / 16), HexDigitChar(c as int % 16)] + t;
    HexDigitValue(c as int / 16);
    HexDigitValue(c as int % 16);
    assert e[1..5] == "00" + [HexDigitChar(c as int / 16), HexDigitChar(c as int % 16)];
    assert Hex4(e[1..5]) == Some(c as int);
    assert e[5..] == t;
  }

  /** A character written with a backslash reads back as itself. */
  lemma EscapedCharParse(c: char, t: string)
    requires !Verbatim(c)
    ensures EscapeChar(c)[0] == '\\'
    ensures ParseEscape(EscapeChar(c)[1..] + t) == Some((c, t))
  {
    var e := EscapeChar(c)[1..] + t;
    if (c as int) < 0x20 && c as int != 0x08 && c as int != 0x0C && c != '\n' && c != '\r' && c != '\t' {
      assert e == "u00" + [HexDigitChar(c as int / 16), HexDigitChar(c as int % 16)] + t;
      ControlEscapeParse(c, t);
    } else {
      assert |EscapeChar(c)| == 2 && e[1..] == t;
    }
  }

  /** One written character reads back as itself, whatever follows it. */
  lemma EscapeCharParse(c: char, t: string)
    ensures ParseChars(EscapeChar(c) + t)
         == match ParseChars(t)
            case None => None
            case Some((u, r)) => Some(([c] + u, r))
  {
    var s := EscapeChar(c) + t;
    if Verbatim(c) {
      assert s[1..] == t;
    } else {
      EscapedCharParse(c, t);
      assert s[1..] == EscapeChar(c)[1..] + t;
    }
  }

  /** A written string body, with its closing quote, reads back as itself. */
  lemma {:induction false} EscapeParse(s: string, rest: string)
    ensures ParseChars(Escape(s) + "\"" + rest) == Some((s, rest))
  {
    if s == [] {
      assert Escape(s) + "\"" + rest == "\"" + rest;
    } else {
      var tail := Escape(s[1..]) + "\"" + rest;
      assert Escape(s) + "\"" + rest == EscapeChar(s[0]) + tail;
      EscapeParse(s[1..], rest);
      EscapeCharParse(s[0], tail);
      assert [s[0]] + s[1..] == s;
    }
  }

  /** Text without quotes, backslashes or control characters, including any
      non-ASCII text, is written verbatim. */
  lemma {:induction false} EscapeVerbatim(s: string)
    requires forall i | 0 <= i < |s| :: Verbatim(s[i])
    ensures Escape(s) == s
  {
    if s != [] {
      EscapeVerbatim(s[1..]);
      assert [s[0]] + s[1..] == s;
    }
  }

  // ---------------------------------------------------------------------
  // Documents
  // ---------------------------------------------------------------------

  /** A written document starts with a character that is not whitespace and
      cannot close an array or an object. */
  lemma PrintStart(v: JValue)
    requires Printable(v)
    ensures Print(v) != []
    ensures !IsWhitespace(Print(v)[0]) && Print(v)[0] != ']' && Print(v)[0] != '}'
  {
    if v.JInt? {
      NatTextFacts(if v.n < 0 then -v.n else v.n);
    }
  }

  /** One step of reading array elements, once the first value is read. */
  lemma ElementsStep(s: string, v: JValue, tail: string)
    requires ParseValue(s) == Some((v, tail))
    requires tail != [] && (tail[0] == ',' || tail[0] == ']')
    ensures tail[0] == ']' ==> ParseElements(s) == Some(([v], tail[1..]))
    ensures tail[0] == ',' ==> ParseElements(s)
                               == match ParseElements(tail[1..])
                                  case None => None
                                  case Some((vs, r)) => Some(([v] + vs, r))
  {
    assert SkipWhitespace(tail) == tail;
  }

  /** One step of reading object members, once the first key and value are
      read. */
  lemma MembersStep(s: string, key: string, afterKey: string, v: JValue, tail: string)
    requires s != [] && s[0] == '"'
    requires ParseChars(s[1..]) == Some((key, afterKey))
    requires afterKey != [] && afterKey[0] == ':'
    requires ParseValue(afterKey[1..]) == Some((v, tail))
    requires tail != [] && (tail[0] == ',' || tail[0] == '}')
    ensures tail[0] == '}' ==> ParseMembers(s) == Some(([JMember(key, v)], tail[1..]))
    ensures tail[0] == ',' ==> ParseMembers(s)
                               == match ParseMembers(SkipWhitespace(tail[1..]))
                                  case None => None
                                  case Some((ms, r)) => Some(([JMember(key, v)] + ms, r))
  {
    assert SkipWhitespace(afterKey) == afterKey;
    assert SkipWhitespace(tail) == tail;
  }

  lemma PrintParseWord(v: JValue, rest: string)
    requires v.JNull? || v.JBool?
    ensures ParseValue(Print(v) + rest) == Some((v, rest))
  {
    var s := Print(v) + rest;
    var w := Print(v);
    assert s[..|w|] == w && s[|w|..] == rest;
    assert SkipWhitespace(s) == s;
  }

  lemma IntTextStart(n: int)
    ensures IntText(n) != [] && (IntText(n)[0] == '-' || IsDigit(IntText(n)[0]))
  {
    var m: nat := if n < 0 then -n else n;
    NatTextFacts(m);
    assert IsDigit(NatText(m)[0]);
  }

  /** A value that starts like a number is read as a number. */
  lemma NumberStep(s: string)
    requires s != [] && (s[0] == '-' || IsDigit(s[0]))
    ensures ParseValue(s) == ParseNumber(s)
  {
    assert !IsWhitespace(s[0]);
    assert SkipWhitespace(s) == s;
    assert s[0] != '{' && s[0] != '[' && s[0] != '"';
  }

  lemma PrintParseInt(v: JValue, rest: string)
    requires v.JInt? && Delimited(rest)
    ensures ParseValue(Print(v) + rest) == Some((v, rest))
  {
    var text := IntText(v.n);
    IntTextStart(v.n);
    NumberStep(text + rest);
    IntTextParse(v.n, rest);
  }

  lemma PrintParseString(v: JValue, rest: string)
    requires v.JString?
    ensures ParseValue(Print(v) + rest) == Some((v, rest))
  {
    var s := Print(v) + rest;
    assert s[1..] == Escape(v.s) + "\"" + rest;
    assert SkipWhitespace(s) == s;
    EscapeParse(v.s, rest);
  }

  lemma {:induction false} PrintParse(v: JValue, rest: string)
    requires Printable(v) && Delimited(rest)
    ensures ParseValue(Print(v) + rest) == Some((v, rest))
    decreases v, 1
  {
    match v
    case JNull => PrintParseWord(v, rest);
    case JBool(_) => PrintParseWord(v, rest);
    case JInt(_) => PrintParseInt(v, rest);
    case JString(_) => PrintParseString(v, rest);
    case JArray(_) => PrintParseArray(v, rest);
    case JObject(_) => PrintParseObject(v, rest);
  }

  lemma {:induction false} PrintParseArray(v: JValue, rest: string)
    requires v.JArray? && Printable(v)
    ensures ParseValue(Print(v) + rest) == Some((v, rest))
    decreases v, 0
  {
    var s := Print(v) + rest;
    assert SkipWhitespace(s) == s;
    var t := PrintItems(v.items) + "]" + rest;
    assert s[1..] == t;
    if v.items != [] {
      PrintStart(v.items[0]);
      assert t[0] == Print(v.items[0])[0];
      assert SkipWhitespace(t) == t;
      PrintParseItems(v.items, rest);
    } else {
      assert t == "]" + rest;
    }
  }

  lemma {:induction false} PrintParseObject(v: JValue, rest: string)
    requires v.JObject? && Printable(v)
    ensures ParseValue(Print(v) + rest) == Some((v, rest))
    decreases v, 0
  {
    var s := Print(v) + rest;
    assert SkipWhitespace(s) == s;
    var t := PrintMembers(v.members) + "}" + rest;
    assert s[1..] == t;
    if v.members != [] {
      assert t[0] == '"';
      assert SkipWhitespace(t) == t;
      PrintParseMembers(v.members, rest);
    } else {
      assert t == "}" + rest;
    }
  }

  lemma {:induction false} PrintParseItems(items: seq<JValue>, rest: string)
    requires items != [] && forall i | 0 <= i < |items| :: Printable(items[i])
    ensures ParseElements(PrintItems(items) + "]" + rest) == Some((items, rest))
    decreases items, 1
  {
    if |items| == 1 {
      var tail := "]" + rest;
      var s := Print(items[0]) + tail;
      assert PrintItems(items) + "]" + rest == s;
      PrintParse(items[0], tail);
      ElementsStep(s, items[0], tail);
      assert tail[1..] == rest;
      assert [items[0]] == items;
    } else {
      PrintParseMoreItems(items, rest);
    }
  }

  lemma ItemsTextStep(items: seq<JValue>, rest: string)
    requires |items| > 1
    ensures PrintItems(items) + "]" + rest == Print(items[0]) + ("," + (PrintItems(items[1..]) + "]" + rest))
  {
    assert PrintItems(items) == Print(items[0]) + "," + PrintItems(items[1..]);
    Assoc5(Print(items[0]), ",", PrintItems(items[1..]), "]", rest);
  }

  /** A value, a comma, then the other elements. */
  lemma ElementsComma(s: string, v: JValue, nextText: string, vs: seq<JValue>, rest: string)
    requires ParseValue(s) == Some((v, "," + nextText))
    requires ParseElements(nextText) == Some((vs, rest))
    ensures ParseElements(s) == Some(([v] + vs, rest))
  {
    var tail := "," + nextText;
    ElementsStep(s, v, tail);
    assert tail[1..] == nextText;
  }

  lemma {:induction false} PrintParseMoreItems(items: seq<JValue>, rest: string)
    requires |items| > 1 && forall i | 0 <= i < |items| :: Printable(items[i])
    ensures ParseElements(PrintItems(items) + "]" + rest) == Some((items, rest))
    decreases items, 0
  {
    var next := items[1..];
    var nextText := PrintItems(next) + "]" + rest;
    ItemsTextStep(items, rest);
    PrintParse(items[0], "," + nextText);
    PrintParseItems(next, rest);
    ElementsComma(Print(items[0]) + ("," + nextText), items[0], nextText, next, rest);
    assert [items[0]] + next == items;
  }

  /** A written member reads back as itself, followed by what comes after
      it in its object. */
  lemma {:induction false} PrintParseMember(m: JMember, tail: string)
    requires Printable(m.value)
    requires tail != [] && (tail[0] == ',' || tail[0] == '}')
    ensures tail[0] == '}' ==> ParseMembers(QuoteText(m.key) + ":" + Print(m.value) + tail)
                               == Some(([m], tail[1..]))
    ensures tail[0] == ',' ==> ParseMembers(QuoteText(m.key) + ":" + Print(m.value) + tail)
                               == match ParseMembers(SkipWhitespace(tail[1..]))
                                  case None => None
                                  case Some((ms, r)) => Some(([m] + ms, r))
    decreases m
  {
    var s := QuoteText(m.key) + ":" + Print(m.value) + tail;
    var valueText := Print(m.value) + tail;
    var afterKey := ":" + valueText;
    Assoc4(QuoteText(m.key), ":", Print(m.value), tail);
    QuotedKeyParse(m.key, afterKey);
    assert afterKey[1..] == valueText;
    PrintParse(m.value, tail);
    MembersStep(s, m.key, afterKey, m.value, tail);
  }

  lemma {:induction false} PrintParseMembers(members: seq<JMember>, rest: string)
    requires members != [] && forall i | 0 <= i < |members| :: Printable(members[i].value)
    ensures ParseMembers(PrintMembers(members) + "}" + rest) == Some((members, rest))
    decreases members, 1
  {
    var m := members[0];
    if |members| == 1 {
      var tail := "}" + rest;
      assert PrintMembers(members) + "}" + rest
          == QuoteText(m.key) + ":" + Print(m.value) + tail;
      PrintParseMember(m, tail);
      assert tail[1..] == rest;
      assert [m] == members;
    } else {
      PrintParseMoreMembers(members, rest);
    }
  }

  lemma MembersTextStep(members: seq<JMember>, rest: string)
    requires |members| > 1
    ensures PrintMembers(members) + "}" + rest
         == QuoteText(members[0].key) + ":" + Print(members[0].value) + ("," + (PrintMembers(members[1..]) + "}" + rest))
  {
    var head := QuoteText(members[0].key) + ":" + Print(members[0].value);
    assert PrintMembers(members) == head + "," + PrintMembers(members[1..]);
    Assoc5(head, ",", PrintMembers(members[1..]), "}", rest);
  }

  lemma {:induction false} PrintParseMoreMembers(members: seq<JMember>, rest: string)
    requires |members| > 1 && forall i | 0 <= i < |members| :: Printable(members[i].value)
    ensures ParseMembers(PrintMembers(members) + "}" + rest) == Some((members, rest))
    decreases members, 0
  {
    var m := members[0];
    var next := members[1..];
    var nextText := PrintMembers(next) + "}" + rest;
    var tail := "," + nextText;
    MembersTextStep(members, rest);
    PrintParseMember(m, tail);
    assert SkipWhitespace(tail[1..]) == nextText by {
      assert tail[1..] == nextText;
      assert PrintMembers(next)[0] == '"';
    }
    PrintParseMembers(next, rest);
    assert [m] + next == members;
  }

  // ---------------------------------------------------------------------
  // Whitespace between tokens
  // ---------------------------------------------------------------------

  predicate AllWhitespace(w: string)
  {
    forall i | 0 <= i < |w| :: IsWhitespace(w[i])
  }

  lemma {:induction false} SkipAllWhitespace(w: string, rest: string)
    requires AllWhitespace(w)
    requires rest == [] || !IsWhitespace(rest[0])
    ensures SkipWhitespace(w + rest) == rest
  {
    if w != [] {
      assert (w + rest)[1..] == w[1..] + rest;
      SkipAllWhitespace(w[1..], rest);
    }
  }

  /** A quoted key reads back as itself, followed by what comes after it. */
  lemma QuotedKeyParse(key: string, afterKey: string)
    ensures QuoteText(key) + afterKey != [] && (QuoteText(key) + afterKey)[0] == '"'
    ensures ParseChars((QuoteText(key) + afterKey)[1..]) == Some((key, afterKey))
  {
    var s := QuoteText(key) + afterKey;
    assert s[1..] == Escape(key) + "\"" + afterKey;
    EscapeParse(key, afterKey);
  }

  /** The last member of an object, once its key and value are read and
      only whitespace and the closing brace remain. */
  lemma MembersStepEnd(s: string, key: string, afterKey: string, v: JValue, tail: string, rest: string)
    requires s != [] && s[0] == '"'
    requires ParseChars(s[1..]) == Some((key, afterKey))
    requires afterKey != [] && afterKey[0] == ':'
    requires ParseValue(afterKey[1..]) == Some((v, tail))
    requires SkipWhitespace(tail) == "}" + rest
    ensures ParseMembers(s) == Some(([JMember(key, v)], rest))
  {
    assert SkipWhitespace(afterKey) == afterKey;
    assert ("}" + rest)[1..] == rest;
  }

  /** Whitespace, then the closing brace. */
  lemma SpacedClose(w: string, rest: string)
    requires AllWhitespace(w)
    ensures Delimited(w + "}" + rest)
    ensures SkipWhitespace(w + "}" + rest) == "}" + rest
  {
    var tail := w + "}" + rest;
    if w != [] {
      assert tail[0] == w[0];
    }
    assert tail == w + ("}" + rest);
    SkipAllWhitespace(w, "}" + rest);
  }

  /** The last member of an object, with whitespace before the closing
      brace. */
  lemma LastMemberSpaced(m: JMember, w: string, rest: string)
    requires Printable(m.value) && AllWhitespace(w)
    ensures ParseMembers(QuoteText(m.key) + ":" + Print(m.value) + (w + "}" + rest)) == Some(([m], rest))
  {
    var tail := w + "}" + rest;
    var valueText := Print(m.value) + tail;
    var afterKey := ":" + valueText;
    var s := QuoteText(m.key) + afterKey;
    Assoc4(QuoteText(m.key), ":", Print(m.value), tail);
    QuotedKeyParse(m.key, afterKey);
    assert afterKey[1..] == valueText;
    SpacedClose(w, rest);
    PrintParse(m.value, tail);
    MembersStepEnd(s, m.key, afterKey, m.value, tail, rest);
  }

  /** `from_str` of `to_string` gives back the document. */
  lemma PrintThenParse(v: JValue)
    requires Printable(v)
    ensures Parse(Print(v)) == Some(v)
  {
    PrintParse(v, []);
    assert Print(v) + [] == Print(v);
  }
}
