/** The two tests of src/message/mod.rs as facts about the model: the
    exact text `serde_json::to_string` gives for three messages and a
    chain, and the value `serde_json::from_str` reads from an indented
    `FriendMessage` document.

    Long expected texts are written as a concatenation of short literal
    pieces; the pieces put together are, character for character, the
    raw strings of the tests. */
module MessageExamples {
  import opened Results
  import opened Json
  import opened JsonRoundTrip
  import opened Message
  import opened MessageRoundTrip

  // ---------------------------------------------------------------------
  // Literal facts the examples rest on
  // ---------------------------------------------------------------------

  lemma Digits()
    ensures IntText(20211113) == "20211113" && IntText(7) == "7"
  {
    assert NatText(20) == "20";
    assert NatText(202) == "202";
    assert NatText(2021) == "2021";
    assert NatText(20211) == "20211";
    assert NatText(202111) == "202111";
    assert NatText(2021111) == "2021111";
  }

  lemma ExampleTextsVerbatim()
    ensures AllVerbatim("20211113") && AllVerbatim("土土木木") && AllVerbatim("test")
    ensures AllVerbatim("hi") && AllVerbatim("Thungghuan")
    ensures AllVerbatim("FriendMessage") && AllVerbatim("messageChain") && AllVerbatim("sender")
  {
  }

  // ---------------------------------------------------------------------
  // check_message_chain_serialize_result
  // ---------------------------------------------------------------------

  lemma SourceLiteral()
    ensures "{\"type\":\"Source\",\"id\":" + "20211113" + ",\"time\":" + "20211113" + "}"
         == "{\"type\":\"Source\",\"id\":20211113,\"time\":20211113}"
  {
    assert "{\"type\":\"Source\",\"id\":" + "20211113" == "{\"type\":\"Source\",\"id\":20211113";
    assert "{\"type\":\"Source\",\"id\":20211113" + ",\"time\":" == "{\"type\":\"Source\",\"id\":20211113,\"time\":";
    assert "{\"type\":\"Source\",\"id\":20211113,\"time\":" + "20211113" == "{\"type\":\"Source\",\"id\":20211113,\"time\":20211113";
  }

  /** The tag comes first, then `id` and `time` as bare integers. */
  lemma SerializeSource()
    ensures EncodeSingle(Source(20211113, 20211113)) == "{\"type\":\"Source\",\"id\":20211113,\"time\":20211113}"
  {
    EncodeSourceText(20211113, 20211113);
    Digits();
    SourceLiteral();
  }

  lemma AtLiteral()
    ensures "{\"type\":\"At\",\"target\":\"" + "20211113" + "\",\"display\":\"" + "土土木木" + "\"}"
         == "{\"type\":\"At\",\"target\":\"20211113\",\"display\":\"土土木木\"}"
  {
    assert "{\"type\":\"At\",\"target\":\"" + "20211113" == "{\"type\":\"At\",\"target\":\"20211113";
    assert "{\"type\":\"At\",\"target\":\"20211113" + "\",\"display\":\"" == "{\"type\":\"At\",\"target\":\"20211113\",\"display\":\"";
    assert "{\"type\":\"At\",\"target\":\"20211113\",\"display\":\"" + "土土木木" == "{\"type\":\"At\",\"target\":\"20211113\",\"display\":\"土土木木";
  }

  /** The target is written as a string and the display name, which is not
      ASCII, is written without `\u` escapes. */
  lemma SerializeAt()
    ensures EncodeSingle(At("20211113", "土土木木"))
         == "{\"type\":\"At\",\"target\":\"20211113\",\"display\":\"土土木木\"}"
  {
    ExampleTextsVerbatim();
    EncodeAtText("20211113", "土土木木");
    AtLiteral();
  }

  lemma PlainLiteral(text: string)
    requires text == "test" || text == "hi"
    ensures "{\"type\":\"Plain\",\"text\":\"" + text + "\"}"
         == if text == "test" then "{\"type\":\"Plain\",\"text\":\"test\"}" else "{\"type\":\"Plain\",\"text\":\"hi\"}"
  {
    if text == "test" {
      assert "{\"type\":\"Plain\",\"text\":\"" + "test" == "{\"type\":\"Plain\",\"text\":\"test";
    } else {
      assert "{\"type\":\"Plain\",\"text\":\"" + "hi" == "{\"type\":\"Plain\",\"text\":\"hi";
    }
  }

  lemma SerializePlain()
    ensures EncodeSingle(Plain("test")) == "{\"type\":\"Plain\",\"text\":\"test\"}"
  {
    ExampleTextsVerbatim();
    EncodePlainText("test");
    PlainLiteral("test");
  }

  lemma JoinedPair(a: string, b: string)
    ensures Joined([a, b]) == a + "," + b
  {
    assert [a, b][..1] == [a];
  }

  lemma Bracketed(a: string, b: string)
    ensures "[" + (a + "," + b) + "]" == "[" + a + "," + b + "]"
  {
  }

  /** A chain of two messages is written as their texts, in chain order,
      between brackets. */
  lemma ChainOfTwo(m0: SingleMessage, m1: SingleMessage)
    ensures EncodeChain([m0, m1]) == "[" + EncodeSingle(m0) + "," + EncodeSingle(m1) + "]"
  {
    var chain := [m0, m1];
    EncodeChainText(chain);
    assert Encodings(chain) == [EncodeSingle(m0), EncodeSingle(m1)];
    JoinedPair(EncodeSingle(m0), EncodeSingle(m1));
    Bracketed(EncodeSingle(m0), EncodeSingle(m1));
  }

  /** The source message, then the plain one, in the order they were
      pushed. */
  lemma SerializeChain()
    ensures EncodeChain([Source(20211113, 20211113), Plain("test")])
         == "[" + "{\"type\":\"Source\",\"id\":20211113,\"time\":20211113}"
          + "," + "{\"type\":\"Plain\",\"text\":\"test\"}" + "]"
  {
    ChainOfTwo(Source(20211113, 20211113), Plain("test"));
    SerializeSource();
    SerializePlain();
  }

  // ---------------------------------------------------------------------
  // check_received_friend_message_deserialize_result
  // ---------------------------------------------------------------------

  /** The test's raw string: an object whose three members each sit on a
      line of their own, indented by eight spaces, with the closing brace
      indented by four. */
  const FriendMessageDocument: string :=
    "{" + "\n        " + "\"type\":\"FriendMessage\"" + ","
    + "\n        " + ("\"messageChain\":" + ("[" + "{\"type\":\"Source\",\"id\":7,\"time\":20211113}"
                                             + "," + "{\"type\":\"Plain\",\"text\":\"hi\"}" + "]")) + ","
    + "\n        " + ("\"sender\":" + "{\"id\":20211113,\"nickname\":\"Thungghuan\",\"remark\":\"Thungghuan\"}")
    + "\n    " + "}"

  lemma WhitespaceLiterals(indent: string, outdent: string)
    requires indent == "\n        " && outdent == "\n    "
    ensures AllWhitespace(indent) && AllWhitespace(outdent)
  {
  }

  lemma QuoteStart(s: string)
    ensures |QuoteText(s)| > 0 && QuoteText(s)[0] == '"'
  {
  }

  /** A member, a comma and whitespace, then the other members. */
  lemma SpacedMember(m: JMember, w: string, next: string, ms: seq<JMember>, rest: string)
    requires Printable(m.value) && AllWhitespace(w)
    requires next != [] && next[0] == '"'
    requires ParseMembers(next) == Some((ms, rest))
    ensures ParseMembers(MemberText(m) + ("," + (w + next))) == Some(([m] + ms, rest))
  {
    var tail := "," + (w + next);
    PrintParseMember(m, tail);
    assert tail[1..] == w + next;
    SkipAllWhitespace(w, next);
  }

  /** The opening brace and whitespace before the first member. */
  lemma SpacedOpen(w: string, x: string, ms: seq<JMember>)
    requires AllWhitespace(w)
    requires x != [] && x[0] == '"'
    requires ParseMembers(x) == Some((ms, ""))
    ensures Parse("{" + (w + x)) == Some(JObject(ms))
  {
    var s := "{" + (w + x);
    assert SkipWhitespace(s) == s;
    assert s[1..] == w + x;
    SkipAllWhitespace(w, x);
    assert ParseValue(s) == Some((JObject(ms), ""));
    assert SkipWhitespace("") == "";
  }

  lemma Spaced3Text(ta: string, tb: string, tc: string, w1: string, w2: string, w3: string, w4: string)
    ensures "{" + w1 + ta + "," + w2 + tb + "," + w3 + tc + w4 + "}"
         == "{" + (w1 + (ta + ("," + (w2 + (tb + ("," + (w3 + (tc + (w4 + "}" + "")))))))))
  {
  }

  /** An object of three members with whitespace around them reads back as
      those members, in order. */
  lemma SpacedObject3(a: JMember, b: JMember, c: JMember, w1: string, w2: string, w3: string, w4: string)
    requires Printable(a.value) && Printable(b.value) && Printable(c.value)
    requires AllWhitespace(w1) && AllWhitespace(w2) && AllWhitespace(w3) && AllWhitespace(w4)
    ensures Parse("{" + w1 + MemberText(a) + "," + w2 + MemberText(b) + "," + w3 + MemberText(c) + w4 + "}")
         == Some(JObject([a, b, c]))
  {
    QuoteStart(a.key);
    QuoteStart(b.key);
    QuoteStart(c.key);
    var z := MemberText(c) + (w4 + "}" + "");
    LastMemberSpaced(c, w4, "");
    var y := MemberText(b) + ("," + (w3 + z));
    SpacedMember(b, w3, z, [c], "");
    assert [b] + [c] == [b, c];
    var x := MemberText(a) + ("," + (w2 + y));
    SpacedMember(a, w2, y, [b, c], "");
    assert [a] + [b, c] == [a, b, c];
    SpacedOpen(w1, x, [a, b, c]);
    Spaced3Text(MemberText(a), MemberText(b), MemberText(c), w1, w2, w3, w4);
  }

  /** A member whose key needs no escape: the quoted key, a colon, the
      value. */
  lemma KeyMember(key: string, v: JValue)
    requires AllVerbatim(key)
    ensures MemberText(JMember(key, v)) == "\"" + key + "\":" + Print(v)
  {
    QuoteVerbatim(key);
  }

  lemma SourceSevenLiteral()
    ensures "{\"type\":\"Source\",\"id\":" + "7" + ",\"time\":" + "20211113" + "}"
         == "{\"type\":\"Source\",\"id\":7,\"time\":20211113}"
  {
    assert "{\"type\":\"Source\",\"id\":" + "7" == "{\"type\":\"Source\",\"id\":7";
    assert "{\"type\":\"Source\",\"id\":7" + ",\"time\":" == "{\"type\":\"Source\",\"id\":7,\"time\":";
    assert "{\"type\":\"Source\",\"id\":7,\"time\":" + "20211113" == "{\"type\":\"Source\",\"id\":7,\"time\":20211113";
  }

  lemma SourceSevenText()
    ensures EncodeSingle(Source(7, 20211113)) == "{\"type\":\"Source\",\"id\":7,\"time\":20211113}"
  {
    EncodeSourceText(7, 20211113);
    Digits();
    SourceSevenLiteral();
  }

  lemma PlainHiText()
    ensures EncodeSingle(Plain("hi")) == "{\"type\":\"Plain\",\"text\":\"hi\"}"
  {
    ExampleTextsVerbatim();
    EncodePlainText("hi");
    PlainLiteral("hi");
  }

  lemma ChainHiText()
    ensures EncodeChain([Source(7, 20211113), Plain("hi")])
         == "[" + "{\"type\":\"Source\",\"id\":7,\"time\":20211113}" + "," + "{\"type\":\"Plain\",\"text\":\"hi\"}" + "]"
  {
    ChainOfTwo(Source(7, 20211113), Plain("hi"));
    SourceSevenText();
    PlainHiText();
  }

  lemma SenderLiteral()
    ensures "{\"id\":" + "20211113" + ",\"nickname\":\"" + "Thungghuan" + "\",\"remark\":\"" + "Thungghuan" + "\"}"
         == "{\"id\":20211113,\"nickname\":\"Thungghuan\",\"remark\":\"Thungghuan\"}"
  {
    assert "{\"id\":" + "20211113" == "{\"id\":20211113";
    assert "{\"id\":20211113" + ",\"nickname\":\"" == "{\"id\":20211113,\"nickname\":\"";
    assert "{\"id\":20211113,\"nickname\":\"" + "Thungghuan" == "{\"id\":20211113,\"nickname\":\"Thungghuan";
    assert "{\"id\":20211113,\"nickname\":\"Thungghuan" + "\",\"remark\":\"" == "{\"id\":20211113,\"nickname\":\"Thungghuan\",\"remark\":\"";
    assert "{\"id\":20211113,\"nickname\":\"Thungghuan\",\"remark\":\"" + "Thungghuan" == "{\"id\":20211113,\"nickname\":\"Thungghuan\",\"remark\":\"Thungghuan";
  }

  lemma SenderText()
    ensures Print(FriendSenderJson(FriendSender(20211113, "Thungghuan", "Thungghuan")))
         == "{\"id\":20211113,\"nickname\":\"Thungghuan\",\"remark\":\"Thungghuan\"}"
  {
    ExampleTextsVerbatim();
    FriendSenderText(FriendSender(20211113, "Thungghuan", "Thungghuan"));
    Digits();
    SenderLiteral();
  }

  lemma KeyLiterals()
    ensures "\"type\":\"" + "FriendMessage" + "\"" == "\"type\":\"FriendMessage\""
    ensures "\"" + "messageChain" + "\":" == "\"messageChain\":"
    ensures "\"" + "sender" + "\":" == "\"sender\":"
  {
    assert "\"type\":\"" + "FriendMessage" == "\"type\":\"FriendMessage";
    assert "\"" + "messageChain" == "\"messageChain";
    assert "\"" + "sender" == "\"sender";
  }

  lemma TagMemberText(a: JMember)
    requires a == JMember(TagKey, JString("FriendMessage"))
    ensures MemberText(a) == "\"type\":\"FriendMessage\""
  {
    ExampleTextsVerbatim();
    TagMember("FriendMessage");
    KeyLiterals();
  }

  lemma ChainMemberText(b: JMember)
    requires b == JMember("messageChain", ChainJson([Source(7, 20211113), Plain("hi")]))
    ensures MemberText(b)
         == "\"messageChain\":" + ("[" + "{\"type\":\"Source\",\"id\":7,\"time\":20211113}"
                                  + "," + "{\"type\":\"Plain\",\"text\":\"hi\"}" + "]")
  {
    ExampleTextsVerbatim();
    KeyMember("messageChain", b.value);
    KeyLiterals();
    ChainHiText();
  }

  lemma SenderMemberText(c: JMember)
    requires c == JMember("sender", FriendSenderJson(FriendSender(20211113, "Thungghuan", "Thungghuan")))
    ensures MemberText(c)
         == "\"sender\":" + "{\"id\":20211113,\"nickname\":\"Thungghuan\",\"remark\":\"Thungghuan\"}"
  {
    ExampleTextsVerbatim();
    KeyMember("sender", c.value);
    KeyLiterals();
    SenderText();
  }

  /** The document is the three members of the friend message, laid out
      with the test's indentation. */
  lemma DocumentMembers(a: JMember, b: JMember, c: JMember)
    requires a == JMember(TagKey, JString("FriendMessage"))
    requires b == JMember("messageChain", ChainJson([Source(7, 20211113), Plain("hi")]))
    requires c == JMember("sender", FriendSenderJson(FriendSender(20211113, "Thungghuan", "Thungghuan")))
    ensures FriendMessageDocument
         == "{" + "\n        " + MemberText(a) + "," + "\n        " + MemberText(b) + ","
          + "\n        " + MemberText(c) + "\n    " + "}"
  {
    TagMemberText(a);
    ChainMemberText(b);
    SenderMemberText(c);
  }

  /** The decoded members: the tag names the friend variant, and the
      sender and the chain read back as what was written. */
  lemma DecodeDocumentMembers(a: JMember, b: JMember, c: JMember, sender: FriendSender, chain: MessageChain)
    requires a == JMember(TagKey, JString("FriendMessage"))
    requires b == JMember("messageChain", ChainJson(chain))
    requires c == JMember("sender", FriendSenderJson(sender))
    ensures DecodeReceived(JObject([a, b, c])) == Success(FriendMessage(sender, chain))
  {
    var ms := [a, b, c];
    FieldAt(ms, TagKey, 0);
    FieldAt(ms, "messageChain", 1);
    FieldAt(ms, "sender", 2);
    ChainRoundTrip(chain);
    FriendSenderRoundTrip(sender);
  }

  lemma SenderPrintable(s: FriendSender)
    ensures Printable(FriendSenderJson(s))
  {
  }

  /** A friend message laid out as an object with whitespace between its
      members reads back as that friend message, whatever its sender and
      chain. */
  lemma ReadSpacedFriendMessage(doc: string, a: JMember, b: JMember, c: JMember, indent: string, outdent: string,
                                sender: FriendSender, chain: MessageChain)
    requires AllWhitespace(indent) && AllWhitespace(outdent)
    requires a == JMember(TagKey, JString("FriendMessage"))
    requires b == JMember("messageChain", ChainJson(chain))
    requires c == JMember("sender", FriendSenderJson(sender))
    requires doc == "{" + indent + MemberText(a) + "," + indent + MemberText(b) + ","
                  + indent + MemberText(c) + outdent + "}"
    ensures FromStrReceived(doc) == Success(FriendMessage(sender, chain))
  {
    ChainPrintable(chain);
    SenderPrintable(sender);
    assert Printable(a.value);
    SpacedObject3(a, b, c, indent, indent, indent, outdent);
    DecodeDocumentMembers(a, b, c, sender, chain);
  }

  lemma ReadDocument(doc: string, sender: FriendSender, chain: MessageChain)
    requires sender == FriendSender(20211113, "Thungghuan", "Thungghuan")
    requires chain == [Source(7, 20211113), Plain("hi")]
    requires doc == FriendMessageDocument
    ensures FromStrReceived(doc) == Success(FriendMessage(sender, chain))
  {
    var a := JMember(TagKey, JString("FriendMessage"));
    var b := JMember("messageChain", ChainJson(chain));
    var c := JMember("sender", FriendSenderJson(sender));
    var indent, outdent := "\n        ", "\n    ";
    WhitespaceLiterals(indent, outdent);
    DocumentMembers(a, b, c);
    ReadSpacedFriendMessage(doc, a, b, c, indent, outdent, sender, chain);
  }

  /** Reading the indented document gives the friend message with its
      sender and its two-message chain. */
  lemma DeserializeFriendMessage()
    ensures FromStrReceived(FriendMessageDocument)
         == Success(FriendMessage(FriendSender(20211113, "Thungghuan", "Thungghuan"),
                                  [Source(7, 20211113), Plain("hi")]))
  {
    ReadDocument(FriendMessageDocument, FriendSender(20211113, "Thungghuan", "Thungghuan"),
                 [Source(7, 20211113), Plain("hi")]);
  }
}
