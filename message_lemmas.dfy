/** What the derived serde implementations of the message types promise:
    every value reads back from what is written for it, the written text
    has the shape the tests of src/message/mod.rs spell out, and the
    reader picks the variant by the `"type"` member and ignores members it
    does not know. */
module MessageRoundTrip {
  import opened Results
  import opened Json
  import opened JsonRoundTrip
  import opened Message

  // ---------------------------------------------------------------------
  // Decoding what was encoded
  // ---------------------------------------------------------------------

  lemma {:induction false} NoOccurrence(ms: seq<JMember>, key: string)
    requires forall j | 0 <= j < |ms| :: ms[j].key != key
    ensures Occurrences(ms, key) == 0
  {
    if ms != [] {
      NoOccurrence(ms[1..], key);
    }
  }

  lemma {:induction false} OneOccurrence(ms: seq<JMember>, key: string, i: nat)
    requires i < |ms| && ms[i].key == key
    requires forall j | 0 <= j < |ms| && j != i :: ms[j].key != key
    ensures Occurrences(ms, key) == 1
  {
    if i == 0 {
      NoOccurrence(ms[1..], key);
    } else {
      OneOccurrence(ms[1..], key, i - 1);
    }
  }

  /** A key carried by exactly one member is read from that member. */
  lemma FieldAt(ms: seq<JMember>, key: string, i: nat)
    requires i < |ms| && ms[i].key == key
    requires forall j | 0 <= j < |ms| && j != i :: ms[j].key != key
    ensures Field(ms, key) == Success(ms[i].value)
  {
    OneOccurrence(ms, key, i);
    var j :| 0 <= j < |ms| && ms[j] == JMember(key, Field(ms, key).value);
  }

  lemma SourceRoundTrip(id: Int32, time: Int32)
    ensures DecodeSingle(SingleJson(Source(id, time))) == Success(Source(id, time))
  {
    var ms := SingleJson(Source(id, time)).members;
    FieldAt(ms, TagKey, 0);
    FieldAt(ms, "id", 1);
    FieldAt(ms, "time", 2);
  }

  lemma AtRoundTrip(target: string, display: string)
    ensures DecodeSingle(SingleJson(At(target, display))) == Success(At(target, display))
  {
    var ms := SingleJson(At(target, display)).members;
    FieldAt(ms, TagKey, 0);
    FieldAt(ms, "target", 1);
    FieldAt(ms, "display", 2);
  }

  lemma PlainRoundTrip(text: string)
    ensures DecodeSingle(SingleJson(Plain(text))) == Success(Plain(text))
  {
    var ms := SingleJson(Plain(text)).members;
    FieldAt(ms, TagKey, 0);
    FieldAt(ms, "text", 1);
  }

  lemma SingleRoundTrip(m: SingleMessage)
    ensures DecodeSingle(SingleJson(m)) == Success(m)
  {
    match m
    case Source(id, time) => SourceRoundTrip(id, time);
    case At(target, display) => AtRoundTrip(target, display);
    case Plain(text) => PlainRoundTrip(text);
  }

  lemma {:induction false} ItemsRoundTrip(chain: MessageChain)
    ensures DecodeItems(ChainJson(chain).items) == Success(chain)
  {
    if chain != [] {
      var items := ChainJson(chain).items;
      SingleRoundTrip(chain[0]);
      ItemsRoundTrip(chain[1..]);
      assert items[1..] == ChainJson(chain[1..]).items;
      assert [chain[0]] + chain[1..] == chain;
    }
  }

  lemma ChainRoundTrip(chain: MessageChain)
    ensures DecodeChain(ChainJson(chain)) == Success(chain)
  {
    ItemsRoundTrip(chain);
  }

  lemma PermissionRoundTrip(p: Permission)
    ensures DecodePermission(JString(PermissionName(p))) == Success(p)
  {
  }

  lemma GroupRoundTrip(g: Group)
    ensures DecodeGroup(GroupJson(g)) == Success(g)
  {
    var ms := GroupJson(g).members;
    FieldAt(ms, "id", 0);
    FieldAt(ms, "name", 1);
    FieldAt(ms, "permission", 2);
    PermissionRoundTrip(g.permission);
  }

  lemma FriendSenderRoundTrip(s: FriendSender)
    ensures DecodeFriendSender(FriendSenderJson(s)) == Success(s)
  {
    var ms := FriendSenderJson(s).members;
    FieldAt(ms, "id", 0);
    FieldAt(ms, "nickname", 1);
    FieldAt(ms, "remark", 2);
  }

  lemma GroupSenderRoundTrip(s: GroupSender)
    ensures DecodeGroupSender(GroupSenderJson(s)) == Success(s)
  {
    var ms := GroupSenderJson(s).members;
    FieldAt(ms, "id", 0);
    FieldAt(ms, "memberName", 1);
    FieldAt(ms, "permission", 2);
    FieldAt(ms, "group", 3);
    PermissionRoundTrip(s.permission);
    GroupRoundTrip(s.group);
  }

  lemma ReceivedRoundTrip(r: ReceivedMessage)
    ensures DecodeReceived(ReceivedJson(r)) == Success(r)
  {
    var ms := ReceivedJson(r).members;
    FieldAt(ms, TagKey, 0);
    FieldAt(ms, "sender", 1);
    FieldAt(ms, "messageChain", 2);
    ChainRoundTrip(r.messageChain);
    match r
    case FriendMessage(sender, _) => FriendSenderRoundTrip(sender);
    case GroupMessage(sender, _) => GroupSenderRoundTrip(sender);
  }

  // ---------------------------------------------------------------------
  // Reading the text that was written
  // ---------------------------------------------------------------------

  lemma ChainPrintable(chain: MessageChain)
    ensures Printable(ChainJson(chain))
  {
  }

  lemma ReceivedPrintable(r: ReceivedMessage)
    ensures Printable(ReceivedJson(r))
  {
    ChainPrintable(r.messageChain);
    var ms := ReceivedJson(r).members;
    assert Printable(ms[0].value) && Printable(ms[1].value) && Printable(ms[2].value);
  }

  lemma SingleTextRoundTrip(m: SingleMessage)
    ensures FromStrSingle(EncodeSingle(m)) == Success(m)
  {
    PrintThenParse(SingleJson(m));
    SingleRoundTrip(m);
  }

  lemma ChainTextRoundTrip(chain: MessageChain)
    ensures FromStrChain(EncodeChain(chain)) == Success(chain)
  {
    ChainPrintable(chain);
    PrintThenParse(ChainJson(chain));
    ChainRoundTrip(chain);
  }

  lemma ReceivedTextRoundTrip(r: ReceivedMessage)
    ensures FromStrReceived(EncodeReceived(r)) == Success(r)
  {
    ReceivedPrintable(r);
    PrintThenParse(ReceivedJson(r));
    ReceivedRoundTrip(r);
  }

  /** An `i32` field written as `-0` is refused as a float. */
  lemma NegativeZeroRefused(ms: seq<JMember>, rest: string)
    requires Delimited(rest) && Occurrences(ms, "id") == 0
    ensures ParseNumber("-0" + rest) == Some((JFloat("-0"), rest))
    ensures DecodeSource([JMember("id", JFloat("-0"))] + ms) == Failure(InvalidType("i32"))
  {
    NegativeZeroParse(rest);
    assert ([JMember("id", JFloat("-0"))] + ms)[1..] == ms;
  }

  /** Different messages are written differently. */
  lemma EncodeSingleInjective(a: SingleMessage, b: SingleMessage)
    ensures EncodeSingle(a) == EncodeSingle(b) <==> a == b
  {
    if EncodeSingle(a) == EncodeSingle(b) {
      SingleTextRoundTrip(a);
      SingleTextRoundTrip(b);
    }
  }

  // ---------------------------------------------------------------------
  // The written text
  // ---------------------------------------------------------------------

  /** Text that is written between quotes as it is. */
  predicate AllVerbatim(s: string)
  {
    forall i | 0 <= i < |s| :: Verbatim(s[i])
  }

  lemma QuoteVerbatim(s: string)
    requires AllVerbatim(s)
    ensures QuoteText(s) == "\"" + s + "\""
  {
    EscapeVerbatim(s);
  }

  /** How one member is written. */
  function MemberText(m: JMember): string
  {
    QuoteText(m.key) + ":" + Print(m.value)
  }

  lemma PrintMembersLast(ms: seq<JMember>)
    requires |ms| == 1
    ensures PrintMembers(ms) == MemberText(ms[0])
  {
  }

  lemma PrintMembersStep(ms: seq<JMember>)
    requires |ms| > 1
    ensures PrintMembers(ms) == MemberText(ms[0]) + "," + PrintMembers(ms[1..])
  {
  }

  lemma PrintMembers2(ms: seq<JMember>)
    requires |ms| == 2
    ensures PrintMembers(ms) == MemberText(ms[0]) + "," + MemberText(ms[1])
  {
    PrintMembersStep(ms);
    PrintMembersLast(ms[1..]);
  }

  lemma PrintObject2(ms: seq<JMember>)
    requires |ms| == 2
    ensures Print(JObject(ms)) == "{" + MemberText(ms[0]) + "," + MemberText(ms[1]) + "}"
  {
    PrintMembers2(ms);
  }

  lemma Braced3(a: string, b: string, c: string)
    ensures "{" + (a + "," + (b + "," + c)) + "}" == "{" + a + "," + b + "," + c + "}"
  {
  }

  lemma PrintObject3(ms: seq<JMember>)
    requires |ms| == 3
    ensures Print(JObject(ms)) == "{" + MemberText(ms[0]) + "," + MemberText(ms[1]) + "," + MemberText(ms[2]) + "}"
  {
    var rest := ms[1..];
    PrintMembersStep(ms);
    PrintMembers2(rest);
    assert rest[0] == ms[1] && rest[1] == ms[2];
    Braced3(MemberText(ms[0]), MemberText(ms[1]), MemberText(ms[2]));
  }

  /** The member names and tags the writer uses need no escape. */
  lemma NamesVerbatim()
    ensures AllVerbatim(TagKey) && AllVerbatim("Source") && AllVerbatim("At") && AllVerbatim("Plain")
    ensures AllVerbatim("id") && AllVerbatim("time") && AllVerbatim("target") && AllVerbatim("display")
    ensures AllVerbatim("text") && AllVerbatim("nickname") && AllVerbatim("remark")
  {
  }

  lemma StringMember(key: string, text: string)
    requires AllVerbatim(key) && AllVerbatim(text)
    ensures MemberText(JMember(key, JString(text))) == "\"" + key + "\":\"" + text + "\""
  {
    QuoteVerbatim(key);
    QuoteVerbatim(text);
  }

  lemma IntMember(key: string, n: int)
    requires AllVerbatim(key)
    ensures MemberText(JMember(key, JInt(n))) == "\"" + key + "\":" + IntText(n)
  {
    QuoteVerbatim(key);
  }

  lemma TagKeyLiteral()
    ensures "\"" + TagKey + "\":\"" == "\"type\":\""
  {
    assert "\"" + "type" == "\"type";
  }

  lemma TagMember(name: string)
    requires AllVerbatim(name)
    ensures MemberText(JMember(TagKey, JString(name))) == "\"type\":\"" + name + "\""
  {
    NamesVerbatim();
    StringMember(TagKey, name);
    TagKeyLiteral();
  }

  // Regrouping of the pieces of a written object. Each lemma is pure
  // associativity over its parameters; the literal pieces are merged by
  // the *Literals lemmas below, apart from any other fact.

  lemma Regroup2(o: string, t: string, s: string, k: string, x: string, q: string, c: string)
    ensures o + t + s + (k + x + q) + c == (o + t + s + k) + x + (q + c)
  {
  }

  lemma Regroup3Int(o: string, t: string, s1: string, k1: string, x: string, s2: string, k2: string, y: string, c: string)
    ensures o + t + s1 + (k1 + x) + s2 + (k2 + y) + c == (o + t + s1 + k1) + x + (s2 + k2) + y + c
  {
  }

  lemma Regroup3String(o: string, t: string, s1: string, k1: string, x: string, q: string, s2: string, k2: string,
                       y: string, c: string)
    ensures o + t + s1 + (k1 + x + q) + s2 + (k2 + y + q) + c == (o + t + s1 + k1) + x + (q + s2 + k2) + y + (q + c)
  {
  }

  lemma RegroupSender(o: string, k0: string, x: string, s1: string, k1: string, y: string, q: string, s2: string,
                      k2: string, z: string, c: string)
    ensures o + (k0 + x) + s1 + (k1 + y + q) + s2 + (k2 + z + q) + c
         == (o + k0) + x + (s1 + k1) + y + (q + s2 + k2) + z + (q + c)
  {
  }

  lemma SourceLiterals()
    ensures "{" + ("\"type\":\"" + "Source" + "\"") + "," + ("\"" + "id" + "\":") == "{\"type\":\"Source\",\"id\":"
    ensures "," + ("\"" + "time" + "\":") == ",\"time\":"
  {
    assert "\"type\":\"" + "Source" == "\"type\":\"Source";
    assert "\"type\":\"Source" + "\"" == "\"type\":\"Source\"";
    assert "{" + "\"type\":\"Source\"" == "{\"type\":\"Source\"";
    assert "{\"type\":\"Source\"" + "," == "{\"type\":\"Source\",";
    assert "\"" + "id" == "\"id";
    assert "\"id" + "\":" == "\"id\":";
    assert "{\"type\":\"Source\"," + "\"id\":" == "{\"type\":\"Source\",\"id\":";
    assert "\"" + "time" == "\"time";
    assert "\"time" + "\":" == "\"time\":";
  }

  /** The written `Source` members, put together. */
  lemma SourcePieces(id: int, time: int, tag: string, idText: string, timeText: string)
    requires tag == "\"type\":\"" + "Source" + "\""
    requires idText == "\"" + "id" + "\":" + IntText(id)
    requires timeText == "\"" + "time" + "\":" + IntText(time)
    ensures "{" + tag + "," + idText + "," + timeText + "}"
         == "{\"type\":\"Source\",\"id\":" + IntText(id) + ",\"time\":" + IntText(time) + "}"
  {
    Regroup3Int("{", tag, ",", "\"" + "id" + "\":", IntText(id), ",", "\"" + "time" + "\":", IntText(time), "}");
    SourceLiterals();
  }

  lemma AtLiterals()
    ensures "{" + ("\"type\":\"" + "At" + "\"") + "," + ("\"" + "target" + "\":\"") == "{\"type\":\"At\",\"target\":\""
    ensures "\"" + "," + ("\"" + "display" + "\":\"") == "\",\"display\":\""
    ensures "\"" + "}" == "\"}"
  {
    assert "\"type\":\"" + "At" == "\"type\":\"At";
    assert "\"type\":\"At" + "\"" == "\"type\":\"At\"";
    assert "{" + "\"type\":\"At\"" == "{\"type\":\"At\"";
    assert "{\"type\":\"At\"" + "," == "{\"type\":\"At\",";
    assert "\"" + "target" == "\"target";
    assert "\"target" + "\":\"" == "\"target\":\"";
    assert "{\"type\":\"At\"," + "\"target\":\"" == "{\"type\":\"At\",\"target\":\"";
    assert "\"" + "display" == "\"display";
    assert "\"display" + "\":\"" == "\"display\":\"";
    assert "\"" + "," == "\",";
    assert "\"," + "\"display\":\"" == "\",\"display\":\"";
  }

  /** The written `At` members, put together. */
  lemma AtPieces(target: string, display: string, tag: string, targetText: string, displayText: string)
    requires tag == "\"type\":\"" + "At" + "\""
    requires targetText == "\"" + "target" + "\":\"" + target + "\""
    requires displayText == "\"" + "display" + "\":\"" + display + "\""
    ensures "{" + tag + "," + targetText + "," + displayText + "}"
         == "{\"type\":\"At\",\"target\":\"" + target + "\",\"display\":\"" + display + "\"}"
  {
    Regroup3String("{", tag, ",", "\"" + "target" + "\":\"", target, "\"", ",", "\"" + "display" + "\":\"", display, "}");
    AtLiterals();
  }

  lemma PlainLiterals()
    ensures "{" + ("\"type\":\"" + "Plain" + "\"") + "," + ("\"" + "text" + "\":\"") == "{\"type\":\"Plain\",\"text\":\""
    ensures "\"" + "}" == "\"}"
  {
    assert "\"type\":\"" + "Plain" == "\"type\":\"Plain";
    assert "\"type\":\"Plain" + "\"" == "\"type\":\"Plain\"";
    assert "{" + "\"type\":\"Plain\"" == "{\"type\":\"Plain\"";
    assert "{\"type\":\"Plain\"" + "," == "{\"type\":\"Plain\",";
    assert "\"" + "text" == "\"text";
    assert "\"text" + "\":\"" == "\"text\":\"";
    assert "{\"type\":\"Plain\"," + "\"text\":\"" == "{\"type\":\"Plain\",\"text\":\"";
  }

  /** The written `Plain` members, put together. */
  lemma PlainPieces(text: string, tag: string, textText: string)
    requires tag == "\"type\":\"" + "Plain" + "\""
    requires textText == "\"" + "text" + "\":\"" + text + "\""
    ensures "{" + tag + "," + textText + "}" == "{\"type\":\"Plain\",\"text\":\"" + text + "\"}"
  {
    Regroup2("{", tag, ",", "\"" + "text" + "\":\"", text, "\"", "}");
    PlainLiterals();
  }

  lemma FriendSenderLiterals()
    ensures "{" + ("\"" + "id" + "\":") == "{\"id\":"
    ensures "," + ("\"" + "nickname" + "\":\"") == ",\"nickname\":\""
    ensures "\"" + "," + ("\"" + "remark" + "\":\"") == "\",\"remark\":\""
    ensures "\"" + "}" == "\"}"
  {
    assert "\"" + "id" == "\"id";
    assert "\"id" + "\":" == "\"id\":";
    assert "\"" + "nickname" == "\"nickname";
    assert "\"nickname" + "\":\"" == "\"nickname\":\"";
    assert "\"" + "remark" == "\"remark";
    assert "\"remark" + "\":\"" == "\"remark\":\"";
    assert "\"" + "," == "\",";
    assert "\"," + "\"remark\":\"" == "\",\"remark\":\"";
  }

  /** The written `FriendSender` members, put together. */
  lemma FriendSenderPieces(id: int, nickname: string, remark: string, idText: string, nickText: string, remarkText: string)
    requires idText == "\"" + "id" + "\":" + IntText(id)
    requires nickText == "\"" + "nickname" + "\":\"" + nickname + "\""
    requires remarkText == "\"" + "remark" + "\":\"" + remark + "\""
    ensures "{" + idText + "," + nickText + "," + remarkText + "}"
         == "{\"id\":" + IntText(id) + ",\"nickname\":\"" + nickname + "\",\"remark\":\"" + remark + "\"}"
  {
    RegroupSender("{", "\"" + "id" + "\":", IntText(id), ",", "\"" + "nickname" + "\":\"", nickname, "\"", ",",
                  "\"" + "remark" + "\":\"", remark, "}");
    FriendSenderLiterals();
  }

  /** A friend sender is written as its three fields in declaration
      order. */
  lemma FriendSenderText(s: FriendSender)
    requires AllVerbatim(s.nickname) && AllVerbatim(s.remark)
    ensures Print(FriendSenderJson(s))
         == "{\"id\":" + IntText(s.id) + ",\"nickname\":\"" + s.nickname + "\",\"remark\":\"" + s.remark + "\"}"
  {
    NamesVerbatim();
    var ms := FriendSenderJson(s).members;
    PrintObject3(ms);
    IntMember("id", s.id);
    StringMember("nickname", s.nickname);
    StringMember("remark", s.remark);
    FriendSenderPieces(s.id, s.nickname, s.remark, MemberText(ms[0]), MemberText(ms[1]), MemberText(ms[2]));
  }

  /** `Source` is the tag, then `id` and `time` as bare integers, with no
      whitespace anywhere. */
  lemma EncodeSourceText(id: Int32, time: Int32)
    ensures EncodeSingle(Source(id, time))
         == "{\"type\":\"Source\",\"id\":" + IntText(id) + ",\"time\":" + IntText(time) + "}"
  {
    NamesVerbatim();
    var ms := SingleJson(Source(id, time)).members;
    PrintObject3(ms);
    TagMember("Source");
    IntMember("id", id);
    IntMember("time", time);
    SourcePieces(id, time, MemberText(ms[0]), MemberText(ms[1]), MemberText(ms[2]));
  }

  /** `At` writes its target as a string, not a number; text that needs no
      escape, non-ASCII included, is copied as it is. */
  lemma EncodeAtText(target: string, display: string)
    requires AllVerbatim(target) && AllVerbatim(display)
    ensures EncodeSingle(At(target, display))
         == "{\"type\":\"At\",\"target\":\"" + target + "\",\"display\":\"" + display + "\"}"
  {
    NamesVerbatim();
    var ms := SingleJson(At(target, display)).members;
    PrintObject3(ms);
    TagMember("At");
    StringMember("target", target);
    StringMember("display", display);
    AtPieces(target, display, MemberText(ms[0]), MemberText(ms[1]), MemberText(ms[2]));
  }

  lemma EncodePlainText(text: string)
    requires AllVerbatim(text)
    ensures EncodeSingle(Plain(text)) == "{\"type\":\"Plain\",\"text\":\"" + text + "\"}"
  {
    NamesVerbatim();
    var ms := SingleJson(Plain(text)).members;
    PrintObject2(ms);
    TagMember("Plain");
    StringMember("text", text);
    PlainPieces(text, MemberText(ms[0]), MemberText(ms[1]));
  }

  /** The parts joined by commas, built from the last one backwards. */
  function Joined(parts: seq<string>): string
  {
    if parts == [] then ""
    else if |parts| == 1 then parts[0]
    else Joined(parts[..|parts| - 1]) + "," + parts[|parts| - 1]
  }

  function Encodings(chain: MessageChain): (parts: seq<string>)
    ensures |parts| == |chain|
    ensures forall i | 0 <= i < |chain| :: parts[i] == EncodeSingle(chain[i])
  {
    seq(|chain|, i requires 0 <= i < |chain| => EncodeSingle(chain[i]))
  }

  lemma {:induction false} JoinedCons(p: string, parts: seq<string>)
    requires parts != []
    ensures Joined([p] + parts) == p + "," + Joined(parts)
    decreases |parts|
  {
    var all := [p] + parts;
    var last := parts[|parts| - 1];
    if |parts| == 1 {
      assert all[..1] == [p];
    } else {
      var front := parts[..|parts| - 1];
      JoinedCons(p, front);
      assert all[..|all| - 1] == [p] + front;
      assert all[|all| - 1] == last;
      var jf := Joined(front);
      assert Joined(all) == (p + "," + jf) + "," + last;
      assert Joined(parts) == jf + "," + last;
    }
  }

  lemma {:induction false} ItemsJoined(chain: MessageChain)
    ensures PrintItems(ChainJson(chain).items) == Joined(Encodings(chain))
    decreases |chain|
  {
    var items := ChainJson(chain).items;
    if |chain| > 1 {
      ItemsJoined(chain[1..]);
      assert items[1..] == ChainJson(chain[1..]).items;
      assert Encodings(chain) == [EncodeSingle(chain[0])] + Encodings(chain[1..]);
      JoinedCons(EncodeSingle(chain[0]), Encodings(chain[1..]));
    } else if |chain| == 1 {
      assert Encodings(chain) == [EncodeSingle(chain[0])];
    }
  }

  /** A chain is its elements' encodings, in chain order, joined by commas
      between brackets: nothing is reordered, merged or dropped. */
  lemma EncodeChainText(chain: MessageChain)
    ensures EncodeChain(chain) == "[" + Joined(Encodings(chain)) + "]"
  {
    ItemsJoined(chain);
  }

  // ---------------------------------------------------------------------
  // Reading documents
  // ---------------------------------------------------------------------

  function VariantName(r: ReceivedMessage): string
  {
    match r
    case FriendMessage(_, _) => "FriendMessage"
    case GroupMessage(_, _) => "GroupMessage"
  }

  /** The variant read is the one the single `"type"` member names: a
      `FriendMessage` carries a friend sender, a `GroupMessage` a group
      sender, and both take their chain from `messageChain`. */
  lemma TagSelectsVariant(v: JValue, r: ReceivedMessage)
    requires DecodeReceived(v) == Success(r)
    ensures v.JObject? && Occurrences(v.members, TagKey) == 1
    ensures JMember(TagKey, JString(VariantName(r))) in v.members
    ensures Field(v.members, "messageChain").Success?
    ensures DecodeChain(Field(v.members, "messageChain").value) == Success(r.messageChain)
    ensures r.FriendMessage? ==> DecodeFriendSender(Field(v.members, "sender").value) == Success(r.friend)
    ensures r.GroupMessage? ==> DecodeGroupSender(Field(v.members, "sender").value) == Success(r.member)
  {
    assert v.JObject?;
    var ms := v.members;
    assert Tag(ms).Success?;
    var sv := Field(ms, "sender").value;
    var cv := Field(ms, "messageChain").value;
    if Tag(ms).value == "FriendMessage" {
      assert DecodeFriendMessage(ms) == Success(r);
      assert DecodeFriendSender(sv) == Success(r.friend);
      assert DecodeChain(cv) == Success(r.messageChain);
    } else {
      assert DecodeGroupMessage(ms) == Success(r);
      assert DecodeGroupSender(sv) == Success(r.member);
      assert DecodeChain(cv) == Success(r.messageChain);
    }
  }

  /** A chain reads element by element, in order. */
  lemma {:induction false} ItemsDecodeInOrder(items: seq<JValue>, chain: MessageChain)
    requires DecodeItems(items) == Success(chain)
    ensures |chain| == |items|
    ensures forall i | 0 <= i < |items| :: DecodeSingle(items[i]) == Success(chain[i])
  {
    if items != [] {
      ItemsDecodeInOrder(items[1..], chain[1..]);
    }
  }

  /** The members with `extra` put in at position `k`. */
  function InsertAt(ms: seq<JMember>, k: nat, extra: JMember): (all: seq<JMember>)
    requires k <= |ms|
    ensures |all| == |ms| + 1 && all[k] == extra
    ensures all[..k] == ms[..k] && all[k + 1..] == ms[k..]
  {
    ms[..k] + [extra] + ms[k..]
  }

  /** Inserting after the first member leaves the first member in front. */
  lemma InsertAtTail(ms: seq<JMember>, k: nat, extra: JMember)
    requires 0 < k <= |ms|
    ensures InsertAt(ms, k, extra)[0] == ms[0]
    ensures InsertAt(ms, k, extra)[1..] == InsertAt(ms[1..], k - 1, extra)
  {
    var tail := ms[1..];
    assert ms[..k] == [ms[0]] + tail[..k - 1];
    assert ms[k..] == tail[k - 1..];
  }

  lemma {:induction false} FieldIgnoresOtherKey(ms: seq<JMember>, k: nat, extra: JMember, key: string)
    requires k <= |ms| && extra.key != key
    ensures Occurrences(InsertAt(ms, k, extra), key) == Occurrences(ms, key)
    ensures Field(InsertAt(ms, k, extra), key) == Field(ms, key)
    decreases k
  {
    var all := InsertAt(ms, k, extra);
    if k == 0 {
      assert all[1..] == ms;
    } else {
      InsertAtTail(ms, k, extra);
      FieldIgnoresOtherKey(ms[1..], k - 1, extra, key);
    }
  }

  /** Keys that name a field of some single-message variant, or the tag. */
  predicate KnownSingleKey(k: string)
  {
    k == TagKey || k == "id" || k == "time" || k == "target" || k == "display" || k == "text"
  }

  lemma SourceIgnores(ms: seq<JMember>, k: nat, extra: JMember)
    requires k <= |ms| && extra.key != "id" && extra.key != "time"
    ensures DecodeSource(InsertAt(ms, k, extra)) == DecodeSource(ms)
  {
    FieldIgnoresOtherKey(ms, k, extra, "id");
    FieldIgnoresOtherKey(ms, k, extra, "time");
  }

  lemma AtIgnores(ms: seq<JMember>, k: nat, extra: JMember)
    requires k <= |ms| && extra.key != "target" && extra.key != "display"
    ensures DecodeAt(InsertAt(ms, k, extra)) == DecodeAt(ms)
  {
    FieldIgnoresOtherKey(ms, k, extra, "target");
    FieldIgnoresOtherKey(ms, k, extra, "display");
  }

  lemma PlainIgnores(ms: seq<JMember>, k: nat, extra: JMember)
    requires k <= |ms| && extra.key != "text"
    ensures DecodePlain(InsertAt(ms, k, extra)) == DecodePlain(ms)
  {
    FieldIgnoresOtherKey(ms, k, extra, "text");
  }

  lemma SameFieldsSameMessage(a: seq<JMember>, b: seq<JMember>)
    requires Tag(a) == Tag(b)
    requires DecodeSource(a) == DecodeSource(b)
    requires DecodeAt(a) == DecodeAt(b)
    requires DecodePlain(a) == DecodePlain(b)
    ensures DecodeTaggedSingle(a) == DecodeTaggedSingle(b)
  {
  }

  /** A member whose key is no field is ignored, whatever its value and
      wherever it stands among the others. */
  lemma UnknownMemberIgnored(ms: seq<JMember>, k: nat, extra: JMember)
    requires k <= |ms| && !KnownSingleKey(extra.key)
    ensures DecodeSingle(JObject(InsertAt(ms, k, extra))) == DecodeSingle(JObject(ms))
  {
    var more := InsertAt(ms, k, extra);
    FieldIgnoresOtherKey(ms, k, extra, TagKey);
    SourceIgnores(ms, k, extra);
    AtIgnores(ms, k, extra);
    PlainIgnores(ms, k, extra);
    SameFieldsSameMessage(more, ms);
  }

  /** A member is ignored when its key is not a field of the variant the
      tag names, even if another variant has a field of that name (an
      `"id"` inside a `Plain`, say). */
  lemma OtherVariantKeyIgnored(ms: seq<JMember>, k: nat, extra: JMember)
    requires k <= |ms| && extra.key != TagKey
    requires Tag(ms) == Success("Source") ==> extra.key != "id" && extra.key != "time"
    requires Tag(ms) == Success("At") ==> extra.key != "target" && extra.key != "display"
    requires Tag(ms) == Success("Plain") ==> extra.key != "text"
    ensures DecodeSingle(JObject(InsertAt(ms, k, extra))) == DecodeSingle(JObject(ms))
  {
    var more := InsertAt(ms, k, extra);
    FieldIgnoresOtherKey(ms, k, extra, TagKey);
    assert Tag(more) == Tag(ms);
    if Tag(ms) == Success("Source") {
      SourceIgnores(ms, k, extra);
      assert DecodeTaggedSingle(more) == DecodeSource(more);
    } else if Tag(ms) == Success("At") {
      AtIgnores(ms, k, extra);
      assert DecodeTaggedSingle(more) == DecodeAt(more);
    } else if Tag(ms) == Success("Plain") {
      PlainIgnores(ms, k, extra);
      assert DecodeTaggedSingle(more) == DecodePlain(more);
    }
    assert DecodeTaggedSingle(more) == DecodeTaggedSingle(ms);
  }

  /** A second `"type"` member is refused rather than one of them chosen,
      wherever the two stand. */
  lemma DuplicateTagRefused(ms: seq<JMember>)
    requires Occurrences(ms, TagKey) > 1
    ensures DecodeSingle(JObject(ms)) == Failure(DuplicateField(TagKey))
    ensures DecodeReceived(JObject(ms)) == Failure(DuplicateField(TagKey))
  {
  }

  lemma {:induction false} OccurrencesConcat(a: seq<JMember>, b: seq<JMember>, key: string)
    ensures Occurrences(a + b, key) == Occurrences(a, key) + Occurrences(b, key)
  {
    if a != [] {
      OccurrencesConcat(a[1..], b, key);
      assert (a + b)[1..] == a[1..] + b;
    } else {
      assert a + b == b;
    }
  }

  /** Two tags with any members before, between and after them, for
      example `{"id":1,"type":"Source","type":"At"}`, make two
      occurrences. */
  lemma TwoTagsAnywhere(p: seq<JMember>, q: seq<JMember>, r: seq<JMember>, x: JValue, y: JValue)
    ensures Occurrences(p + [JMember(TagKey, x)] + q + [JMember(TagKey, y)] + r, TagKey) > 1
  {
    var t1 := [JMember(TagKey, x)];
    var t2 := [JMember(TagKey, y)];
    assert Occurrences(t1, TagKey) == 1 by { assert t1[1..] == []; }
    assert Occurrences(t2, TagKey) == 1 by { assert t2[1..] == []; }
    OccurrencesConcat(p, t1, TagKey);
    OccurrencesConcat(p + t1, q, TagKey);
    OccurrencesConcat(p + t1 + q, t2, TagKey);
    OccurrencesConcat(p + t1 + q + t2, r, TagKey);
  }

  /** A document without the tag is refused, naming the tag. */
  lemma MissingTagRefused(ms: seq<JMember>)
    requires Occurrences(ms, TagKey) == 0
    ensures DecodeSingle(JObject(ms)) == Failure(MissingField(TagKey))
    ensures DecodeReceived(JObject(ms)) == Failure(MissingField(TagKey))
  {
  }
}
