/** The bot's message types (src/message/mod.rs, src/message/sender.rs)
    and their JSON form as the derived serde implementations give it:
    `SingleMessage` and `ReceivedMessage` are internally tagged by a
    `"type"` member, struct fields are members named after the fields
    (camelCase where the source renames them) and written in declaration
    order, and `Permission` is written as the name of its variant. */
module Message {
  import opened Results
  import opened Json
  import opened JsonRoundTrip

  /** Rust's `i32`. */
  type Int32 = n: int | -0x8000_0000 <= n <= 0x7FFF_FFFF

  datatype SingleMessage =
    | Source(id: Int32, time: Int32)
    | At(target: string, display: string)
    | Plain(text: string)

  type MessageChain = seq<SingleMessage>

  datatype Permission = Owner | Administrator | Member

  datatype Group = Group(id: Int32, name: string, permission: Permission)

  datatype FriendSender = FriendSender(id: Int32, nickname: string, remark: string)

  datatype GroupSender = GroupSender(id: Int32, memberName: string, permission: Permission, group: Group)

  datatype ReceivedMessage =
    | FriendMessage(friend: FriendSender, messageChain: MessageChain)
    | GroupMessage(member: GroupSender, messageChain: MessageChain)

  /** Why `serde_json::from_str` refused a document. */
  datatype DecodeError =
    | Syntax                          // the text is not one JSON value
    | InvalidType(expected: string)   // a value of the wrong JSON kind
    | InvalidValue(expected: string)  // an integer outside `i32`
    | MissingField(field: string)
    | DuplicateField(field: string)
    | UnknownVariant(variant: string)

  const TagKey := "type"

  // ---------------------------------------------------------------------
  // Writing: the document `serde_json::to_string` prints.
  // ---------------------------------------------------------------------

  function PermissionName(p: Permission): string
  {
    match p
    case Owner => "OWNER"
    case Administrator => "ADMINISTRATOR"
    case Member => "MEMBER"
  }

  function SingleJson(m: SingleMessage): JValue
  {
    match m
    case Source(id, time) =>
      JObject([JMember(TagKey, JString("Source")), JMember("id", JInt(id)), JMember("time", JInt(time))])
    case At(target, display) =>
      JObject([JMember(TagKey, JString("At")), JMember("target", JString(target)), JMember("display", JString(display))])
    case Plain(text) =>
      JObject([JMember(TagKey, JString("Plain")), JMember("text", JString(text))])
  }

  function ChainJson(chain: MessageChain): (v: JValue)
    ensures v.JArray? && |v.items| == |chain|
    ensures forall i | 0 <= i < |chain| :: v.items[i] == SingleJson(chain[i])
  {
    JArray(seq(|chain|, i requires 0 <= i < |chain| => SingleJson(chain[i])))
  }

  function GroupJson(g: Group): JValue
  {
    JObject([JMember("id", JInt(g.id)), JMember("name", JString(g.name)),
             JMember("permission", JString(PermissionName(g.permission)))])
  }

  function FriendSenderJson(s: FriendSender): JValue
  {
    JObject([JMember("id", JInt(s.id)), JMember("nickname", JString(s.nickname)),
             JMember("remark", JString(s.remark))])
  }

  function GroupSenderJson(s: GroupSender): JValue
  {
    JObject([JMember("id", JInt(s.id)), JMember("memberName", JString(s.memberName)),
             JMember("permission", JString(PermissionName(s.permission))),
             JMember("group", GroupJson(s.group))])
  }

  function ReceivedJson(r: ReceivedMessage): JValue
  {
    match r
    case FriendMessage(sender, chain) =>
      JObject([JMember(TagKey, JString("FriendMessage")), JMember("sender", FriendSenderJson(sender)),
               JMember("messageChain", ChainJson(chain))])
    case GroupMessage(sender, chain) =>
      JObject([JMember(TagKey, JString("GroupMessage")), JMember("sender", GroupSenderJson(sender)),
               JMember("messageChain", ChainJson(chain))])
  }

  /** `serde_json::to_string` of a single message. */
  function EncodeSingle(m: SingleMessage): string
  {
    Print(SingleJson(m))
  }

  /** `serde_json::to_string` of a chain. */
  function EncodeChain(chain: MessageChain): string
  {
    Print(ChainJson(chain))
  }

  function EncodeReceived(r: ReceivedMessage): string
  {
    Print(ReceivedJson(r))
  }

  // ---------------------------------------------------------------------
  // Reading: what the derived `Deserialize` accepts from a document.
  // ---------------------------------------------------------------------

  /** How many members of an object carry the key. */
  function Occurrences(members: seq<JMember>, key: string): nat
  {
    if members == [] then 0
    else (if members[0].key == key then 1 else 0) + Occurrences(members[1..], key)
  }

  /** A struct field or the tag: present exactly once, or an error. Members
      whose key is no field are never looked at, so they are ignored. */
  function Field(members: seq<JMember>, key: string): (r: Result<JValue, DecodeError>)
    ensures r.Success? <==> Occurrences(members, key) == 1
    ensures r.Success? ==> JMember(key, r.value) in members
    ensures Occurrences(members, key) == 0 ==> r == Failure(MissingField(key))
    ensures Occurrences(members, key) > 1 ==> r == Failure(DuplicateField(key))
  {
    if members == [] then Failure(MissingField(key))
    else if members[0].key != key then Field(members[1..], key)
    else if Occurrences(members[1..], key) == 0 then Success(members[0].value)
    else Failure(DuplicateField(key))
  }

  function AsObject(v: JValue, expected: string): Result<seq<JMember>, DecodeError>
  {
    if v.JObject? then Success(v.members) else Failure(InvalidType(expected))
  }

  /** An `i32`: an integer in range. serde_json keeps integers of the 64-bit
      range as integers (so a value outside `i32` is an invalid value) and
      reads any larger one, and `-0`, as a float (an invalid type). */
  function AsInt32(v: JValue): (r: Result<Int32, DecodeError>)
    ensures r.Success? <==> v.JInt? && -0x8000_0000 <= v.n <= 0x7FFF_FFFF
    ensures r.Success? ==> v == JInt(r.value)
  {
    if v.JInt? && -0x8000_0000 <= v.n <= 0x7FFF_FFFF then Success(v.n)
    else if v.JInt? && -0x8000_0000_0000_0000 <= v.n <= 0xFFFF_FFFF_FFFF_FFFF then Failure(InvalidValue("i32"))
    else Failure(InvalidType("i32"))
  }

  function AsString(v: JValue): (r: Result<string, DecodeError>)
    ensures r.Success? <==> v.JString?
    ensures r.Success? ==> v == JString(r.value)
  {
    if v.JString? then Success(v.s) else Failure(InvalidType("a string"))
  }

  function DecodePermission(v: JValue): (r: Result<Permission, DecodeError>)
    ensures r.Success? ==> v == JString(PermissionName(r.value))
  {
    var name :- AsString(v);
    if name == "OWNER" then Success(Owner)
    else if name == "ADMINISTRATOR" then Success(Administrator)
    else if name == "MEMBER" then Success(Member)
    else Failure(UnknownVariant(name))
  }

  function DecodeGroup(v: JValue): Result<Group, DecodeError>
  {
    var ms :- AsObject(v, "struct Group");
    var idv :- Field(ms, "id");
    var id :- AsInt32(idv);
    var namev :- Field(ms, "name");
    var name :- AsString(namev);
    var pv :- Field(ms, "permission");
    var p :- DecodePermission(pv);
    Success(Group(id, name, p))
  }

  function DecodeFriendSender(v: JValue): Result<FriendSender, DecodeError>
  {
    var ms :- AsObject(v, "struct FriendSender");
    var idv :- Field(ms, "id");
    var id :- AsInt32(idv);
    var nv :- Field(ms, "nickname");
    var nickname :- AsString(nv);
    var rv :- Field(ms, "remark");
    var remark :- AsString(rv);
    Success(FriendSender(id, nickname, remark))
  }

  function DecodeGroupSender(v: JValue): Result<GroupSender, DecodeError>
  {
    var ms :- AsObject(v, "struct GroupSender");
    var idv :- Field(ms, "id");
    var id :- AsInt32(idv);
    var nv :- Field(ms, "memberName");
    var memberName :- AsString(nv);
    var pv :- Field(ms, "permission");
    var p :- DecodePermission(pv);
    var gv :- Field(ms, "group");
    var g :- DecodeGroup(gv);
    Success(GroupSender(id, memberName, p, g))
  }

  /** The variant named by the `"type"` member, which must be a string. */
  function Tag(ms: seq<JMember>): (r: Result<string, DecodeError>)
    ensures r.Success? <==> Occurrences(ms, TagKey) == 1 && Field(ms, TagKey).value.JString?
    ensures r.Success? ==> JMember(TagKey, JString(r.value)) in ms
  {
    var tv :- Field(ms, TagKey);
    AsString(tv)
  }

  function DecodeSource(ms: seq<JMember>): Result<SingleMessage, DecodeError>
  {
    var idv :- Field(ms, "id");
    var id :- AsInt32(idv);
    var tv :- Field(ms, "time");
    var time :- AsInt32(tv);
    Success(Source(id, time))
  }

  function DecodeAt(ms: seq<JMember>): Result<SingleMessage, DecodeError>
  {
    var tv :- Field(ms, "target");
    var target :- AsString(tv);
    var dv :- Field(ms, "display");
    var display :- AsString(dv);
    Success(At(target, display))
  }

  function DecodePlain(ms: seq<JMember>): Result<SingleMessage, DecodeError>
  {
    var tv :- Field(ms, "text");
    var text :- AsString(tv);
    Success(Plain(text))
  }

  /** The tag picks the variant, whose fields are then read from the other
      members. */
  function DecodeSingle(v: JValue): Result<SingleMessage, DecodeError>
  {
    var ms :- AsObject(v, "internally tagged enum SingleMessage");
    DecodeTaggedSingle(ms)
  }

  function DecodeTaggedSingle(ms: seq<JMember>): Result<SingleMessage, DecodeError>
  {
    var tag :- Tag(ms);
    if tag == "Source" then DecodeSource(ms)
    else if tag == "At" then DecodeAt(ms)
    else if tag == "Plain" then DecodePlain(ms)
    else Failure(UnknownVariant(tag))
  }

  /** The elements in order; the first one that fails decides the error. */
  function DecodeItems(items: seq<JValue>): (r: Result<MessageChain, DecodeError>)
    ensures r.Success? ==> |r.value| == |items|
  {
    if items == [] then Success([])
    else
      var m :- DecodeSingle(items[0]);
      var rest :- DecodeItems(items[1..]);
      Success([m] + rest)
  }

  function DecodeChain(v: JValue): Result<MessageChain, DecodeError>
  {
    if v.JArray? then DecodeItems(v.items) else Failure(InvalidType("a sequence"))
  }

  function DecodeFriendMessage(ms: seq<JMember>): Result<ReceivedMessage, DecodeError>
  {
    var sv :- Field(ms, "sender");
    var sender :- DecodeFriendSender(sv);
    var cv :- Field(ms, "messageChain");
    var chain :- DecodeChain(cv);
    Success(FriendMessage(sender, chain))
  }

  function DecodeGroupMessage(ms: seq<JMember>): Result<ReceivedMessage, DecodeError>
  {
    var sv :- Field(ms, "sender");
    var sender :- DecodeGroupSender(sv);
    var cv :- Field(ms, "messageChain");
    var chain :- DecodeChain(cv);
    Success(GroupMessage(sender, chain))
  }

  function DecodeReceived(v: JValue): Result<ReceivedMessage, DecodeError>
  {
    var ms :- AsObject(v, "internally tagged enum ReceivedMessage");
    var tag :- Tag(ms);
    if tag == "FriendMessage" then DecodeFriendMessage(ms)
    else if tag == "GroupMessage" then DecodeGroupMessage(ms)
    else Failure(UnknownVariant(tag))
  }

  /** `serde_json::from_str::<SingleMessage>`. */
  function FromStrSingle(s: string): Result<SingleMessage, DecodeError>
  {
    match Parse(s)
    case None => Failure(Syntax)
    case Some(v) => DecodeSingle(v)
  }

  /** `serde_json::from_str::<MessageChain>`. */
  function FromStrChain(s: string): Result<MessageChain, DecodeError>
  {
    match Parse(s)
    case None => Failure(Syntax)
    case Some(v) => DecodeChain(v)
  }

  /** `serde_json::from_str::<ReceivedMessage>`. */
  function FromStrReceived(s: string): Result<ReceivedMessage, DecodeError>
  {
    match Parse(s)
    case None => Failure(Syntax)
    case Some(v) => DecodeReceived(v)
  }
}
