/** The per-message context handed to listeners (src/context.rs): built
    from a sender and a received chain whose first element must be the
    `Source` message, it keeps the source's id and the rest of the chain,
    together with who sent the message and in which chatroom. */
module Contexts {
  import opened Results
  import Errors
  import Message

  /** Whether a message came from a friend or from a group. */
  datatype ChatroomType = Friend | Group

  /** What `Context::new` reads from its sender: the five values of the
      `Sender` methods it calls. */
  datatype SenderInfo = SenderInfo(
    chatroomType: ChatroomType,
    chatroomId: Message.Int32,
    chatroomName: string,
    senderId: Message.Int32,
    senderNickname: string)

  /** The context; the bot handle is an opaque value of type `B`. */
  datatype Context<B> = Context(
    bot: B,
    chatroomType: ChatroomType,
    chatroomId: Message.Int32,
    chatroomName: string,
    senderId: Message.Int32,
    senderNickname: string,
    messageId: Message.Int32,
    messageChain: Message.MessageChain)

  const CreateError: string := "[Error] Receiving error message type when creating context."

  /** What `Context::new` returns: the chain must start with its `Source`
      message, whose id becomes the message id and whose time is dropped;
      anything else at the head is refused with a fixed error. */
  function Create<B>(bot: B, sender: SenderInfo, chain: Message.MessageChain): (r: Result<Context<B>, Errors.Error>)
    requires |chain| >= 1
    ensures r.Success? <==> chain[0].Source?
    ensures r.Failure? ==> r.error == Errors.New(CreateError)
    ensures r.Success? ==> r.value.bot == bot
    ensures r.Success? ==> |r.value.messageChain| == |chain| - 1
    ensures r.Success? ==> chain == [Message.Source(r.value.messageId, chain[0].time)] + r.value.messageChain
  {
    match chain[0]
    case Source(id, _) =>
      Success(Context(bot, sender.chatroomType, sender.chatroomId, sender.chatroomName,
                      sender.senderId, sender.senderNickname, id, chain[1..]))
    case _ => Failure(Errors.New(CreateError))
  }

  /** `Context::new`: copies everything after the first element into a new
      chain, then looks at the first element. The caller's chain is a value
      and is left as it was. */
  method New<B>(bot: B, sender: SenderInfo, chain: Message.MessageChain) returns (r: Result<Context<B>, Errors.Error>)
    requires |chain| >= 1
    ensures r == Create(bot, sender, chain)
  {
    var source := chain[0];
    var content: Message.MessageChain := [];
    content := content + chain[1..];
    assert content == chain[1..];
    match source
    case Source(id, _) =>
      r := Success(Context(bot, sender.chatroomType, sender.chatroomId, sender.chatroomName,
                           sender.senderId, sender.senderNickname, id, content));
    case _ =>
      r := Failure(Errors.New(CreateError));
  }

  /** `Context::clone`: every field cloned, the bot handle included. */
  function Clone<B>(c: Context<B>): (d: Context<B>)
    ensures d == c
  {
    Context(c.bot, c.chatroomType, c.chatroomId, c.chatroomName, c.senderId, c.senderNickname,
            c.messageId, c.messageChain)
  }

  function ChatroomTypeOf<B>(c: Context<B>): (t: ChatroomType)
  {
    c.chatroomType
  }

  function ChatroomIdOf<B>(c: Context<B>): (id: Message.Int32)
  {
    c.chatroomId
  }

  function ChatroomNameOf<B>(c: Context<B>): (name: string)
  {
    c.chatroomName
  }

  function SenderIdOf<B>(c: Context<B>): (id: Message.Int32)
  {
    c.senderId
  }

  function SenderNicknameOf<B>(c: Context<B>): (nickname: string)
  {
    c.senderNickname
  }

  /** The getters of a new context give back what the sender reported, the
      bot handle is the one passed in, and the message id is the id of the
      leading `Source`. */
  lemma CreateThenGetters<B>(bot: B, sender: SenderInfo, chain: Message.MessageChain)
    requires |chain| >= 1 && chain[0].Source?
    ensures Create(bot, sender, chain).Success?
    ensures var c := Create(bot, sender, chain).value;
            && ChatroomTypeOf(c) == sender.chatroomType
            && ChatroomIdOf(c) == sender.chatroomId
            && ChatroomNameOf(c) == sender.chatroomName
            && SenderIdOf(c) == sender.senderId
            && SenderNicknameOf(c) == sender.senderNickname
            && c.bot == bot
            && c.messageId == chain[0].id
            && c.messageChain == chain[1..]
  {
  }

  /** `message_chain()`: a new chain, filled element by element from the
      stored one. */
  method MessageChainCopy<B>(c: Context<B>) returns (r: Message.MessageChain)
    ensures |r| == |c.messageChain|
    ensures forall i | 0 <= i < |r| :: r[i] == c.messageChain[i]
  {
    r := [];
    var i := 0;
    while i < |c.messageChain|
      invariant 0 <= i <= |c.messageChain|
      invariant r == c.messageChain[..i]
    {
      r := r + [c.messageChain[i]];
      i := i + 1;
    }
  }

  /** A later `Source` in the chain is kept in the content: only the head
      is taken off. */
  lemma LaterSourceKept<B>(bot: B, sender: SenderInfo, id: Message.Int32, time: Message.Int32,
                            rest: Message.MessageChain)
    ensures var r := Create(bot, sender, [Message.Source(id, time)] + rest);
            r.Success? && r.value.messageId == id && r.value.messageChain == rest
  {
    var chain := [Message.Source(id, time)] + rest;
    assert chain[1..] == rest;
  }
}
