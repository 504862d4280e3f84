# wood: message model, event tags and message context in Dafny

`wood` is a chat-bot framework written in Rust. This project models the part of it that has logic of its own:

- **Messages** (`src/message/mod.rs`, with the sender records of `src/message/sender.rs`).
  - `SingleMessage` is `Source{id,time}`, `At{target,display}` or `Plain{text}`.
  - A `MessageChain` is a sequence of them.
  - A `ReceivedMessage` is a `FriendMessage` or a `GroupMessage`.
  - Their JSON form is what the derived serde implementations give, with the exceptions listed under "Left out": internally tagged by a `"type"` member, with fields in declaration order.
  - The model has a JSON text writer and reader (modules `Json`, `JsonRoundTrip`), and typed encoders and decoders (module `Message`).
  - It proves that every message, chain and received message reads back from its own text (module `MessageRoundTrip`).
  - It proves the exact texts and the decoded value that the two tests of `src/message/mod.rs` pin down (module `MessageExamples`).
- **Errors** (`src/error.rs`, module `Errors`): an error that carries a message. `Display` and `Debug` render it as the same fixed text around the message.
- **Event types and listeners** (`src/event_listener.rs`, module `Events`):
  - `EventType` is a closed enum with a printer and a parser. The parser falls back to `Invalid(Error)`.
  - A listener stores an event type, an opaque handler and an optional command name.
- **Context** (`src/context.rs`, module `Contexts`):
  - `Context::new` takes the leading `Source` message's id as the message id and keeps the rest of the chain as the content. Any other leading message is refused with an error.
  - The sender's chatroom and identity fields are copied unchanged.
  - `new` builds its content and `message_chain()` builds its copy step by step, so both are methods with the loop or update the source has. Each is proved equal to a specification.

Rust's `i32` is the subset type `Message.Int32`. Decoding an integer outside that range is an error.

`ChatroomType` (`Friend | Group`) and the five sender accessors called by `src/context.rs:41-46` are not defined in the modelled files. The `Sender` trait at `src/message/sender.rs:3` is empty. The model therefore passes the five values as a record, `Contexts.SenderInfo`.

## Model

| member | source | states |
|---|---|---|
| Errors.New | src/error.rs:10-15 | the error keeps the message exactly as given |
| Errors.Clone | src/error.rs:5-8 | a cloned error carries the same message |
| Errors.Debug | src/error.rs:18-28 | `Debug` output equals `Display` output for every error |
| Errors.MessageOf | src/error.rs:24-28 | text has the `Error: {\n  msg: ` … `\n}` shape exactly when a message can be read back, and then it is that text with the message in the middle |
| Errors.DisplayRoundTrip | src/error.rs:24-28 | the rendered text carries the whole message: reading it back gives the message |
| Errors.DisplayInjective | src/error.rs:24-28 | two errors render the same exactly when their messages are equal |
| Errors.Display | src/error.rs:24-28 | `Display` of an error: the fixed prefix, the message, the fixed suffix; `MessageOf` inverts it (`DisplayRoundTrip`) and `Debug` equals it |
| Events.Display | src/event_listener.rs:27-39 | a variant prints as one of the four event names exactly when it is not `Invalid` |
| Events.FromStr | src/event_listener.rs:41-55 | a text parses to a subscribable type exactly when it is one of the four names; otherwise the error message is the fixed sentence quoting the text |
| Events.Clone | src/event_listener.rs:6-15 | cloning an event type gives an equal value |
| Events.ParseDisplay | src/event_listener.rs:27-55 | printing a subscribable type and parsing the text gives it back |
| Events.DisplayParse | src/event_listener.rs:27-55 | parsing one of the four names and printing the result gives the name back |
| Events.DisplayParseDisplay | src/event_listener.rs:34-53 | print, parse, print equals print for every variant, `Invalid` included |
| Events.UnknownNamesInvalid | src/event_listener.rs:44-53 | examples: `msg`, `Message`, `MESSAGE`, `invalidEvent` and the empty text parse to `Invalid` |
| Events.InvalidQuotesInput | src/event_listener.rs:49-52 | the error of an unknown name holds the received text between backticks, right after the fixed prefix |
| Events.InvalidDistinguishes | src/event_listener.rs:49-52 | two unknown names give equal results exactly when they are the same text |
| Events.DisplayInjective | src/event_listener.rs:27-39 | different subscribable types print differently |
| Events.New | src/event_listener.rs:57-72 | a new listener keeps the handler and satisfies the documented rule that only a command listener has a command name |
| Events.NewThenAccessors | src/event_listener.rs:57-84 | `event_type()` and `command_name()` return exactly what `new` was given |
| Events.NonCommandHasNoName | src/event_listener.rs:23-24 | a listener for anything but commands reports no command name |
| Events.EventTypeOf | src/event_listener.rs:74-76 | `event_type()`: by `NewThenAccessors` it returns the event type `new` was given |
| Events.CommandNameOf | src/event_listener.rs:82-84 | `command_name()`: by `NewThenAccessors` it returns the command name `new` was given, and by `NonCommandHasNoName` none for a non-command listener |
| Contexts.Create | src/context.rs:21-51 | succeeds exactly when the chain starts with `Source`; a failure carries the fixed creation error; on success the bot handle is the one given and the chain is the `Source` with the message id, followed by the content |
| Contexts.New | src/context.rs:21-51 | building the content by appending the chain's tail to an empty chain and then matching the head gives `Create`'s result |
| Contexts.Clone | src/context.rs:53-67 | a cloned context equals the original in every field |
| Contexts.CreateThenGetters | src/context.rs:41-49 | on success the five getters return the sender's values, the bot handle is the one given, the message id is the head's id and the content is the chain without its head |
| Contexts.LaterSourceKept | src/context.rs:26-30 | only the head is taken off: a `Source` later in the chain stays in the content |
| Contexts.ChatroomTypeOf | src/context.rs:69-71 | `chatroom_type()`: by `CreateThenGetters` the sender's chatroom type on a new context |
| Contexts.ChatroomIdOf | src/context.rs:73-75 | `chatroom_id()`: by `CreateThenGetters` the sender's chatroom id on a new context |
| Contexts.ChatroomNameOf | src/context.rs:77-79 | `chatroom_name()`: by `CreateThenGetters` the sender's chatroom name on a new context |
| Contexts.SenderIdOf | src/context.rs:81-83 | `sender_id()`: by `CreateThenGetters` the sender's id on a new context |
| Contexts.SenderNicknameOf | src/context.rs:85-87 | `sender_nickname()`: by `CreateThenGetters` the sender's nickname on a new context |
| Contexts.MessageChainCopy | src/context.rs:89-96 | the copy has the stored chain's length and the same element at every index |
| Message.EncodeSingle | src/message/mod.rs:9-15 | `serde_json::to_string` of a single message; `SingleTextRoundTrip` reads it back, `EncodeSourceText`, `EncodeAtText` and `EncodePlainText` give its exact text |
| Message.EncodeChain | src/message/mod.rs:17 | `serde_json::to_string` of a chain; `ChainTextRoundTrip` reads it back and `EncodeChainText` gives its exact text |
| Message.EncodeReceived | src/message/mod.rs:19-33 | `serde_json::to_string` of a received message; `ReceivedTextRoundTrip` reads it back |
| Message.FromStrSingle | src/message/mod.rs:9-15 | `serde_json::from_str` of a single message; it gives back every message from its own text (`SingleTextRoundTrip`), refuses a missing or repeated tag (`MissingTagRefused`, `DuplicateTagRefused`) and ignores unknown members (`UnknownMemberIgnored`) |
| Message.FromStrChain | src/message/mod.rs:17 | `serde_json::from_str` of a chain; it gives back every chain from its own text (`ChainTextRoundTrip`), element by element in order (`ItemsDecodeInOrder`) |
| Message.FromStrReceived | src/message/mod.rs:19-33 | `serde_json::from_str` of a received message; it gives back every received message from its own text (`ReceivedTextRoundTrip`), with the variant chosen by the tag (`TagSelectsVariant`) and the test document decoded as expected (`DeserializeFriendMessage`) |
| Message.ChainJson | src/message/mod.rs:17 | a chain's JSON is an array holding each element's JSON at the same index |
| Message.Field | src/message/mod.rs:9-33 | a field is read exactly when its key occurs once; a missing key and a repeated key are distinct errors |
| Message.AsInt32 | src/message/mod.rs:12 | an integer field is accepted exactly when it is an integer in the `i32` range |
| Message.AsString | src/message/mod.rs:13-14 | a text field is accepted exactly when it is a JSON string |
| Message.DecodePermission | src/message/sender.rs:5-10 | a permission is read only from the upper-case name of its variant |
| Message.Tag | src/message/mod.rs:10 | the tag is read exactly when `"type"` occurs once and holds a string, and the tag member is in the object |
| Message.DecodeItems | src/message/mod.rs:17 | a decoded chain has as many messages as the array has elements |
| JsonRoundTrip.PrintParse | src/message/mod.rs:35-74 | written JSON followed by any delimiter reads back as the same value, with the delimiter left over |
| JsonRoundTrip.PrintThenParse | src/message/mod.rs:35-74 | a written integer-only document reads back as the same document |
| JsonRoundTrip.EscapeVerbatim | src/message/mod.rs:50-54 | text with no quote, backslash or control character, non-ASCII included, is written unchanged |
| JsonRoundTrip.EscapeParse | src/message/mod.rs:50-54 | an escaped string body reads back as the original text |
| JsonRoundTrip.IntTextParse | src/message/mod.rs:12 | a written integer, negative included, reads back as the same integer |
| MessageRoundTrip.NegativeZeroRefused | src/message/mod.rs:12 | `-0` reads as a float, so an `i32` field written as `-0` is refused as an invalid type |
| MessageRoundTrip.SingleRoundTrip | src/message/mod.rs:9-15 | every single message decodes from its own JSON |
| MessageRoundTrip.ChainRoundTrip | src/message/mod.rs:17 | every chain decodes from its own JSON, in order |
| MessageRoundTrip.GroupRoundTrip | src/message/sender.rs:12-17 | every group decodes from its own JSON |
| MessageRoundTrip.FriendSenderRoundTrip | src/message/sender.rs:19-24 | every friend sender decodes from its own JSON |
| MessageRoundTrip.GroupSenderRoundTrip | src/message/sender.rs:26-33 | every group sender decodes from its own camelCase JSON |
| MessageRoundTrip.ReceivedRoundTrip | src/message/mod.rs:19-33 | every received message decodes from its own JSON |
| MessageRoundTrip.SingleTextRoundTrip | src/message/mod.rs:9-15 | reading the text written for a single message gives it back |
| MessageRoundTrip.ChainTextRoundTrip | src/message/mod.rs:17 | reading the text written for a chain gives it back |
| MessageRoundTrip.ReceivedTextRoundTrip | src/message/mod.rs:19-33 | reading the text written for a received message gives it back |
| MessageRoundTrip.EncodeSingleInjective | src/message/mod.rs:9-15 | two single messages are written the same exactly when they are equal |
| MessageRoundTrip.EncodeSourceText | src/message/mod.rs:10-12 | `Source` is written as `{"type":"Source","id":<id>,"time":<time>}`: tag first, no spaces |
| MessageRoundTrip.EncodeAtText | src/message/mod.rs:13 | `At` with plain text is written as `{"type":"At","target":"<target>","display":"<display>"}`, the target as a string |
| MessageRoundTrip.EncodePlainText | src/message/mod.rs:14 | `Plain` with plain text is written as `{"type":"Plain","text":"<text>"}` |
| MessageRoundTrip.FriendSenderText | src/message/sender.rs:19-24 | a friend sender is written as `{"id":…,"nickname":"…","remark":"…"}` |
| MessageRoundTrip.EncodeChainText | src/message/mod.rs:17 | a chain is written as `[`, the elements' texts in chain order joined by `,`, then `]` |
| MessageRoundTrip.TagSelectsVariant | src/message/mod.rs:19-33 | a decoded received message has exactly one `"type"` member naming its variant; its chain is read from `messageChain`, its sender as a friend or group sender by variant |
| MessageRoundTrip.ItemsDecodeInOrder | src/message/mod.rs:17 | a decoded chain holds, at every index, the message decoded from the element at that index |
| MessageRoundTrip.UnknownMemberIgnored | src/message/mod.rs:9-15 | a member with a key that no single-message variant uses changes nothing in what is decoded, wherever it is inserted |
| MessageRoundTrip.OtherVariantKeyIgnored | src/message/mod.rs:9-15 | a member whose key is not a field of the variant the tag names, such as `"id"` inside a `Plain`, changes nothing in what is decoded, wherever it is inserted |
| MessageRoundTrip.DuplicateTagRefused | src/message/mod.rs:10 | an object in which `"type"` occurs more than once, at any positions, is refused as a duplicate field, both as a single message and as a received message |
| MessageRoundTrip.TwoTagsAnywhere | src/message/mod.rs:10 | two `"type"` members with any members before, between and after them count as more than one occurrence |
| MessageRoundTrip.MissingTagRefused | src/message/mod.rs:10 | an object without `"type"` is refused as a missing field |
| MessageExamples.SerializeSource | src/message/mod.rs:37-45 | `Source{20211113,20211113}` is written as the test's text |
| MessageExamples.SerializeAt | src/message/mod.rs:47-55 | `At{"20211113","土土木木"}` is written as the test's text, the non-ASCII name unescaped |
| MessageExamples.SerializePlain | src/message/mod.rs:57-64 | `Plain{"test"}` is written as the test's text |
| MessageExamples.SerializeChain | src/message/mod.rs:66-73 | the chain `[Source, Plain]` is written as the test's text |
| MessageExamples.DeserializeFriendMessage | src/message/mod.rs:76-110 | the indented test document reads as the friend message with sender 20211113 and chain `[Source{7,20211113}, Plain{"hi"}]` |

## Left out

- `Context::reply` (src/context.rs:98-108), `EventListener::handle` and the boxed async handler (src/event_listener.rs:17, 69, 78-80): network sends and futures. The handler and the bot handle are opaque type parameters.
- `impl From<reqwest::Error> for Error` (src/error.rs:30-36): it formats a foreign library's error.
- src/utils.rs, src/api.rs, src/api/mod.rs, src/api/http.rs, src/bot.rs, src/main.rs, src/lib.rs and the examples are not part of this model. They hold file and network I/O, wiring and usage samples.
- src/message.rs and src/message/message_chain.rs are earlier copies of the same enum with the same tests. The untagged `MessageSender` of src/message.rs is not part of this model.
- Contexts.Create: the caller's chain is a Dafny value, so "the borrowed chain is left unchanged" holds by construction and is not stated.
- Contexts.New: requires a non-empty chain, where the source panics on `message_chain[0]`.
- Contexts.New: src/context.rs:32-34 passes a `String` where `Error::new` takes `&str`. The model uses the message text.
- Contexts.SenderInfo stands in for the `Sender` trait. The trait is empty at src/message/sender.rs:3, but src/context.rs:41-46 calls five methods on it.
- Events.New: the rule that only a command listener has a command name is written as a comment at src/event_listener.rs:23-24. The source does not check it, and the model makes it a precondition.
- Events.FromStr: the error message lists only `message`, `friendMessage` and `groupMessage` as expected names, although `command` is accepted. The model keeps that sentence verbatim.
- JSON reading leaves out forms serde also accepts: a struct written as an array, a tagged message written as an array with the tag first (such as `["Source",1,2]`), an enum written as a one-entry map, and a variant index in place of the tag name for a `SingleMessage` inside a received message, which serde reads from its buffered content.
- JSON reading does not refuse a document nested deeper than serde_json's recursion limit of 128.
- Json.NumberValue: a number whose magnitude is beyond the range of an f64, such as `1e400` or an integer of about 310 digits, is read as a number. serde_json refuses it as "number out of range", even in a member the decoder then ignores. So the model accepts `{"type":"Plain","text":"hi","x":1e400}`, which serde_json refuses. serde_json's own rounding decides the exact boundary, and it is not modelled.
- Message decoding reports one error per document in a fixed order (syntax, kind, tag, fields in declaration order). Which error serde reports first when several apply is not modelled.
- Numbers with a fraction or an exponent are kept as text when read and never written, since no field of the bot's types is a float.
- Unknown members of the sender records are ignored like those of messages. The test of this in src/message/sender.rs is not restated.
