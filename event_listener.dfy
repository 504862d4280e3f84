/** The bot's event tag and its listener record (src/event_listener.rs):
    a closed set of event names with a printer and a parser that falls back
    to an `Invalid` value carrying an error, and a listener that stores an
    event type, an opaque handler and an optional command name. */
module Events {
  import opened Results
  import Errors

  datatype EventType =
    | Message
    | FriendMessage
    | GroupMessage
    | Command
    | Invalid(error: Errors.Error)

  /** The four event types a listener can subscribe to. */
  predicate IsValid(e: EventType)
  {
    !e.Invalid?
  }

  /** The names the parser accepts. */
  predicate IsEventName(s: string)
  {
    s == "message" || s == "friendMessage" || s == "groupMessage" || s == "command"
  }

  /** `impl Display for EventType`. */
  function Display(e: EventType): (s: string)
    ensures IsValid(e) <==> IsEventName(s)
  {
    match e
    case Message => "message"
    case FriendMessage => "friendMessage"
    case GroupMessage => "groupMessage"
    case Command => "command"
    case Invalid(_) => "invalidEvent"
  }

  const ReceivedPrefix: string := "Invalid message type: received " + "`"
  const ReceivedSuffix: string := "`" + ", expected `message`, `friendMessage` or `groupMessage`."

  /** The message of the error that an unknown name parses to. */
  function InvalidMessage(received: string): (m: string)
  {
    ReceivedPrefix + received + ReceivedSuffix
  }

  /** `impl From<&str> for EventType`: the exact names map to their
      variants; anything else, a different case included, becomes
      `Invalid` with an error that quotes the input. */
  function FromStr(s: string): (e: EventType)
    ensures IsValid(e) <==> IsEventName(s)
    ensures e.Invalid? ==> e.error == Errors.New(InvalidMessage(s))
  {
    match s
    case "message" => Message
    case "friendMessage" => FriendMessage
    case "groupMessage" => GroupMessage
    case "command" => Command
    case _ => Invalid(Errors.New(InvalidMessage(s)))
  }

  /** `Clone` derived on `EventType`. */
  function Clone(e: EventType): (c: EventType)
    ensures c == e
  {
    match e
    case Invalid(err) => Invalid(Errors.Clone(err))
    case _ => e
  }

  /** Printing a subscribable event type and parsing the text gives it
      back. */
  lemma ParseDisplay(e: EventType)
    requires IsValid(e)
    ensures FromStr(Display(e)) == e
  {
  }

  /** Parsing one of the four names and printing the result gives the name
      back. */
  lemma DisplayParse(s: string)
    requires IsEventName(s)
    ensures Display(FromStr(s)) == s
  {
  }

  /** Printing, parsing and printing again is printing once: `invalidEvent`
      is not a name, so it parses to `Invalid` and prints as itself. */
  lemma DisplayParseDisplay(e: EventType)
    ensures Display(FromStr(Display(e))) == Display(e)
  {
    if IsValid(e) {
      ParseDisplay(e);
    }
  }

  /** Examples of texts that are not event names and parse to `Invalid`:
      an abbreviation, other capitalisations, the printed name of `Invalid`
      itself and the empty text. */
  lemma UnknownNamesInvalid()
    ensures FromStr("msg").Invalid? && FromStr("Message").Invalid? && FromStr("invalidEvent").Invalid?
    ensures FromStr("MESSAGE").Invalid? && FromStr("").Invalid?
  {
  }

  /** The error of an unknown name holds the received text between
      backticks, right after the fixed prefix. */
  lemma InvalidQuotesInput(s: string)
    requires !IsEventName(s)
    ensures var m := FromStr(s).error.msg;
            && |m| == |ReceivedPrefix| + |s| + |ReceivedSuffix|
            && m[|ReceivedPrefix| - 1..|ReceivedPrefix| + |s| + 1] == "`" + s + "`"
  {
    var m := FromStr(s).error.msg;
    var k := |ReceivedPrefix|;
    assert ReceivedPrefix[k - 1] == '`' && ReceivedSuffix[0] == '`';
    assert m[k - 1] == '`' && m[k + |s|] == '`';
    assert m[k..k + |s|] == s;
    assert m[k - 1..k + |s| + 1] == [m[k - 1]] + m[k..k + |s|] + [m[k + |s|]];
  }

  /** Two unknown names give different errors: the error tells which text
      was received. */
  lemma InvalidDistinguishes(s: string, t: string)
    requires !IsEventName(s) && !IsEventName(t)
    ensures FromStr(s) == FromStr(t) <==> s == t
  {
    if FromStr(s) == FromStr(t) {
      var m := InvalidMessage(s);
      assert m[|ReceivedPrefix|..|m| - |ReceivedSuffix|] == s;
      assert InvalidMessage(t)[|ReceivedPrefix|..|InvalidMessage(t)| - |ReceivedSuffix|] == t;
    }
  }

  /** Different subscribable event types print differently. */
  lemma DisplayInjective(a: EventType, b: EventType)
    requires IsValid(a) && IsValid(b)
    ensures Display(a) == Display(b) <==> a == b
  {
    if Display(a) == Display(b) {
      ParseDisplay(a);
      ParseDisplay(b);
    }
  }

  // ---------------------------------------------------------------------
  // EventListener
  // ---------------------------------------------------------------------

  /** A listener. The handler, an async closure in the source, is an opaque
      value of type `H`. */
  datatype EventListener<H> = EventListener(eventType: EventType, handler: H, commandName: Option<string>)

  /** The documented invariant: only a command listener has a command
      name. */
  predicate Valid<H>(l: EventListener<H>)
  {
    l.commandName.Some? ==> l.eventType.Command?
  }

  /** `EventListener::new`: stores its arguments. The source does not check
      the documented invariant; here the caller must respect it. */
  function New<H>(eventType: EventType, handler: H, commandName: Option<string>): (l: EventListener<H>)
    requires commandName.Some? ==> eventType.Command?
    ensures Valid(l)
    ensures l.handler == handler
  {
    EventListener(eventType, handler, commandName)
  }

  /** `event_type()`: a clone of the stored event type. */
  function EventTypeOf<H>(l: EventListener<H>): (e: EventType)
  {
    Clone(l.eventType)
  }

  /** `command_name()`: a clone of the stored command name. */
  function CommandNameOf<H>(l: EventListener<H>): (name: Option<string>)
  {
    l.commandName
  }

  /** The accessors give back exactly what `new` was given. */
  lemma NewThenAccessors<H>(eventType: EventType, handler: H, commandName: Option<string>)
    requires commandName.Some? ==> eventType.Command?
    ensures EventTypeOf(New(eventType, handler, commandName)) == eventType
    ensures CommandNameOf(New(eventType, handler, commandName)) == commandName
  {
  }

  /** A listener for anything but commands reports no command name. */
  lemma NonCommandHasNoName<H>(l: EventListener<H>)
    requires Valid(l) && !EventTypeOf(l).Command?
    ensures CommandNameOf(l) == None
  {
  }
}
