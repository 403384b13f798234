/**
 UMF messages as plain JavaScript objects: building one from caller overrides
 plus generated defaults, checking that the required fields are there, and
 copying out the body. The clock and the two identifier generators are not
 modelled; their outputs are parameters of `CreateMessage`.
 */
module UmfMessage {
  import opened Values

  /** The version tag every new message gets unless the caller gives one. */
  const UmfVersion := "UMF/1.4.2"

  /** A message: its own properties, name to value. */
  type Message = map<string, Value>

  /** `message.key`: an absent key reads as `undefined`. */
  function Get(message: Message, key: string): Value
  {
    if key in message then message[key] else Undefined
  }

  /** `message.key` is truthy. */
  predicate Present(message: Message, key: string)
  {
    Truthy(Get(message, key))
  }

  /** The second argument selects long form only when it is `undefined` (an
      omitted argument, which then defaults to `false`) or is exactly `false`:
      the test is `=== false`. */
  predicate LongForm(shortFormat: Value)
  {
    shortFormat == Undefined || shortFormat == Bool(false)
  }

  function TimestampKey(long: bool): string
  {
    if long then "timestamp" else "ts"
  }

  function VersionKey(long: bool): string
  {
    if long then "version" else "ver"
  }

  /** The generated properties of a new message, in the chosen form. */
  function Defaults(long: bool, messageId: string, shortMessageId: string, now: string): (defaults: Message)
    ensures defaults.Keys == {"mid", TimestampKey(long), VersionKey(long)}
  {
    if long then
      map["mid" := Str(messageId), "timestamp" := Str(now), "version" := Str(UmfVersion)]
    else
      map["mid" := Str(shortMessageId), "ts" := Str(now), "ver" := Str(UmfVersion)]
  }

  /** `Object.assign(defaults, caller)` reads a key the defaults lack from the
      caller alone. */
  lemma MergedRead(defaults: Message, caller: Message, key: string)
    requires key !in defaults
    ensures Get(defaults + caller, key) == Get(caller, key)
  {
  }

  /** The properties copied out of `message || {}`. */
  function Overrides(message: Value): (props: Message)
    ensures message.Obj? ==> props == message.fields
    ensures !Truthy(message) ==> props == map[]
  {
    if Truthy(message) then OwnProperties(message) else map[]
  }

  /** `createMessage(message, shortFormat)`. Every caller property is kept
      with its own value; `mid`, the timestamp and the version are added under
      the names of the chosen form only where the caller did not supply them,
      and nothing else is added. A caller property holding `undefined` counts
      as supplied. The long form takes its `mid` from the long identifier
      generator, the short form from the short one. */
  function CreateMessage(message: Value, shortFormat: Value,
                         messageId: string, shortMessageId: string, now: string): (msg: Message)
    ensures var caller, long := Overrides(message), LongForm(shortFormat);
      && msg.Keys == caller.Keys + {"mid", TimestampKey(long), VersionKey(long)}
      && (forall k | k in caller :: msg[k] == caller[k])
      && msg["mid"] == (if "mid" in caller then caller["mid"]
                        else Str(if long then messageId else shortMessageId))
      && msg[TimestampKey(long)] == (if TimestampKey(long) in caller then caller[TimestampKey(long)] else Str(now))
      && msg[VersionKey(long)] == (if VersionKey(long) in caller then caller[VersionKey(long)] else Str(UmfVersion))
  {
    Defaults(LongForm(shortFormat), messageId, shortMessageId, now) + Overrides(message)
  }

  /** `validateMessage(message)`: a sender under either name, a destination
      under `to`, and a body under either name, each truthy. */
  function ValidateMessage(message: Message): (valid: bool)
    ensures valid <==>
      && (Present(message, "from") || Present(message, "frm"))
      && Present(message, "to")
      && (Present(message, "body") || Present(message, "bdy"))
  {
    if (!Present(message, "from") && !Present(message, "frm")) || !Present(message, "to")
       || (!Present(message, "body") && !Present(message, "bdy"))
    then false
    else true
  }

  /** `getMessageBody(message)`: a copy of the properties of `message.body`;
      empty when there is no `body`, whatever `bdy` holds. */
  function GetMessageBody(message: Message): (body: map<string, Value>)
    ensures "body" !in message ==> body == map[]
    ensures "body" in message && message["body"].Obj? ==> body == message["body"].fields
    ensures !Present(message, "body") ==> body == map[]
  {
    OwnProperties(Get(message, "body"))
  }

  /** A message built from no arguments, or from `{}`, holds exactly the three
      defaults of its form, with the current version tag. */
  lemma CreateMessageDefaults(message: Value, shortFormat: Value,
                              messageId: string, shortMessageId: string, now: string)
    requires message == Undefined || message == Obj(map[])
    ensures var msg, long := CreateMessage(message, shortFormat, messageId, shortMessageId, now), LongForm(shortFormat);
      && msg.Keys == {"mid", TimestampKey(long), VersionKey(long)}
      && msg["mid"] == Str(if long then messageId else shortMessageId)
      && msg[TimestampKey(long)] == Str(now)
      && msg[VersionKey(long)] == Str(UmfVersion)
  {
  }

  /** The defaults never decide validity: a created message is valid exactly
      when the caller's properties alone are. */
  lemma CreateMessageKeepsValidity(message: Value, shortFormat: Value,
                                   messageId: string, shortMessageId: string, now: string)
    ensures ValidateMessage(CreateMessage(message, shortFormat, messageId, shortMessageId, now))
            == ValidateMessage(Overrides(message))
  {
    var defaults := Defaults(LongForm(shortFormat), messageId, shortMessageId, now);
    var caller := Overrides(message);
    assert CreateMessage(message, shortFormat, messageId, shortMessageId, now) == defaults + caller;
    MergedRead(defaults, caller, "from");
    MergedRead(defaults, caller, "frm");
    MergedRead(defaults, caller, "to");
    MergedRead(defaults, caller, "body");
    MergedRead(defaults, caller, "bdy");
  }

  /** A message built without a sender, destination or body is not valid. */
  lemma CreatedWithoutRequiredFieldsIsInvalid(shortFormat: Value,
                                              messageId: string, shortMessageId: string, now: string)
    ensures !ValidateMessage(CreateMessage(Obj(map[]), shortFormat, messageId, shortMessageId, now))
  {
    CreateMessageKeepsValidity(Obj(map[]), shortFormat, messageId, shortMessageId, now);
  }

  /** A message built from a destination, a sender and an empty body object
      is valid: an empty object is truthy. */
  lemma CreatedWithRequiredFieldsIsValid(shortFormat: Value,
                                         messageId: string, shortMessageId: string, now: string)
    ensures ValidateMessage(CreateMessage(
              Obj(map["to" := Str("service:/"), "from" := Str("client:/"), "body" := Obj(map[])]),
              shortFormat, messageId, shortMessageId, now))
  {
    var fields := map["to" := Str("service:/"), "from" := Str("client:/"), "body" := Obj(map[])];
    CreateMessageKeepsValidity(Obj(fields), shortFormat, messageId, shortMessageId, now);
    assert Present(fields, "to") && Present(fields, "from") && Present(fields, "body");
  }

  /** Building a message again from a built message in the same form keeps it
      as it is: its identifier, timestamp and version win over new defaults. */
  lemma {:induction false} CreateMessageIdempotent(message: Value, shortFormat: Value,
                                                   messageId: string, shortMessageId: string, now: string,
                                                   messageId': string, shortMessageId': string, now': string)
    ensures var msg := CreateMessage(message, shortFormat, messageId, shortMessageId, now);
      CreateMessage(Obj(msg), shortFormat, messageId', shortMessageId', now') == msg
  {
    var msg := CreateMessage(message, shortFormat, messageId, shortMessageId, now);
    var again := CreateMessage(Obj(msg), shortFormat, messageId', shortMessageId', now');
    assert Overrides(Obj(msg)) == msg;
    assert again.Keys == msg.Keys;
  }

  /** A caller property that holds `undefined` still replaces the default:
      `createMessage({mid: undefined})` has no identifier, and is built the
      same as from `{}` otherwise. */
  lemma UndefinedOverridesDefault(shortFormat: Value, messageId: string, shortMessageId: string, now: string)
    ensures var msg := CreateMessage(Obj(map["mid" := Undefined]), shortFormat, messageId, shortMessageId, now);
      && "mid" in msg && msg["mid"] == Undefined
      && !Truthy(Get(msg, "mid"))
      && msg.Keys == CreateMessage(Obj(map[]), shortFormat, messageId, shortMessageId, now).Keys
  {
  }

  /** The body read back from a built message is the caller's body. */
  lemma CreatedMessageBody(fields: map<string, Value>, shortFormat: Value,
                           messageId: string, shortMessageId: string, now: string)
    ensures GetMessageBody(CreateMessage(Obj(fields), shortFormat, messageId, shortMessageId, now))
            == GetMessageBody(fields)
  {
    var msg := CreateMessage(Obj(fields), shortFormat, messageId, shortMessageId, now);
    assert Get(msg, "body") == Get(fields, "body") by {
      assert "body" in msg <==> "body" in fields;
    }
  }

  /** The body depends on the `body` property alone. */
  lemma GetMessageBodyReadsOnlyBody(m1: Message, m2: Message)
    requires ("body" in m1) == ("body" in m2)
    requires "body" in m1 ==> m1["body"] == m2["body"]
    ensures GetMessageBody(m1) == GetMessageBody(m2)
  {
  }
}
