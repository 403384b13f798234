# UMF message helper, in Dafny

A model of the `UMFMessage` helper of `fwsp-umf-message`. The helper does four things with UMF
(Universal Messaging Format) messages:

- `createMessage` fills in a new message from the caller's overrides plus generated defaults:
  `mid`, `timestamp` and `version`, or `mid`, `ts` and `ver` in short form.
- `validateMessage` checks that a sender, a destination and a body are present.
- `getMessageBody` copies out a message's body.
- `parseRoute` takes a `to` route of the form `[instance@]service:[VERB]path` apart into instance,
  service name, HTTP method, API route and error.

Modules:

- `Wrappers`: `Option`, for a route's `error`, which is either `undefined` or a message.
- `JsString`: the string built-ins the route parser calls.
  - `indexOf`, `split` and `join`, for one-character needles.
  - `toLowerCase`, for ASCII letters.
  - `Before`/`After`, a reference description of the cut at the first occurrence of a character.
    The built-ins are proved against it.
  - `Split` is proved to be inverted by `Join`, and vice versa for separator-free parts.
- `Values`: the JavaScript values messages hold, `undefined` among them, their truthiness, and the
  own properties that `Object.assign` copies out of a value. Strings and arrays are copied under
  their decimal index keys. An index key is proved to be the numeral of its index, so distinct
  indices give distinct keys.
- `UmfMessage`: `createMessage`, `validateMessage` and `getMessageBody` as functions over
  property maps. The clock and the two identifier generators are parameters. An omitted argument
  is the value `Undefined`, as in JavaScript.
- `RouteParser`: `parseRoute`.
  - `ParseRoute` follows the parser statement by statement, in three stages:
    - `CutInstance`: the cut at `@`;
    - `CutService`: the split at `:`, the URL-scheme rejoin, the shifts and the join;
    - `CutVerb`: the verb taken out by `[`/`]` offsets.
  - Each stage is proved against a declarative description: `InstanceOf`, `AddressOf`,
    `ServiceOf`, `PathOf`, `MethodOf`, `ApiRouteOf` and `ErrorOf`. `RouteOf` assembles them.
  - The lemmas state what the route is in terms of the first `@`, `:` and `]`.

The parser's quirks are modelled as the code has them:

- Any first segment that starts with `http` (`httpsvc` too) is rejoined with the next segment.
  Only one `:` goes back in, so `http://host:9000:/path` gives the service `http://host` and the
  route `9000:/path`.
- A URL-scheme first segment with no `:` after it is rejoined with the text `undefined`.
- `[]` gives the empty method and leaves the route untouched.
- The "invalid number of routable segments" error cannot occur, because `split` never returns an
  empty array.
- An instance qualifier is not split further into an instance and a sub-identifier: the code has
  no such step.

## Model

| member | source | states |
|---|---|---|
| JsString.Join | index.js:129 | `join(':')`: the parts with one separator between each two; the empty array joins to the empty string (a definition, no contract) |
| JsString.IndexOf | index.js:112 | `indexOf` gives -1 exactly when the character is absent; otherwise it gives a position holding that character, with no earlier occurrence |
| JsString.Around | index.js:112-116 | a string is the text before an index, the character there and the text after it |
| JsString.IndexOfCuts | index.js:112-116 | the `substring` cuts at `indexOf(c)` are the text before and the text after the first `c` |
| JsString.Split | index.js:118 | `split` yields at least one part, no part holds the separator, and joining the parts gives the string back |
| JsString.SplitJoin | index.js:129 | splitting the join of separator-free parts gives the parts back |
| JsString.SplitHeadTail | index.js:118 | the first part is the text before the first separator, the rest rejoin to the text after it, and there are several parts iff the separator occurs |
| JsString.LowerChar | index.js:136 | lower-casing moves `A`-`Z` to `a`-`z`, leaves every other character alone, and never yields an upper-case letter |
| JsString.ToLowerCase | index.js:136 | `toLowerCase` keeps the length, lower-cases character by character, and leaves no upper-case letter |
| JsString.ToLowerCaseIdempotent | index.js:136 | lower-casing twice is lower-casing once |
| Values.Truthy | index.js:60 | JavaScript truthiness, as `\|\|` and `!` use it at index.js:60, 66 and 78: `undefined`, `null`, `false`, `0` and the empty string are falsy, everything else truthy (a definition, no contract) |
| Values.IndexKey | index.js:92 | an index key is a non-empty string of decimal digits that denotes the index itself, with no leading zero |
| Values.IndexKeyInjective | index.js:92 | distinct indices are copied under distinct keys |
| Values.IndexedSpec | index.js:92 | an array-like value is copied with element `i` under key `i` and no other key |
| Values.OwnProperties | index.js:92 | `Object.assign` copies an object's fields (those holding `undefined` too), an array's elements or a string's characters under their index keys, and nothing from `undefined`, `null`, booleans or numbers |
| UmfMessage.Get | index.js:78 | `message.key` reads the own property, or `undefined` when there is none (a definition, no contract) |
| UmfMessage.LongForm | index.js:53-55 | long form exactly when the second argument is omitted (so defaults to `false`) or is exactly `false`, as `=== false` tests (a definition, no contract) |
| UmfMessage.Defaults | index.js:56-66 | the generated properties are exactly `mid`, `timestamp`, `version` in long form and `mid`, `ts`, `ver` in short form |
| UmfMessage.MergedRead | index.js:56-66 | after `Object.assign(defaults, caller)`, a key the defaults lack reads what the caller has, or `undefined` |
| UmfMessage.Overrides | index.js:56-66 | `message \|\| {}`: an omitted or falsy argument contributes nothing, and an object contributes its fields |
| UmfMessage.CreateMessage | index.js:53-69 | the keys are the caller's plus `mid` and the timestamp and version keys of the chosen form, and nothing else; every caller key keeps its value; each default applies only where the caller gave none, and `mid` comes from the generator of the chosen form |
| UmfMessage.CreateMessageDefaults | specs/tests.js:13-25 | a message built from nothing or `{}` holds exactly `mid`, `timestamp`, `version` (`mid`, `ts`, `ver` in short form), with the generated values and `UMF/1.4.2` |
| UmfMessage.ValidateMessage | index.js:77-83 | valid iff `from` or `frm` is truthy, and `to` is truthy, and `body` or `bdy` is truthy |
| UmfMessage.CreateMessageKeepsValidity | index.js:53-83 | a built message is valid exactly when the caller's properties alone are, since the defaults touch none of the required keys |
| UmfMessage.CreatedWithoutRequiredFieldsIsInvalid | specs/tests.js:56-73 | a message built from `{}` is not valid |
| UmfMessage.CreatedWithRequiredFieldsIsValid | specs/tests.js:75-83 | a message built with `to`, `from` and an empty body object is valid |
| UmfMessage.UndefinedOverridesDefault | index.js:56-60 | a caller property holding `undefined` (`{mid: undefined}`) is copied over the default, so the built message holds `mid: undefined` and has the same keys as one built from `{}` |
| UmfMessage.CreateMessageIdempotent | index.js:55-66 | building again from a built message, in the same form, gives the same message whatever the new clock and identifiers are |
| UmfMessage.GetMessageBody | index.js:91-93 | the body copy is empty without `body` (whatever `bdy` holds) or with a falsy one, and is the body's fields for an object |
| UmfMessage.CreatedMessageBody | index.js:91-93 | the body read from a built message is the body of the caller's object |
| UmfMessage.GetMessageBodyReadsOnlyBody | index.js:91-93 | two messages that agree on `body` have the same body copy |
| RouteParser.CutInstance | index.js:112-116 | the instance and the remaining route are the text before and after the first `@`; without one, the instance is empty and the route the whole string |
| RouteParser.IsUrlScheme | index.js:122 | `indexOf('http') === 0`: the segment starts with `http` (a definition, no contract) |
| RouteParser.Rejoined | index.js:122-126 | the segments after `shift()` and `segments[0] = url`: the first two rejoined by `:` (the text `undefined` standing in for a missing second), then the rest (a definition, no contract) |
| RouteParser.CutService | index.js:118-129 | the service name and route got through `split`, the URL-scheme rejoin, `shift` and `join` are `ServiceOf` and `PathOf` of the route |
| RouteParser.PlainSegments | index.js:127-129 | without a URL scheme the first segment is the service, and the other segments joined are the route |
| RouteParser.RejoinedSegments | index.js:122-129 | with a URL scheme the rejoined first segment is the service, and the other segments joined are the route |
| RouteParser.CutVerb | index.js:130-143 | the method, route and error left by the `[`/`]` offsets and `substring` are `MethodOf`, `ApiRouteOf` and `ErrorOf` of the route |
| RouteParser.VerbOffsets | index.js:133-141 | the offsets the parser uses cut out exactly the text between the opening `[` and the first `]`, and the text after that `]` |
| RouteParser.NoVerbByOffsets | index.js:130-134 | when `[` is not at position 0, or it is and no `]` follows, the method stays `post` and the route whole; the error is set exactly in the second case |
| RouteParser.VerbByOffsets | index.js:130-143 | with `[` at position 0 and a `]` after it, the method is the lower-cased text between them, the route is the text after the `]` when the verb is non-empty and whole otherwise, and there is no error |
| RouteParser.ParseRoute | index.js:104-153 | the parser's result is `RouteOf` of its input |
| RouteParser.RouteInstance | index.js:110-116 | with an `@`, the input is the instance (which holds no `@`), then `@`, then the rest that is parsed; without one, the instance is empty and the whole input is parsed |
| RouteParser.PlainRoute | index.js:118-129 | with no `@` and no URL scheme, the service holds no `:`; with no `:` it is the whole input and the route is empty; with a `:` and no bracket, service + `:` + route is the input and the method is `post` |
| RouteParser.UrlSchemeRoute | index.js:122-126 | with a URL scheme, the service is the first two segments rejoined by one `:`, and the service, a `:` and the route give the address back |
| RouteParser.UrlSchemeWithoutPort | index.js:123 | a URL scheme with no `:` gives the service `<input>:undefined` and an empty route |
| RouteParser.VerbBracket | index.js:130-143 | a route opening with `[verb]` gets the verb lower-cased as its method; a non-empty verb is stripped with its brackets, an empty one leaves the route whole; no error |
| RouteParser.RouteError | index.js:119-138 | an error is set iff the route opens a bracket and never closes it; the method then stays `post` and the route whole; the segment-count error never occurs |
| RouteParser.RouteDefaultMethod | index.js:106 | without a closed verb bracket at the front of the route, the method is `post` |
| RouteParser.MethodLowerCase | index.js:136 | the method never holds an upper-case letter |
| RouteParser.QualifiedRoute | index.js:110-129 | `instance@service:path`, with no `@` in the instance, no `:` in the service and no URL scheme, parses to that instance and service, and the method, route and error of `path` |
| RouteParser.GetTestServiceRoute | index.js:110-141 | `<instance>@test-service:[GET]<path>` parses to that instance, `test-service`, `get` and `<path>`, with no error |
| RouteParser.TestSuiteRoute | specs/tests.js:86-114 | `fa1ae8d586fc44afaad8cd2740aef041@test-service:[GET]/v1/somedata` parses to that instance, `test-service`, `get` and `/v1/somedata`, with no error |
| RouteParser.PlainServiceRoute | index.js:118-129 | `someservice:/` parses to the service `someservice`, the route `/` and the method `post` |
| RouteParser.UrlWithPortRoute | index.js:122-129 | `http://host:9000:/path` parses to the service `http://host` and the route `9000:/path` |
| RouteParser.EmptyVerbRoute | index.js:136-141 | `svc:[]` parses to the empty method and the unstripped route `[]` |
| RouteParser.UnclosedVerbRoute | index.js:132-134 | `svc:[GET/v1` parses to the ill-formed-verb error, the method `post` and the route unchanged |

## Left out

- `_getTimeStamp`, `createMessageID` and `createShortMessageID` (index.js:20-40) call `moment`, `uuid`
  and `@flywheelsports/jsutils`. These are not part of this model. Their results are the `now`,
  `messageId` and `shortMessageId` parameters of `CreateMessage`.
- `messageToLong` and `messageToShort` are called by the tests but are not defined in index.js, so
  long/short conversion is not modelled.
- `JsString.ToLowerCase`: lower-cases only ASCII letters. Unicode case mapping is not modelled.
- Numbers are mathematical integers. `NaN`, `-0` and fractions are not modelled, so truthiness of
  numbers is `n != 0`.
- A string body is copied one element of `seq<char>` per key, not one UTF-16 code unit per key.
- `getMessageBody` returns a fresh object. Maps are values here, so aliasing is not modelled.
- `parseRoute` on a value that is not a string throws in JavaScript. The model takes strings only.
- `UmfMessage.ValidateMessage`: takes a property map. In JavaScript, `validateMessage(undefined)` and
  `validateMessage(null)` throw a `TypeError` at index.js:78; that error path is not modelled. Its
  property reads also follow the prototype chain; only own properties are modelled.
- `UmfMessage.GetMessageBody`: takes a property map. `getMessageBody(undefined)` and
  `getMessageBody(null)` throw a `TypeError` at index.js:92; that error path is not modelled, and
  `message.body` is read as an own property only, not through the prototype chain.
- `UmfMessage.CreateMessage`: a caller key `__proto__` (from parsed JSON) sets the prototype of the
  built message under `Object.assign` instead of becoming a key; the model treats it as an
  ordinary key. Non-enumerable and symbol-keyed properties are not modelled either.
- The unused `UMF_INVALID_MESSAGE` constant (index.js:8), the empty constructor and the singleton
  export (index.js:156) are not modelled.
