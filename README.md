# WAMP client session engine in Dafny

This project models the session protocol engine of a Qt WAMP (Web
Application Messaging Protocol) client and proves properties of it. The
engine has three parts:

- `WampWorker` owns the WebSocket and a reconnect timer, and dispatches every
  received message over its integer code.
- `WampConnectionPrivate` holds five correlation tables, each mapping a request
  id to a pending entry: registrations, unregistrations, subscriptions,
  unsubscriptions and calls. It also holds four directories mapping a router id
  or a uri to an entry. It builds the outbound request arrays.
- `WampCraUser` answers a router's WAMP-CRA challenge.

The project has six modules:

- `Values`: the closed value type a message array is made of, the message codes
  and the QVariant conversions.
- `KeyDerivation`: `IntToOctet` and the first block of PBKDF2 (section 5.2 of
  RFC 8018).
- `Subscriptions`: the `Subscription` entry class.
- `Registrations`: the `Registration` entry class and the invocation record.
- `WampCra`: the challenge-response user.
- `Session`: the connection's tables and requests, the worker lifecycle and the
  dispatch.

Both kinds of entry are heap objects, so setting an entry's id is seen through
every table that holds it.

Nothing is performed, only recorded:

- **`WampWorker.wire`** records the socket actions: open, close, and text or
  binary frames carrying the message array.
- **`ConnectionPrivate.signals`** records the signals the connection emits, and
  each call's resolution.
- **`ConnectionPrivate.queue`** records the `handleInvocation` and `handleEvent`
  jobs the source posts to the connection's thread.

Each received message's effect is a twostate predicate of `ConnectionPrivate`:

- `ErrorStep`, `AbortStep`, `WelcomeStep`, `RegisteredStep`, `UnregisteredStep`,
  `SubscribedStep`, `UnsubscribedStep`, `InvocationStep`, `EventStep`,
  `ResultStep`, `ChallengeStep` and `GoodbyeStep` give one step per branch.
- `PlainStep` covers codes with no branch.
- `Received` selects among them by the code.

Each step states every table's new value and says that nothing else changed.
The table invariant `ConnectionPrivate.Valid` is kept by every operation that
changes a table. It says:

- the worker points back to the connection;
- each directory files every entry under the id or uri the entry carries;
- an entry awaiting acknowledgement waits under one request id only and is in
  neither directory.

The conversions `Values.ToMap`, `Values.ToList` and `Values.Lookup` are one-line
helpers that carry no contract. They model `QVariant::toMap` and
`QVariant::toList`, which give an empty collection for a value of another type,
and `QVariantMap::operator[]`, which gives an invalid value for a missing key
(src/client/wampworker.cpp:231 and :278-279).

## Model

| member | source | states |
|---|---|---|
| Values.Wrap32 | src/client/wampworker.cpp:151 | the cast to `int` keeps the value modulo 2^32, and keeps a value already in the signed 32-bit range |
| Values.Wrap64 | src/client/wampworker.cpp:155 | the cast to `qulonglong` keeps a value in range and adds 2^64 to a negative one down to -2^64 |
| Values.Round | src/client/wampworker.cpp:155 | qRound64 gives the integer within one half of the double, a half going up |
| Values.NatDecimal | src/client/wampworker.cpp:156 | the text of a natural number is a non-empty run of decimal digits with no leading zero |
| Values.DigitsValueOfDecimal | src/client/wampworker.cpp:156 | reading the digits of `n` back gives `n` |
| Values.TrimStart | src/client/wampworker.cpp:151 | the number parser's leading white space: the result is a suffix, all that was dropped is white space, and the result starts with none |
| Values.TrimEnd | src/client/wampworker.cpp:151 | the same as TrimStart for trailing white space |
| Values.ParseNumeralOfDecimal | src/client/wampworker.cpp:151 | the decimal text of every integer parses back to its sign and magnitude |
| Values.StringToLongLong | src/client/wampworker.cpp:151 | `QString::toLongLong` gives a signed 64-bit value, and 0 for text that is not a numeral |
| Values.StringToULongLong | src/client/wampworker.cpp:155 | `QString::toULongLong` gives 0 for text that is not a numeral |
| Values.StringToLongLongOfDecimal | src/client/wampworker.cpp:151 | a signed 64-bit integer survives the trip through its decimal text |
| Values.StringToULongLongOfDecimal | src/client/wampworker.cpp:155 | an unsigned 64-bit integer survives the trip through its decimal text; the text of a negative number reads as 0 |
| Values.FromLatin1 | src/client/wampworker.cpp:155 | one character per byte, with the byte's code |
| Values.ToULongLong | src/client/wampworker.cpp:155 | `toULongLong`: an integer in range is kept, and a negative one down to -2^64 reads as itself plus 2^64. A non-negative double below 2^63 reads as its nearest integer. A boolean gives 0 or 1, and an invalid, null, list or map value gives 0. By its definition, text is parsed with StringToULongLong |
| Values.ToInt | src/client/wampworker.cpp:151 | `toInt` gives a signed 32-bit value. An in-range integer is kept, and an in-range double reads as its nearest integer. A boolean gives 0 or 1, and an invalid, null, list or map value gives 0. By its definition, text is parsed with StringToLongLong and cut to 32 bits |
| Values.IntText | src/client/wampworker.cpp:156 | the decimal text of an integer parses back to the integer's sign and magnitude |
| Values.ToStr | src/client/wampworker.cpp:156 | `toString` gives a string unchanged and a boolean as "true" or "false". An integer gives text that parses back to its sign and magnitude. An invalid, null, double, list or map value gives the empty string |
| Values.IntTextToInt | src/client/wampworker.cpp:151 | an integer sent as its `toString` text converts with `toInt` exactly as the integer does, so a message code sent as text dispatches the same |
| Values.IdTextToULongLong | src/client/wampworker.cpp:155 | an unsigned 64-bit id sent as its `toString` text reads back with `toULongLong` as the id itself |
| Values.Latin1 | src/wampcrauser.cpp:73 | `toLatin1` gives one byte per UTF-16 code unit, so a character beyond U+FFFF gives two. On characters up to U+FFFF that is one byte per character: the character's code below 256 and `?` otherwise |
| Values.Latin1Append | src/client/wampconnection.cpp:51 | `toLatin1` of a concatenation is the concatenation of the two encodings |
| Values.Latin1RoundTrip | src/client/wampworker.cpp:279 | `fromLatin1` then `toLatin1` gives the bytes back, and `toLatin1` then `fromLatin1` gives back a string of characters below 256 |
| KeyDerivation.IntToOctet | src/client/wampconnection.cpp:38-46 | exactly four bytes whose big-endian reading is `i` modulo 2^32 (most significant byte first) |
| KeyDerivation.BigEndianInjective | src/client/wampconnection.cpp:38-46 | two four-byte strings with the same big-endian value are equal, so the encoding is determined by the value |
| KeyDerivation.OctetOfOne | src/client/wampconnection.cpp:51 | the four-byte encoding of 1 is `00 00 00 01` |
| KeyDerivation.Block | src/client/wampconnection.cpp:53-61 | every chained HMAC block `U[j]` has 32 bytes |
| KeyDerivation.Pbkdf2 | src/client/wampconnection.cpp:48-74 | the result has 32 bytes and equals `DerivedKey`: byte i is the XOR over j < iterations of `U[j][i]`, with `U[0] = HMAC(pw, salt ‖ IntToOctet(1))` and `U[j] = HMAC(pw, U[j-1])` |
| KeyDerivation.XorBlocks | src/client/wampconnection.cpp:62-73 | the nested XOR loop gives, at every index below 32, the XOR of that column of all blocks |
| KeyDerivation.DerivedKeyWithoutIterations | src/client/wampconnection.cpp:53-73 | zero (or negative) iterations give 32 zero bytes |
| KeyDerivation.DerivedKeyOneIteration | src/client/wampconnection.cpp:51-61 | one iteration gives `HMAC(pw, salt ‖ 00 00 00 01)` itself |
| KeyDerivation.DerivedKeyStep | src/client/wampconnection.cpp:63-72 | one more iteration XORs the next chained block into every byte |
| Subscriptions.Subscription.Default | src/client/subscription_p.h:22-25 | the default subscription has an empty uri and id -1 read as the largest unsigned 64-bit value |
| Subscriptions.Subscription.constructor | src/client/subscription_p.h:35-38 | `uri()` is the uri given; the id is left unconstrained |
| Subscriptions.Subscription.SetSubscriptionId | src/client/subscription_p.h:30-33 | afterwards `subscriptionId()` is the value set; the uri is a constant and does not change |
| Subscriptions.Subscription.Handle | src/client/subscription_p.h:109-112 | the functor subscription's handler changes nothing |
| Registrations.Registration.constructor | src/client/wampconnection.cpp:173 | a registration keeps the uri and the procedure it was made with; `addRegistration` reads the uri back |
| Registrations.Registration.SetRegistrationId | src/client/wampworker.cpp:188 | afterwards the registration id is the value set |
| WampCra.WampCraUser.Default | src/wampcrauser.cpp:22-25 | a user made without credentials has an empty name and an empty secret |
| WampCra.WampCraUser.constructor | src/wampcrauser.cpp:31-36 | the `(name, secret)` constructor stores both; `Secret()` returns the stored secret |
| WampCra.WampCraUser.SetSecret | src/wampcrauser.cpp:47-51 | afterwards `secret()` is the value set and the name is unchanged |
| WampCra.WampCraUser.SetName | src/client/wampworker.cpp:128 | afterwards the name is the value set and the secret is unchanged |
| WampCra.WampCraUser.AuthMethod | src/wampcrauser.cpp:52-55 | the method is always `"wampcra"` |
| WampCra.WampCraUser.Response | src/wampcrauser.cpp:56-76 | a non-empty stored secret keys the HMAC; with an empty one, the credential store's password for the parent url does. The answer is base64 of HMAC-SHA256 of the key's Latin-1 bytes and the challenge, and no key derivation takes place |
| Session.WebSocketConnection.constructor | src/client/wampworker.cpp:61-63 | a socket keeps the url and the subprotocol list it was made for |
| Session.Sent | src/client/wampconnection.cpp:85-101 | with no serializer or no socket nothing is sent. Otherwise exactly one frame carrying the array goes out on the socket, binary exactly when the serializer is binary |
| Session.HelloOptions | src/client/wampworker.cpp:122-142 | `authid` is present iff the name is non-empty. `authmethods` is `[authMethod, "anonymous"]` for a named user and `["anonymous"]` otherwise. `roles` maps exactly publisher, subscriber, caller and callee to empty maps, and there are no other keys |
| Session.PayloadArgs | src/client/wampworker.cpp:229-232 | the arguments are `arr[4]` when it exists and is a list, and empty otherwise |
| Session.ConnectionPrivate.YieldMessage | src/client/wampconnection.cpp:80-82 | YIELD is `[70, requestId, {}]`, with a fourth element `[val]` exactly when the result is valid |
| Session.ConnectionPrivate.constructor | src/client/wampconnection.cpp:21-28 | a new connection has its worker pointing back to it, every table empty, no serializer, no socket, the timer stopped, and the invariant established |
| Session.ConnectionPrivate.SendWampMessage | src/client/wampconnection.cpp:85-101 | the wire grows by exactly `Sent(serializer, socket, arr)` |
| Session.ConnectionPrivate.HandleInvocation | src/client/wampconnection.cpp:76-84 | the wire grows by the YIELD for the procedure's result on the invocation's arguments |
| Session.ConnectionPrivate.HandleEvent | src/client/wampconnection.cpp:103-106 | delivering an event changes no subscription |
| Session.ConnectionPrivate.AddRegistration | src/client/wampconnection.cpp:170-176 | exactly one pending registration is filed under the request id, overwriting any key already there. `[64, id, {}, uri]` is sent, no other table changes, and the invariant is kept |
| Session.ConnectionPrivate.AddSubscription | src/client/wampconnection.cpp:177-183 | exactly one pending subscription is filed under the request id. `[32, id, {}, uri]` is sent, no other table changes, and the invariant is kept |
| Session.ConnectionPrivate.Subscribe | src/client/wampconnection.h:40-46 | a new subscription entry for the uri is added as AddSubscription adds one |
| Session.ConnectionPrivate.Unregister | src/client/wampconnection.cpp:192-200 | the id leaves the id directory at once. Its entry, or null for an unknown id, waits in the pending-unregistration table under the request id. The uri directory is untouched and `[66, requestId, id]` is sent |
| Session.ConnectionPrivate.Unsubscribe | src/client/wampconnection.cpp:201-209 | the same as Unregister for subscriptions, sending `[34, requestId, id]` |
| Session.ConnectionPrivate.UnregisterUri | src/client/wampconnection.cpp:290-299 | an unknown uri changes no state and sends nothing. Otherwise the effect is Unregister's, with the id the uri's entry carries |
| Session.ConnectionPrivate.UnsubscribeUri | src/client/wampconnection.cpp:300-309 | the same as UnregisterUri for subscriptions |
| Session.ConnectionPrivate.Call | src/client/wampconnection.cpp:220-226 | the call is recorded as pending under the request id and `[48, id, {}, uri, args]` is sent |
| Session.ConnectionPrivate.Publish | src/client/wampconnection.cpp:257-262 | `[16, id, {}, uri, args]` is sent and no table changes |
| Session.ConnectionPrivate.AddSignalObserver | src/client/wampconnection.cpp:310-316 | the observer is filed under its topic and the subscriber count is requested with a CALL to `wamp.subscription.count_subscribers` |
| Session.ConnectionPrivate.OnConnected | src/client/wampconnection.cpp:107-127 | two new, distinct meta-topic subscriptions, for on_create and on_delete, are filed as pending under the two request ids; if the ids coincide the second entry replaces the first. Their two SUBSCRIBE arrays are sent in that order, then `connected` is emitted |
| Session.ConnectionPrivate.TakePendingRegistration | src/client/wampworker.cpp:186-187 | the entry under the request id leaves the pending table and is in no table afterwards |
| Session.ConnectionPrivate.FileRegistration | src/client/wampworker.cpp:189-195 | an entry the uri directory held for the same uri leaves it, and leaves the id directory by the id it carried. Both directories then file the entry, and the invariant is kept |
| Session.ConnectionPrivate.AcknowledgeRegistration | src/client/wampworker.cpp:183-196 | the pending entry takes the new id and leaves the pending table, and any prior entry for its uri is dropped by its old id. Afterwards `registrations[regId]` and `uriRegistration[uri]` are this same entry |
| Session.ConnectionPrivate.TakePendingSubscription | src/client/wampworker.cpp:207-208 | the same as TakePendingRegistration for subscriptions |
| Session.ConnectionPrivate.FileSubscription | src/client/wampworker.cpp:210-216 | the same as FileRegistration for subscriptions |
| Session.ConnectionPrivate.AcknowledgeSubscription | src/client/wampworker.cpp:204-217 | the same as AcknowledgeRegistration: afterwards `subscriptions[subId]` and `uriSubscription[uri]` are the same entry |
| Session.ConnectionPrivate.Shutdown | src/client/wampconnection.cpp:29-32 | `[6, {}, "wamp.error.system_shutdown"]` is sent |
| Session.WampWorker.constructor | src/client/wampworker.cpp:39-43 | a new worker has no socket, a stopped timer, an empty wire and a 5000 ms retry interval |
| Session.WampWorker.Reconnect | src/client/wampworker.cpp:49-56 | with no socket nothing changes. Otherwise the old socket is closed and replaced by a fresh one for the url, with the timer running |
| Session.WampWorker.Connect | src/client/wampworker.cpp:58-69 | always ends with a fresh socket for the url offering MessagePack then JSON, the timer running, and an Open on the wire |
| Session.WampWorker.Disconnect | src/client/wampworker.cpp:71-79 | always ends with no socket and the timer stopped. A socket present before is closed; a second call changes nothing |
| Session.WampWorker.SendTextMessage | src/client/wampworker.cpp:81-88 | one text frame on the socket, or nothing without a socket |
| Session.WampWorker.SendBinaryMessage | src/client/wampworker.cpp:89-95 | one binary frame on the socket, or nothing without a socket |
| Session.WampWorker.Closed | src/client/wampworker.cpp:96-110 | every topic observer is disabled and `disconnected` is emitted. The timer is started exactly when a socket still exists and otherwise keeps its state, so a close after Disconnect or GOODBYE schedules no reconnect |
| Session.WampWorker.Opened | src/client/wampworker.cpp:117-145 | the timer stops and the negotiated serializer is installed. A missing user is replaced by a fresh WAMP-CRA user named from the credential store. `[1, realm, HelloOptions(name, "wampcra")]` is sent under the new serializer |
| Session.WampWorker.OnError | src/client/wampworker.cpp:152-171 | `ErrorStep`: with sub-code CALL the pending call leaves the table and resolves with an invalid value. Every ERROR emits `(subCode, requestId, arr[3], arr[4], arr[5] or [])`; nothing else changes and the invariant is kept |
| Session.WampWorker.OnAbort | src/client/wampworker.cpp:172-178 | `AbortStep`: the error `(3, 0, arr[1], arr[2], [])` is emitted and nothing else changes |
| Session.WampWorker.OnWelcome | src/client/wampworker.cpp:179-182 | `WelcomeStep`: the onConnected effect, then `textMessageReceived` |
| Session.WampWorker.OnRegistered | src/client/wampworker.cpp:183-196 | `RegisteredStep`: AcknowledgeRegistration's effect on the three registration tables; every other table is unchanged and the invariant is kept |
| Session.WampWorker.OnUnregistered | src/client/wampworker.cpp:197-203 | `UnregisteredStep`: the pending entry leaves its table and is deleted from the id directory by its id. It is also deleted from the uri directory by its uri, whichever entry now holds that uri; nothing else changes |
| Session.WampWorker.OnSubscribed | src/client/wampworker.cpp:204-217 | `SubscribedStep`, the same as RegisteredStep for subscriptions |
| Session.WampWorker.OnUnsubscribed | src/client/wampworker.cpp:218-223 | `UnsubscribedStep`, the same as UnregisteredStep for subscriptions |
| Session.WampWorker.OnInvocation | src/client/wampworker.cpp:224-239 | `InvocationStep`: one invocation is queued, for the registration `arr[2]` names, with the list arguments of `arr[4]` and request id `arr[1]` |
| Session.WampWorker.OnEvent | src/client/wampworker.cpp:240-260 | `EventStep`: for a known subscription one event is queued with publication id `arr[2]`. For an unknown one nothing at all changes, not even `textMessageReceived` |
| Session.WampWorker.OnResult | src/client/wampworker.cpp:261-272 | `ResultStep`: the call leaves the table and resolves once, with `arr[3][0]` when the message has more than 3 elements and with an invalid value otherwise |
| Session.WampWorker.OnChallenge | src/client/wampworker.cpp:276-282 | `ChallengeStep`: `[5, response, {}]` is sent, carrying the user's response to the Latin-1 bytes of `extra["challenge"]`; no table changes |
| Session.WampWorker.OnGoodbye | src/client/wampworker.cpp:283-291 | `GoodbyeStep`: `disconnected` is emitted and the worker disconnects, leaving no socket and a stopped timer |
| Session.WampWorker.OnOther | src/client/wampworker.cpp:273-275 | `PlainStep`: PUBLISHED or an unknown code only emits `textMessageReceived` |
| Session.WampWorker.MessageReceived | src/client/wampworker.cpp:146-295 | `Received`: the step of the branch the message's code selects, with the invariant kept. ERROR and ABORT are tested before the WELCOME…GOODBYE chain, and every branch except the dropped EVENT ends with `textMessageReceived` |

## Left out

- Threading is left out: the worker thread, `moveToThread`, queued invocation of `handleInvocation` and `handleEvent`, the blocking `flush`, and the thread's quit and wait. Dispatch is synchronous, and the queued jobs are appended to `queue` rather than run.
- The WebSocket, the QTimer and subprotocol negotiation are I/O. The socket is a nullable object, the timer a boolean, the negotiated serializer a parameter of `Opened`, and socket actions a log.
- Serialization (`serialize`, `deserialize`, `WampMessageSerializer::create`) is not modelled. Messages are arrays of the closed `Value` type, and a frame carries the array itself. `textMessageReceived` carries the decoded array instead of the raw bytes.
- HMAC-SHA256, base64 and the credential store are foreign routines, so they are function-valued parameters (`Crypto`, `CredentialStore`, `KeyDerivation.Mac`). HMAC is only known to return 32 bytes.
- `Random::generate` is left out: every request id is a parameter, and an insert overwrites an existing key as the source's does.
- User callbacks are left out: JS and method subscriptions, `Registration::execute`, `Call::resultReady` and the Future, and the signal observer's Qt connections. A subscription is the functor subscription, whose handler does nothing. A registration's procedure is a function value. A call is an opaque handle whose resolution is a signal.
- The subscriber-count callback of `addSignalObserver`, which enables the observer when the count is positive, and its republishing on `signalEmitted` are callbacks and not modelled.
- The meta-topic handlers installed by `onConnected`, which enable or disable an observer when an event arrives, are callbacks and not modelled.
- registration.h is not modelled: the `Registration` class is given the interface its callers use, which is a uri, a registration id with its setter, and the procedure.
- signalobserver.h is not modelled: a `SignalObserver` is only its enabled flag, which `closed` clears.
- The connection's user is taken to be a `WampCraUser`. Other `User` subclasses (user.h is not modelled) could answer HELLO's `authMethod` and CHALLENGE's `response` differently, through the virtual calls at src/client/wampworker.cpp:135 and :279. So the model always advertises `wampcra` and always answers with the WAMP-CRA response.
- Values.ToULongLong / Values.ToInt: a double is an exact real number. The binary64 rounding inside qRound64's `+ 0.5` is not modelled, and a double outside the signed 64-bit range, whose conversion C++ leaves undefined, is taken modulo. Number parsing skips only ASCII white space, where `QChar::isSpace` also accepts other Unicode spaces. Byte arrays are parsed with the same grammar as strings. QVariant's char, float and other numeric types are outside the value type.
- Values.ToStr: a double reads as the empty string, where Qt renders its shortest round-trip decimal text. A byte array with a byte outside 1..127 also reads as empty, where Qt decodes it as UTF-8 up to the first NUL byte. Integers, booleans, strings and ASCII byte arrays are modelled.
- `q_ptr` is taken to be set, so the `if (q_ptr)` guards around `messageReceived` and the signal emissions always hold.
- `Session.WampWorker.MessageReceived` requires each `take` on a missing key and each null dereference never to happen.
  - The source dereferences the result without a check, so the model states these cases as the preconditions collected in `Receivable`.
  - They cover: a pending entry for REGISTERED, UNREGISTERED, SUBSCRIBED, UNSUBSCRIBED, RESULT and CALL errors; a non-null entry for UNREGISTERED and UNSUBSCRIBED; and a non-empty result list for RESULT.
  - Each message array must also have the elements its branch reads.
- `Session.WampWorker.OnInvocation` requires the registration id to be known. The source's `_registrations[regId]` default-inserts a null pointer that `handleInvocation` later dereferences.
- `Session.WampWorker.OnChallenge` requires a user who can answer. The user `opened` creates has no parent, so one without a secret would dereference a null parent.
- `WampCra.WampCraUser.Response` takes the parent connection's url as a parameter, and the challenge handler passes the connection's url.
- `Session.ConnectionPrivate.AddRegistration` and `Session.ConnectionPrivate.AddSubscription` require the entry to be in no table yet. The source accepts any shared pointer, and re-adding an entry that is already filed is what the invariant rules out.
- The uris `wamp.subscription.count_subscribers`, `wamp.subscription.on_create` and `wamp.subscription.on_delete` stand for `KEY_COUNT_SUBSCRIBERS`, `KEY_SUBSCRIPTION_ON_CREATE` and `KEY_SUBSCRIPTION_ON_DELETE`. No modelled file defines these constants, so they are assumed to be the WAMP meta API's names.
- `Session.ConnectionPrivate.constructor` fixes the url, realm and user. `setUrl`, `setRealm` and `setUser` (src/client/wampconnection.cpp:141-163), which can replace them at any time, are not modelled.
- `Session.WampWorker.Connect` replaces any existing socket, as `_socket.reset` at src/client/wampworker.cpp:61 does, but logs no Close for it. Destroying the old WebSocketConnection would close it, and that teardown is not modelled.
- `socketStateToString` and all qDebug and qWarning logging are left out.
