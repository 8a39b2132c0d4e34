/**
 * The session protocol engine of the WAMP client: the connection's private
 * part (correlation tables from request id to pending entry, the id and uri
 * directories of registrations and subscriptions, the outbound request
 * builders) and the worker that owns the socket, runs the reconnect
 * supervisor and dispatches every received message over its code.
 *
 * The two classes refer to each other, as in the source, so they share this
 * module. What leaves the client is recorded rather than performed: socket
 * actions in `WampWorker.wire`, signals the connection emits (and call
 * resolutions) in `ConnectionPrivate.signals`, and the handler calls the
 * source posts to the connection's event queue in `ConnectionPrivate.queue`.
 */
module Session {
  import opened Values
  import opened Registrations
  import opened Subscriptions
  import opened WampCra

  /** Milliseconds between two attempts of the reconnect supervisor. */
  const RECONNECT_INTERVAL := 5000

  /** The session meta topics subscribed to on WELCOME. */
  const ON_CREATE_TOPIC := "wamp.subscription.on_create"
  const ON_DELETE_TOPIC := "wamp.subscription.on_delete"

  /** The GOODBYE reason sent when the connection is destroyed. */
  const SHUTDOWN_REASON := "wamp.error.system_shutdown"

  /** The meta procedure `subscribersCount` calls. */
  const COUNT_SUBSCRIBERS := "wamp.subscription.count_subscribers"

  /** The WebSocket subprotocols a socket offers. */
  datatype Subprotocol = MsgPackSubprotocol | JsonSubprotocol

  /** The binary MessagePack subprotocol is preferred over JSON. */
  const REQUESTED_SUBPROTOCOLS: seq<Subprotocol> := [MsgPackSubprotocol, JsonSubprotocol]

  /** The serializer negotiated for a socket; only whether its frames are binary matters here. */
  datatype Serializer = Serializer(binary: bool)

  /** A WebSocket: the url it was opened for and the subprotocols it offered. */
  class WebSocketConnection {
    const uri: string
    const requestedSubprotocols: seq<Subprotocol>

    constructor (uri: string, requestedSubprotocols: seq<Subprotocol>)
      ensures this.uri == uri && this.requestedSubprotocols == requestedSubprotocols
    {
      this.uri := uri;
      this.requestedSubprotocols := requestedSubprotocols;
    }
  }

  /** What the worker asked of a socket. A send carries the message array before serialization. */
  datatype SocketAction =
    | Open(socket: WebSocketConnection)
    | Close(socket: WebSocketConnection)
    | SendText(socket: WebSocketConnection, message: Message)
    | SendBinary(socket: WebSocketConnection, message: Message)

  /** Identifies the Call object (and so the Future) a CALL was made for. */
  type CallHandle = nat

  /** WampError: the code, the request id, the details, the error uri and the arguments. */
  datatype WampError = WampError(code: int, requestId: U64, details: map<string, Value>, uri: string, args: seq<Value>)

  /** A signal of the connection, or the resolution of a call (`Call::resultReady`). */
  datatype Signal =
    | Connected
    | Disconnected
    | Error(error: WampError)
    | TextMessageReceived(message: Message)
    | ResultReady(call: CallHandle, result: Value)

  /** The record an EVENT is delivered with. */
  datatype Event = Event(subscription: Subscription, args: seq<Value>, publicationId: U64)

  /** A handler call posted to the connection's event queue. */
  datatype Job = InvokeJob(invocation: WampInvocation) | EventJob(event: Event)

  /** A signal observer: forwards a signal to a topic while it is enabled. */
  class SignalObserver {
    var enabled: bool

    constructor (enabled: bool)
      ensures this.enabled == enabled
    {
      this.enabled := enabled;
    }
  }

  /** What is sent for `arr`: nothing before a serializer exists or without a socket, else one binary or text frame. */
  function Sent(serializer: Option<Serializer>, socket: WebSocketConnection?, arr: Message): (actions: seq<SocketAction>)
    ensures |actions| <= 1
    ensures actions != [] <==> serializer.Some? && socket != null
    ensures actions != [] ==> (actions[0].SendText? || actions[0].SendBinary?) && actions[0].socket == socket && actions[0].message == arr
    ensures actions != [] ==> (actions[0].SendBinary? <==> serializer.value.binary)
  {
    if serializer.None? || socket == null then []
    else if serializer.value.binary then [SendBinary(socket, arr)]
    else [SendText(socket, arr)]
  }

  /** The roles HELLO announces, each with no features. */
  const ROLES: map<string, Value> :=
    map["publisher" := EMPTY_DICT, "subscriber" := EMPTY_DICT, "caller" := EMPTY_DICT, "callee" := EMPTY_DICT]

  /** The options of HELLO, built as `opened` builds them. */
  function HelloOptions(name: string, authMethod: string): (options: map<string, Value>)
    ensures options.Keys == if name != "" then {"authid", "authmethods", "roles"} else {"authmethods", "roles"}
    ensures "authid" in options <==> name != ""
    ensures "authid" in options ==> options["authid"] == Str(name)
    ensures options["authmethods"] == List(if name != "" then [Str(authMethod), Str("anonymous")] else [Str("anonymous")])
    ensures options["roles"].Dict? && options["roles"].entries.Keys == {"publisher", "subscriber", "caller", "callee"}
    ensures forall role | role in options["roles"].entries :: options["roles"].entries[role] == EMPTY_DICT
  {
    if name != "" then
      map["authid" := Str(name), "authmethods" := List([Str(authMethod), Str("anonymous")]), "roles" := Dict(ROLES)]
    else
      map["authmethods" := List([Str("anonymous")]), "roles" := Dict(ROLES)]
  }

  /** HELLO: `[1, realm, options]`. */
  function Hello(realm: string, name: string, authMethod: string): Message {
    [Int(HELLO), Str(realm), Dict(HelloOptions(name, authMethod))]
  }

  /** The request arrays the connection sends. */
  function SubscribeMessage(requestId: U64, uri: string): Message {
    [Int(SUBSCRIBE), Int(requestId), EMPTY_DICT, Str(uri)]
  }

  function RegisterMessage(requestId: U64, uri: string): Message {
    [Int(REGISTER), Int(requestId), EMPTY_DICT, Str(uri)]
  }

  /** The arguments of an INVOCATION or EVENT: element 4 when it is a list, else none. */
  function PayloadArgs(arr: Message): (args: seq<Value>)
    ensures |arr| > 4 && arr[4].List? ==> args == arr[4].items
    ensures !(|arr| > 4 && arr[4].List?) ==> args == []
  {
    if |arr| > 4 && arr[4].List? then arr[4].items else []
  }

  /** Every entry of the id directory carries the id it is filed under. */
  ghost predicate RegistrationIdsAgree(directory: map<U64, Registration>)
    reads directory.Values
  {
    forall id | id in directory :: directory[id].registrationId == id
  }

  ghost predicate SubscriptionIdsAgree(directory: map<U64, Subscription>)
    reads directory.Values
  {
    forall id | id in directory :: directory[id].subscriptionId == id
  }

  /** Every entry of the uri directory carries the uri it is filed under. */
  ghost predicate RegistrationUrisAgree(directory: map<string, Registration>) {
    forall uri | uri in directory :: directory[uri].uri == uri
  }

  ghost predicate SubscriptionUrisAgree(directory: map<string, Subscription>) {
    forall uri | uri in directory :: directory[uri].uri == uri
  }

  /** Each pending entry waits under one request id only and is in neither directory. */
  ghost predicate PendingApart<T>(pending: map<U64, T>, ids: map<U64, T>, uris: map<string, T>) {
    && (forall r | r in pending :: pending[r] !in ids.Values && pending[r] !in uris.Values)
    && (forall r, r' | r in pending && r' in pending && r != r' :: pending[r] != pending[r'])
  }

  /**
   * WampConnectionPrivate together with the WampConnection methods that
   * only act on it (unregister, unsubscribe, publish, addSignalObserver).
   */
  class ConnectionPrivate {
    const worker: WampWorker
    /** HMAC-SHA256 and base64, used by the user's challenge response. */
    const crypto: Crypto
    /** The credential store consulted for the user name and password. */
    const store: CredentialStore
    var url: string
    var realm: string
    var user: WampCraUser?
    var serializer: Option<Serializer>
    var pendingRegistrations: map<U64, Registration>
    var pendingUnregistrations: map<U64, Registration?>
    var pendingSubscriptions: map<U64, Subscription>
    var pendingUnsubscriptions: map<U64, Subscription?>
    var pendingCalls: map<U64, CallHandle>
    var registrations: map<U64, Registration>
    var uriRegistration: map<string, Registration>
    var subscriptions: map<U64, Subscription>
    var uriSubscription: map<string, Subscription>
    var topicObserver: map<string, SignalObserver>
    var signals: seq<Signal>
    var queue: seq<Job>

    /**
     * The table invariant: the worker points back here; the id directory
     * files every entry under the id the entry carries and the uri
     * directory under the uri it carries; and an entry waiting for its
     * REGISTERED (SUBSCRIBED) is waiting under one request id only and is
     * in neither directory yet, so setting its id disturbs no directory.
     */
    ghost predicate Valid()
      reads this`pendingRegistrations, this`registrations, this`uriRegistration
      reads this`pendingSubscriptions, this`subscriptions, this`uriSubscription
      reads worker`conn, registrations.Values, subscriptions.Values
    {
      && worker.conn == this
      && RegistrationIdsAgree(registrations) && RegistrationUrisAgree(uriRegistration)
      && SubscriptionIdsAgree(subscriptions) && SubscriptionUrisAgree(uriSubscription)
      && PendingApart(pendingRegistrations, registrations, uriRegistration)
      && PendingApart(pendingSubscriptions, subscriptions, uriSubscription)
    }

    /** A connection for `url` and `realm` with no serializer, no socket and empty tables. */
    constructor (url: string, realm: string, user: WampCraUser?, crypto: Crypto, store: CredentialStore)
      ensures Valid() && fresh(worker)
      ensures this.url == url && this.realm == realm && this.user == user && serializer == None
      ensures this.crypto == crypto && this.store == store
      ensures pendingRegistrations == map[] && pendingUnregistrations == map[] && registrations == map[] && uriRegistration == map[]
      ensures pendingSubscriptions == map[] && pendingUnsubscriptions == map[] && subscriptions == map[] && uriSubscription == map[]
      ensures pendingCalls == map[] && topicObserver == map[] && signals == [] && queue == []
      ensures worker.socket == null && !worker.timerActive && worker.wire == []
    {
      var w := new WampWorker();
      worker := w;
      this.crypto := crypto;
      this.store := store;
      this.url := url;
      this.realm := realm;
      this.user := user;
      serializer := None;
      pendingRegistrations := map[];
      pendingUnregistrations := map[];
      pendingSubscriptions := map[];
      pendingUnsubscriptions := map[];
      pendingCalls := map[];
      registrations := map[];
      uriRegistration := map[];
      subscriptions := map[];
      uriSubscription := map[];
      topicObserver := map[];
      signals := [];
      queue := [];
      new;
      w.conn := this;
    }

    /** sendWampMessage: nothing without a serializer, else a binary or a text frame as the serializer says. */
    method SendWampMessage(arr: Message)
      modifies worker`wire
      ensures worker.wire == old(worker.wire) + Sent(serializer, worker.socket, arr)
    {
      if serializer.None? {
        return;
      }
      if serializer.value.binary {
        worker.SendBinaryMessage(arr);
      } else {
        worker.SendTextMessage(arr);
      }
    }

    /** The YIELD answering request `requestId` with `val`; an invalid result leaves the arguments out. */
    static function YieldMessage(requestId: U64, val: Value): (arr: Message)
      ensures |arr| == (if val == Invalid then 3 else 4)
      ensures arr[..3] == [Int(YIELD), Int(requestId), EMPTY_DICT]
      ensures val != Invalid ==> arr[3] == List([val])
    {
      if val == Invalid then [Int(YIELD), Int(requestId), EMPTY_DICT]
      else [Int(YIELD), Int(requestId), EMPTY_DICT, List([val])]
    }

    /** handleInvocation: runs the procedure and answers YIELD, with the result only when it is valid. */
    method HandleInvocation(invocation: WampInvocation)
      modifies worker`wire
      ensures worker.wire == old(worker.wire) + Sent(serializer, worker.socket,
                YieldMessage(invocation.requestId, invocation.registration.execute(invocation.args)))
    {
      var val := invocation.registration.execute(invocation.args);
      var resultArr := [val];
      var arr := [Int(YIELD), Int(invocation.requestId), EMPTY_DICT];
      if val != Invalid {
        arr := arr + [List(resultArr)];
      }
      assert arr == YieldMessage(invocation.requestId, val);
      SendWampMessage(arr);
    }

    /** handleEvent: hands the arguments to the subscription's handler, which changes nothing. */
    method HandleEvent(event: Event)
      ensures unchanged(event.subscription)
    {
      event.subscription.Handle(event.args, map[], map[]);
    }

    /** addRegistration: files a new entry under the request id and sends REGISTER. */
    method AddRegistration(reg: Registration, requestId: U64)
      requires Valid()
      requires reg !in pendingRegistrations.Values && reg !in registrations.Values && reg !in uriRegistration.Values
      modifies this`pendingRegistrations, worker`wire
      ensures Valid()
      ensures pendingRegistrations == old(pendingRegistrations)[requestId := reg]
      ensures worker.wire == old(worker.wire) + Sent(serializer, worker.socket, RegisterMessage(requestId, reg.uri))
    {
      var arr := RegisterMessage(requestId, reg.uri);
      pendingRegistrations := pendingRegistrations[requestId := reg];
      SendWampMessage(arr);
    }

    /** addSubscription: files a new entry under the request id and sends SUBSCRIBE. */
    method AddSubscription(sub: Subscription, requestId: U64)
      requires Valid()
      requires sub !in pendingSubscriptions.Values && sub !in subscriptions.Values && sub !in uriSubscription.Values
      modifies this`pendingSubscriptions, worker`wire
      ensures Valid()
      ensures pendingSubscriptions == old(pendingSubscriptions)[requestId := sub]
      ensures worker.wire == old(worker.wire) + Sent(serializer, worker.socket, SubscribeMessage(requestId, sub.uri))
    {
      var arr := SubscribeMessage(requestId, sub.uri);
      pendingSubscriptions := pendingSubscriptions[requestId := sub];
      SendWampMessage(arr);
    }

    /** subscribe(uri, callback): a new subscription entry for `uri`, added under the request id. */
    method Subscribe(uri: string, requestId: U64) returns (sub: Subscription)
      requires Valid()
      modifies this`pendingSubscriptions, worker`wire
      ensures Valid() && fresh(sub) && sub.uri == uri
      ensures pendingSubscriptions == old(pendingSubscriptions)[requestId := sub]
      ensures worker.wire == old(worker.wire) + Sent(serializer, worker.socket, SubscribeMessage(requestId, uri))
    {
      sub := new Subscription(uri);
      AddSubscription(sub, requestId);
    }

    /** The effect of unregister(id): the entry leaves the id directory at once and waits under the request id. */
    twostate predicate UnregisterStep(registrationId: U64, requestId: U64)
      reads this`registrations, this`pendingUnregistrations, this`serializer, worker`socket, worker`wire
    {
      && registrations == old(registrations) - {registrationId}
      && pendingUnregistrations == old(pendingUnregistrations)[requestId :=
           if registrationId in old(registrations) then old(registrations)[registrationId] else null]
      && worker.wire == old(worker.wire) + Sent(serializer, worker.socket, [Int(UNREGISTER), Int(requestId), Int(registrationId)])
    }

    /** unregister(id); an unknown id files a null entry, as `take` on a missing key gives one. */
    method Unregister(registrationId: U64, requestId: U64)
      requires Valid()
      modifies this`registrations, this`pendingUnregistrations, worker`wire
      ensures Valid() && UnregisterStep(registrationId, requestId)
    {
      var arr := [Int(UNREGISTER), Int(requestId), Int(registrationId)];
      var reg: Registration? := null;
      if registrationId in registrations {
        reg := registrations[registrationId];
        registrations := registrations - {registrationId};
      }
      pendingUnregistrations := pendingUnregistrations[requestId := reg];
      SendWampMessage(arr);
    }

    /** The effect of unsubscribe(id), symmetric to UnregisterStep. */
    twostate predicate UnsubscribeStep(subscriptionId: U64, requestId: U64)
      reads this`subscriptions, this`pendingUnsubscriptions, this`serializer, worker`socket, worker`wire
    {
      && subscriptions == old(subscriptions) - {subscriptionId}
      && pendingUnsubscriptions == old(pendingUnsubscriptions)[requestId :=
           if subscriptionId in old(subscriptions) then old(subscriptions)[subscriptionId] else null]
      && worker.wire == old(worker.wire) + Sent(serializer, worker.socket, [Int(UNSUBSCRIBE), Int(requestId), Int(subscriptionId)])
    }

    /** unsubscribe(id); an unknown id files a null entry. */
    method Unsubscribe(subscriptionId: U64, requestId: U64)
      requires Valid()
      modifies this`subscriptions, this`pendingUnsubscriptions, worker`wire
      ensures Valid() && UnsubscribeStep(subscriptionId, requestId)
    {
      var arr := [Int(UNSUBSCRIBE), Int(requestId), Int(subscriptionId)];
      var sub: Subscription? := null;
      if subscriptionId in subscriptions {
        sub := subscriptions[subscriptionId];
        subscriptions := subscriptions - {subscriptionId};
      }
      pendingUnsubscriptions := pendingUnsubscriptions[requestId := sub];
      SendWampMessage(arr);
    }

    /** unregister(uri): nothing for an unknown uri, else unregister(id) with the id that entry carries. */
    method UnregisterUri(uri: string, requestId: U64)
      requires Valid()
      modifies this`registrations, this`pendingUnregistrations, worker`wire
      ensures Valid()
      ensures uri !in old(uriRegistration) ==> unchanged(this`registrations, this`pendingUnregistrations, worker`wire)
      ensures uri in old(uriRegistration) ==> UnregisterStep(old(uriRegistration[uri].registrationId), requestId)
    {
      if uri !in uriRegistration {
        return;
      }
      var registrationId := uriRegistration[uri].registrationId;
      Unregister(registrationId, requestId);
    }

    /** unsubscribe(uri): nothing for an unknown uri, else unsubscribe(id) with the id that entry carries. */
    method UnsubscribeUri(uri: string, requestId: U64)
      requires Valid()
      modifies this`subscriptions, this`pendingUnsubscriptions, worker`wire
      ensures Valid()
      ensures uri !in old(uriSubscription) ==> unchanged(this`subscriptions, this`pendingUnsubscriptions, worker`wire)
      ensures uri in old(uriSubscription) ==> UnsubscribeStep(old(uriSubscription[uri].subscriptionId), requestId)
    {
      if uri !in uriSubscription {
        return;
      }
      var subscriptionId := uriSubscription[uri].subscriptionId;
      Unsubscribe(subscriptionId, requestId);
    }

    /** call: records the pending call and sends CALL. */
    method Call(uri: string, args: seq<Value>, call: CallHandle, requestId: U64)
      modifies this`pendingCalls, worker`wire
      ensures pendingCalls == old(pendingCalls)[requestId := call]
      ensures worker.wire == old(worker.wire) + Sent(serializer, worker.socket,
                [Int(CALL), Int(requestId), EMPTY_DICT, Str(uri), List(args)])
    {
      var arr := [Int(CALL), Int(requestId), EMPTY_DICT, Str(uri), List(args)];
      pendingCalls := pendingCalls[requestId := call];
      SendWampMessage(arr);
    }

    /** publish: sends PUBLISH and records nothing. */
    method Publish(uri: string, args: seq<Value>, requestId: U64)
      modifies worker`wire
      ensures worker.wire == old(worker.wire) + Sent(serializer, worker.socket,
                [Int(PUBLISH), Int(requestId), EMPTY_DICT, Str(uri), List(args)])
    {
      var arr := [Int(PUBLISH), Int(requestId), EMPTY_DICT, Str(uri), List(args)];
      SendWampMessage(arr);
    }

    /** addSignalObserver: files the observer under its topic and asks the router how many subscribers it has. */
    method AddSignalObserver(uri: string, observer: SignalObserver, call: CallHandle, requestId: U64)
      modifies this`topicObserver, this`pendingCalls, worker`wire
      ensures topicObserver == old(topicObserver)[uri := observer]
      ensures pendingCalls == old(pendingCalls)[requestId := call]
      ensures worker.wire == old(worker.wire) + Sent(serializer, worker.socket,
                [Int(CALL), Int(requestId), EMPTY_DICT, Str(COUNT_SUBSCRIBERS), List([Str(uri)])])
    {
      topicObserver := topicObserver[uri := observer];
      Call(COUNT_SUBSCRIBERS, [Str(uri)], call, requestId);
    }

    /** onConnected: subscribes to the two meta topics, then emits `connected`. */
    method OnConnected(onCreateId: U64, onDeleteId: U64) returns (created: Subscription, deleted: Subscription)
      requires Valid()
      modifies this`pendingSubscriptions, this`signals, worker`wire
      ensures Valid()
      ensures fresh(created) && fresh(deleted) && created != deleted
      ensures created.uri == ON_CREATE_TOPIC && deleted.uri == ON_DELETE_TOPIC
      ensures pendingSubscriptions == old(pendingSubscriptions)[onCreateId := created][onDeleteId := deleted]
      ensures signals == old(signals) + [Connected]
      ensures worker.wire == old(worker.wire)
                + Sent(serializer, worker.socket, SubscribeMessage(onCreateId, ON_CREATE_TOPIC))
                + Sent(serializer, worker.socket, SubscribeMessage(onDeleteId, ON_DELETE_TOPIC))
    {
      created := Subscribe(ON_CREATE_TOPIC, onCreateId);
      deleted := Subscribe(ON_DELETE_TOPIC, onDeleteId);
      signals := signals + [Connected];
    }

    /** The first step of REGISTERED: the entry waiting under the request id leaves the pending table. */
    method TakePendingRegistration(requestId: U64) returns (reg: Registration)
      requires Valid() && requestId in pendingRegistrations
      modifies this`pendingRegistrations
      ensures Valid()
      ensures reg == old(pendingRegistrations[requestId])
      ensures pendingRegistrations == old(pendingRegistrations) - {requestId}
      ensures reg !in pendingRegistrations.Values && reg !in registrations.Values && reg !in uriRegistration.Values
    {
      reg := pendingRegistrations[requestId];
      pendingRegistrations := pendingRegistrations - {requestId};
    }

    /**
     * The rest of REGISTERED, once the entry carries its id: an entry the
     * uri directory holds for the same uri leaves it and leaves the id
     * directory by the id it carries; then both directories file the entry.
     */
    method FileRegistration(reg: Registration)
      requires Valid()
      requires reg !in pendingRegistrations.Values && reg !in registrations.Values && reg !in uriRegistration.Values
      modifies this`registrations, this`uriRegistration
      ensures Valid()
      ensures registrations ==
        (if reg.uri in old(uriRegistration) then old(registrations) - {old(uriRegistration)[reg.uri].registrationId}
         else old(registrations))[reg.registrationId := reg]
      ensures uriRegistration == old(uriRegistration)[reg.uri := reg]
    {
      var uris, ids := uriRegistration, registrations;
      if reg.uri in uris {
        var oldReg := uris[reg.uri];
        uris := uris - {reg.uri};
        ids := ids - {oldReg.registrationId};
      }
      registrations := ids[reg.registrationId := reg];
      uriRegistration := uris[reg.uri := reg];
    }

    /** The first step of SUBSCRIBED: the entry waiting under the request id leaves the pending table. */
    method TakePendingSubscription(requestId: U64) returns (sub: Subscription)
      requires Valid() && requestId in pendingSubscriptions
      modifies this`pendingSubscriptions
      ensures Valid()
      ensures sub == old(pendingSubscriptions[requestId])
      ensures pendingSubscriptions == old(pendingSubscriptions) - {requestId}
      ensures sub !in pendingSubscriptions.Values && sub !in subscriptions.Values && sub !in uriSubscription.Values
    {
      sub := pendingSubscriptions[requestId];
      pendingSubscriptions := pendingSubscriptions - {requestId};
    }

    /** The rest of SUBSCRIBED, symmetric to FileRegistration. */
    method FileSubscription(sub: Subscription)
      requires Valid()
      requires sub !in pendingSubscriptions.Values && sub !in subscriptions.Values && sub !in uriSubscription.Values
      modifies this`subscriptions, this`uriSubscription
      ensures Valid()
      ensures subscriptions ==
        (if sub.uri in old(uriSubscription) then old(subscriptions) - {old(uriSubscription)[sub.uri].subscriptionId}
         else old(subscriptions))[sub.subscriptionId := sub]
      ensures uriSubscription == old(uriSubscription)[sub.uri := sub]
    {
      var uris, ids := uriSubscription, subscriptions;
      if sub.uri in uris {
        var oldSub := uris[sub.uri];
        uris := uris - {sub.uri};
        ids := ids - {oldSub.subscriptionId};
      }
      subscriptions := ids[sub.subscriptionId := sub];
      uriSubscription := uris[sub.uri := sub];
    }

    /**
     * REGISTERED's table work: the entry waiting under `requestId` leaves
     * the pending table, takes `regId`, and is filed in both directories.
     */
    method AcknowledgeRegistration(requestId: U64, regId: U64) returns (reg: Registration)
      requires Valid() && requestId in pendingRegistrations
      modifies this`pendingRegistrations, this`registrations, this`uriRegistration, pendingRegistrations[requestId]
      ensures Valid()
      ensures reg == old(pendingRegistrations[requestId]) && reg.registrationId == regId
      ensures regId in registrations && reg.uri in uriRegistration && registrations[regId] == uriRegistration[reg.uri] == reg
      ensures pendingRegistrations == old(pendingRegistrations) - {requestId}
      ensures registrations ==
        (if reg.uri in old(uriRegistration) then old(registrations) - {old(uriRegistration[reg.uri].registrationId)}
         else old(registrations))[regId := reg]
      ensures uriRegistration == old(uriRegistration)[reg.uri := reg]
    {
      reg := TakePendingRegistration(requestId);
      ghost var displaced := if reg.uri in uriRegistration then {uriRegistration[reg.uri]} else {};
      reg.SetRegistrationId(regId);
      assert forall r | r in displaced :: r.registrationId == old(r.registrationId);
      FileRegistration(reg);
    }

    /** SUBSCRIBED's table work, symmetric to AcknowledgeRegistration. */
    method AcknowledgeSubscription(requestId: U64, subId: U64) returns (sub: Subscription)
      requires Valid() && requestId in pendingSubscriptions
      modifies this`pendingSubscriptions, this`subscriptions, this`uriSubscription, pendingSubscriptions[requestId]
      ensures Valid()
      ensures sub == old(pendingSubscriptions[requestId]) && sub.subscriptionId == subId
      ensures subId in subscriptions && sub.uri in uriSubscription && subscriptions[subId] == uriSubscription[sub.uri] == sub
      ensures pendingSubscriptions == old(pendingSubscriptions) - {requestId}
      ensures subscriptions ==
        (if sub.uri in old(uriSubscription) then old(subscriptions) - {old(uriSubscription[sub.uri].subscriptionId)}
         else old(subscriptions))[subId := sub]
      ensures uriSubscription == old(uriSubscription)[sub.uri := sub]
    {
      sub := TakePendingSubscription(requestId);
      ghost var displaced := if sub.uri in uriSubscription then {uriSubscription[sub.uri]} else {};
      sub.SetSubscriptionId(subId);
      assert forall s | s in displaced :: s.subscriptionId == old(s.subscriptionId);
      FileSubscription(sub);
    }

    /** The GOODBYE the destructor sends before the worker thread stops. */
    method Shutdown()
      modifies worker`wire
      ensures worker.wire == old(worker.wire) + Sent(serializer, worker.socket,
                [Int(GOODBYE), EMPTY_DICT, Str(SHUTDOWN_REASON)])
    {
      var arr := [Int(GOODBYE), EMPTY_DICT, Str(SHUTDOWN_REASON)];
      SendWampMessage(arr);
    }

    /**
     * What `messageReceived` needs of a message and of the tables: the
     * elements it reads exist, every `take` finds its key, the entry an
     * UNREGISTERED or UNSUBSCRIBED names is not null, a RESULT's list is
     * not empty, the INVOCATION's registration is known, and a CHALLENGE
     * has a user who can answer it.
     */
    ghost predicate Receivable(arr: Message)
      reads this, user
    {
      && |arr| >= 1
      && var code := Code(arr);
      && (code == ERROR ==> |arr| >= 5 && (ToInt(arr[1]) == CALL ==> ToULongLong(arr[2]) in pendingCalls))
      && (code == ABORT ==> |arr| >= 3)
      && (code == REGISTERED ==> |arr| >= 3 && ToULongLong(arr[1]) in pendingRegistrations)
      && (code == UNREGISTERED ==>
            |arr| >= 2 && ToULongLong(arr[1]) in pendingUnregistrations && pendingUnregistrations[ToULongLong(arr[1])] != null)
      && (code == SUBSCRIBED ==> |arr| >= 3 && ToULongLong(arr[1]) in pendingSubscriptions)
      && (code == UNSUBSCRIBED ==>
            |arr| >= 2 && ToULongLong(arr[1]) in pendingUnsubscriptions && pendingUnsubscriptions[ToULongLong(arr[1])] != null)
      && (code == INVOCATION ==> |arr| >= 3 && ToULongLong(arr[2]) in registrations)
      && (code == EVENT ==> |arr| >= 2 && (ToULongLong(arr[1]) in subscriptions ==> |arr| >= 3))
      && (code == RESULT ==> |arr| >= 2 && ToULongLong(arr[1]) in pendingCalls && (|arr| > 3 ==> ToList(arr[3]) != []))
      && (code == CHALLENGE ==> |arr| >= 3 && user != null && (user.secret != "" || user.hasParent))
      && (code == GOODBYE ==> |arr| >= 3)
    }

    /** The entry a message's handler changes in place: the entry REGISTERED or SUBSCRIBED assigns an id to. */
    ghost function Touched(arr: Message): set<object>
      reads this
    {
      if |arr| >= 2 && Code(arr) == REGISTERED && ToULongLong(arr[1]) in pendingRegistrations then
        {pendingRegistrations[ToULongLong(arr[1])]}
      else if |arr| >= 2 && Code(arr) == SUBSCRIBED && ToULongLong(arr[1]) in pendingSubscriptions then
        {pendingSubscriptions[ToULongLong(arr[1])]}
      else {}
    }

    /** The url, realm, user, serializer and topic observers are as they were. */
    twostate predicate SettingsUnchanged()
      reads this`url, this`realm, this`user, this`serializer, this`topicObserver
    {
      unchanged(this`url, this`realm, this`user, this`serializer, this`topicObserver)
    }

    /** The four registration tables are as they were. */
    twostate predicate RegistrationsUnchanged()
      reads this`pendingRegistrations, this`pendingUnregistrations, this`registrations, this`uriRegistration
    {
      unchanged(this`pendingRegistrations, this`pendingUnregistrations, this`registrations, this`uriRegistration)
    }

    /** The four subscription tables are as they were. */
    twostate predicate SubscriptionsUnchanged()
      reads this`pendingSubscriptions, this`pendingUnsubscriptions, this`subscriptions, this`uriSubscription
    {
      unchanged(this`pendingSubscriptions, this`pendingUnsubscriptions, this`subscriptions, this`uriSubscription)
    }

    /** Nothing of the connection changed but that `added` was emitted. */
    twostate predicate OnlyEmitted(added: seq<Signal>)
      reads this
    {
      && SettingsUnchanged() && RegistrationsUnchanged() && SubscriptionsUnchanged()
      && unchanged(this`pendingCalls, this`queue)
      && signals == old(signals) + added
    }

    /** The socket, the timer and the wire are as they were. */
    twostate predicate WorkerUnchanged()
      reads worker`socket, worker`timerActive, worker`wire
    {
      unchanged(worker`socket, worker`timerActive, worker`wire)
    }

    /** A message no branch handles (PUBLISHED, an unknown code) is only reported as received. */
    twostate predicate PlainStep(arr: Message)
      reads this, worker`socket, worker`timerActive, worker`wire
    {
      OnlyEmitted([TextMessageReceived(arr)]) && WorkerUnchanged()
    }

    /** ERROR: a CALL error resolves and drops the call with an invalid result; every ERROR is emitted. */
    twostate predicate ErrorStep(arr: Message)
      reads this, worker`socket, worker`timerActive, worker`wire
    {
      && |arr| >= 5
      && var subCode := ToInt(arr[1]);
      && var requestId := ToULongLong(arr[2]);
      && var error := Error(WampError(subCode, requestId, ToMap(arr[3]), ToStr(arr[4]), if |arr| > 5 then ToList(arr[5]) else []));
      && SettingsUnchanged() && RegistrationsUnchanged() && SubscriptionsUnchanged() && unchanged(this`queue)
      && WorkerUnchanged()
      && if subCode == CALL then
           && requestId in old(pendingCalls)
           && pendingCalls == old(pendingCalls) - {requestId}
           && signals == old(signals) + [ResultReady(old(pendingCalls)[requestId], Invalid), error, TextMessageReceived(arr)]
         else
           && pendingCalls == old(pendingCalls)
           && signals == old(signals) + [error, TextMessageReceived(arr)]
    }

    /** ABORT: emitted as an error with code 3 and request id 0. */
    twostate predicate AbortStep(arr: Message)
      reads this, worker`socket, worker`timerActive, worker`wire
    {
      && |arr| >= 3
      && OnlyEmitted([Error(WampError(ABORT, 0, ToMap(arr[1]), ToStr(arr[2]), [])), TextMessageReceived(arr)])
      && WorkerUnchanged()
    }

    /** WELCOME: two new meta-topic subscriptions wait for SUBSCRIBED and `connected` is emitted. */
    twostate predicate WelcomeStep(arr: Message, onCreateId: U64, onDeleteId: U64, new created: Subscription, new deleted: Subscription)
      reads this, worker`socket, worker`timerActive, worker`wire
    {
      && fresh(created) && fresh(deleted) && created != deleted
      && created.uri == ON_CREATE_TOPIC && deleted.uri == ON_DELETE_TOPIC
      && SettingsUnchanged() && RegistrationsUnchanged()
      && unchanged(this`pendingUnsubscriptions, this`subscriptions, this`uriSubscription, this`pendingCalls, this`queue)
      && pendingSubscriptions == old(pendingSubscriptions)[onCreateId := created][onDeleteId := deleted]
      && signals == old(signals) + [Connected, TextMessageReceived(arr)]
      && unchanged(worker`socket, worker`timerActive)
      && worker.wire == old(worker.wire)
           + Sent(serializer, worker.socket, SubscribeMessage(onCreateId, ON_CREATE_TOPIC))
           + Sent(serializer, worker.socket, SubscribeMessage(onDeleteId, ON_DELETE_TOPIC))
    }

    /**
     * REGISTERED: the entry waiting under `arr[1]` gets id `arr[2]`; an
     * entry the uri directory held for the same uri leaves both
     * directories (the id directory by the id it carried); then both
     * directories file the entry.
     */
    twostate predicate RegisteredStep(arr: Message, reg: Registration)
      reads this, registrations.Values, worker`socket, worker`timerActive, worker`wire
    {
      && |arr| >= 3
      && var requestId, regId := ToULongLong(arr[1]), ToULongLong(arr[2]);
      && requestId in old(pendingRegistrations) && old(pendingRegistrations)[requestId] == reg
      && var kept := if reg.uri in old(uriRegistration)
                     then old(registrations) - {old(uriRegistration[reg.uri].registrationId)}
                     else old(registrations);
      && registrations == kept[regId := reg]
      && registrations[regId].registrationId == regId
      && pendingRegistrations == old(pendingRegistrations) - {requestId}
      && uriRegistration == old(uriRegistration)[reg.uri := reg]
      && SettingsUnchanged() && SubscriptionsUnchanged() && unchanged(this`pendingUnregistrations, this`pendingCalls, this`queue)
      && signals == old(signals) + [TextMessageReceived(arr)]
      && WorkerUnchanged()
    }

    /** SUBSCRIBED, symmetric to RegisteredStep. */
    twostate predicate SubscribedStep(arr: Message, sub: Subscription)
      reads this, subscriptions.Values, worker`socket, worker`timerActive, worker`wire
    {
      && |arr| >= 3
      && var requestId, subId := ToULongLong(arr[1]), ToULongLong(arr[2]);
      && requestId in old(pendingSubscriptions) && old(pendingSubscriptions)[requestId] == sub
      && var kept := if sub.uri in old(uriSubscription)
                     then old(subscriptions) - {old(uriSubscription[sub.uri].subscriptionId)}
                     else old(subscriptions);
      && subscriptions == kept[subId := sub]
      && subscriptions[subId].subscriptionId == subId
      && pendingSubscriptions == old(pendingSubscriptions) - {requestId}
      && uriSubscription == old(uriSubscription)[sub.uri := sub]
      && SettingsUnchanged() && RegistrationsUnchanged() && unchanged(this`pendingUnsubscriptions, this`pendingCalls, this`queue)
      && signals == old(signals) + [TextMessageReceived(arr)]
      && WorkerUnchanged()
    }

    /**
     * UNREGISTERED: the entry waiting under `arr[1]` leaves the id
     * directory by its id and the uri directory by its uri, whichever entry
     * the uri directory now holds for that uri.
     */
    twostate predicate UnregisteredStep(arr: Message, reg: Registration)
      reads this, worker`socket, worker`timerActive, worker`wire
    {
      && |arr| >= 2
      && var requestId := ToULongLong(arr[1]);
      && requestId in old(pendingUnregistrations) && old(pendingUnregistrations)[requestId] == reg
      && pendingUnregistrations == old(pendingUnregistrations) - {requestId}
      && registrations == old(registrations) - {old(reg.registrationId)}
      && uriRegistration == old(uriRegistration) - {reg.uri}
      && SettingsUnchanged() && SubscriptionsUnchanged() && unchanged(this`pendingRegistrations, this`pendingCalls, this`queue)
      && signals == old(signals) + [TextMessageReceived(arr)]
      && WorkerUnchanged()
    }

    /** UNSUBSCRIBED, symmetric to UnregisteredStep. */
    twostate predicate UnsubscribedStep(arr: Message, sub: Subscription)
      reads this, worker`socket, worker`timerActive, worker`wire
    {
      && |arr| >= 2
      && var requestId := ToULongLong(arr[1]);
      && requestId in old(pendingUnsubscriptions) && old(pendingUnsubscriptions)[requestId] == sub
      && pendingUnsubscriptions == old(pendingUnsubscriptions) - {requestId}
      && subscriptions == old(subscriptions) - {old(sub.subscriptionId)}
      && uriSubscription == old(uriSubscription) - {sub.uri}
      && SettingsUnchanged() && RegistrationsUnchanged() && unchanged(this`pendingSubscriptions, this`pendingCalls, this`queue)
      && signals == old(signals) + [TextMessageReceived(arr)]
      && WorkerUnchanged()
    }

    /** INVOCATION: an invocation record for the registration `arr[2]` names is queued for handleInvocation. */
    twostate predicate InvocationStep(arr: Message)
      reads this, worker`socket, worker`timerActive, worker`wire
    {
      && |arr| >= 3
      && ToULongLong(arr[2]) in old(registrations)
      && var invocation := WampInvocation(old(registrations)[ToULongLong(arr[2])], PayloadArgs(arr), ToULongLong(arr[1]));
      && queue == old(queue) + [InvokeJob(invocation)]
      && SettingsUnchanged() && RegistrationsUnchanged() && SubscriptionsUnchanged() && unchanged(this`pendingCalls)
      && signals == old(signals) + [TextMessageReceived(arr)]
      && WorkerUnchanged()
    }

    /** EVENT: queued for handleEvent when the subscription is known; otherwise dropped without a trace. */
    twostate predicate EventStep(arr: Message)
      reads this, worker`socket, worker`timerActive, worker`wire
    {
      && |arr| >= 2
      && var subId := ToULongLong(arr[1]);
      && WorkerUnchanged()
      && if subId in old(subscriptions) then
           && |arr| >= 3
           && var event := Event(old(subscriptions)[subId], PayloadArgs(arr), ToULongLong(arr[2]));
           && queue == old(queue) + [EventJob(event)]
           && SettingsUnchanged() && RegistrationsUnchanged() && SubscriptionsUnchanged() && unchanged(this`pendingCalls)
           && signals == old(signals) + [TextMessageReceived(arr)]
         else
           unchanged(this)
    }

    /** RESULT: the call leaves the table and is resolved once, with `arr[3][0]` or an invalid value. */
    twostate predicate ResultStep(arr: Message)
      reads this, worker`socket, worker`timerActive, worker`wire
    {
      && |arr| >= 2
      && var requestId := ToULongLong(arr[1]);
      && requestId in old(pendingCalls)
      && (|arr| > 3 ==> ToList(arr[3]) != [])
      && var result := if |arr| > 3 then ToList(arr[3])[0] else Invalid;
      && pendingCalls == old(pendingCalls) - {requestId}
      && SettingsUnchanged() && RegistrationsUnchanged() && SubscriptionsUnchanged() && unchanged(this`queue)
      && signals == old(signals) + [ResultReady(old(pendingCalls)[requestId], result), TextMessageReceived(arr)]
      && WorkerUnchanged()
    }

    /** CHALLENGE: AUTHENTICATE carries the user's response to the Latin-1 bytes of `extra["challenge"]`. */
    twostate predicate ChallengeStep(arr: Message)
      reads this, worker`socket, worker`timerActive, worker`wire
    {
      && |arr| >= 3
      && old(user) != null
      && var challenge := Latin1(ToStr(Lookup(ToMap(arr[2]), "challenge")));
      && var secret := ResolveSecret(old(user.secret), store.readPassword(old(url)));
      && OnlyEmitted([TextMessageReceived(arr)])
      && unchanged(worker`socket, worker`timerActive)
      && worker.wire == old(worker.wire) + Sent(serializer, worker.socket,
                          [Int(AUTHENTICATE), Str(CraResponse(crypto, secret, challenge)), EMPTY_DICT])
    }

    /** GOODBYE: `disconnected` is emitted and the worker disconnects, so no reconnect is scheduled. */
    twostate predicate GoodbyeStep(arr: Message)
      reads this, worker`socket, worker`timerActive, worker`wire
    {
      && |arr| >= 3
      && OnlyEmitted([Disconnected, TextMessageReceived(arr)])
      && worker.socket == null && !worker.timerActive
      && worker.wire == old(worker.wire) + (if old(worker.socket) != null then [Close(old(worker.socket))] else [])
    }

    /**
     * What receiving `arr` does: the step of the branch its code selects,
     * no branch being PlainStep. `created` and `deleted` are the meta-topic
     * subscriptions a WELCOME creates.
     */
    twostate predicate Received(arr: Message, onCreateId: U64, onDeleteId: U64, new created: Subscription?, new deleted: Subscription?)
      reads this, registrations.Values, subscriptions.Values, worker`socket, worker`timerActive, worker`wire
    {
      && |arr| >= 1
      && var code := Code(arr);
      if code == ERROR then ErrorStep(arr)
      else if code == ABORT then AbortStep(arr)
      else if code == WELCOME then created != null && deleted != null && WelcomeStep(arr, onCreateId, onDeleteId, created, deleted)
      else if code == REGISTERED then
        |arr| >= 2 && ToULongLong(arr[1]) in old(pendingRegistrations)
        && RegisteredStep(arr, old(pendingRegistrations[ToULongLong(arr[1])]))
      else if code == UNREGISTERED then
        |arr| >= 2 && ToULongLong(arr[1]) in old(pendingUnregistrations) && old(pendingUnregistrations[ToULongLong(arr[1])]) != null
        && UnregisteredStep(arr, old(pendingUnregistrations[ToULongLong(arr[1])]))
      else if code == SUBSCRIBED then
        |arr| >= 2 && ToULongLong(arr[1]) in old(pendingSubscriptions)
        && SubscribedStep(arr, old(pendingSubscriptions[ToULongLong(arr[1])]))
      else if code == UNSUBSCRIBED then
        |arr| >= 2 && ToULongLong(arr[1]) in old(pendingUnsubscriptions) && old(pendingUnsubscriptions[ToULongLong(arr[1])]) != null
        && UnsubscribedStep(arr, old(pendingUnsubscriptions[ToULongLong(arr[1])]))
      else if code == INVOCATION then InvocationStep(arr)
      else if code == EVENT then EventStep(arr)
      else if code == RESULT then ResultStep(arr)
      else if code == CHALLENGE then ChallengeStep(arr)
      else if code == GOODBYE then GoodbyeStep(arr)
      else PlainStep(arr)
    }
  }

  /**
   * WampWorker: owns the socket and the reconnect timer and receives every
   * message. `timerActive` says whether the retry timer (RECONNECT_INTERVAL
   * milliseconds) is running; each expiry calls Reconnect.
   */
  class WampWorker {
    var conn: ConnectionPrivate?
    var socket: WebSocketConnection?
    var timerActive: bool
    var wire: seq<SocketAction>
    const interval: nat

    constructor ()
      ensures conn == null && socket == null && !timerActive && wire == [] && interval == RECONNECT_INTERVAL
    {
      conn := null;
      socket := null;
      timerActive := false;
      wire := [];
      interval := RECONNECT_INTERVAL;
    }

    /** The worker serves a connection that points back to it. */
    ghost predicate Linked()
      reads this`conn
    {
      conn != null && conn.worker == this
    }

    /** reconnect: only with a socket, which is closed and replaced by a new connection attempt. */
    method Reconnect()
      requires conn != null
      modifies this`socket, this`timerActive, this`wire
      ensures old(socket) == null ==> socket == null && timerActive == old(timerActive) && wire == old(wire)
      ensures old(socket) != null ==>
        && socket != null && fresh(socket) && timerActive && socket.uri == conn.url
        && wire == old(wire) + [Close(old(socket)), Open(socket)]
    {
      if socket != null {
        wire := wire + [Close(socket)];
        Connect();
      }
    }

    /** connect: a new socket for the connection's url, offering MessagePack then JSON; the timer runs. */
    method Connect()
      requires conn != null
      modifies this`socket, this`timerActive, this`wire
      ensures socket != null && fresh(socket) && timerActive
      ensures socket.uri == conn.url && socket.requestedSubprotocols == REQUESTED_SUBPROTOCOLS
      ensures wire == old(wire) + [Open(socket)]
    {
      timerActive := false;
      var s := new WebSocketConnection(conn.url, REQUESTED_SUBPROTOCOLS);
      socket := s;
      wire := wire + [Open(s)];
      timerActive := true;
    }

    /** disconnect: closes and drops any socket and stops the timer; a second call changes nothing. */
    method Disconnect()
      modifies this`socket, this`timerActive, this`wire
      ensures socket == null && !timerActive
      ensures wire == old(wire) + (if old(socket) != null then [Close(old(socket))] else [])
    {
      if socket != null {
        wire := wire + [Close(socket)];
        socket := null;
      }
      timerActive := false;
    }

    /** sendTextMessage: a text frame on the socket, or nothing without one. */
    method SendTextMessage(message: Message)
      modifies this`wire
      ensures wire == old(wire) + (if socket != null then [SendText(socket, message)] else [])
    {
      if socket != null {
        wire := wire + [SendText(socket, message)];
      }
    }

    /** sendBinaryMessage: a binary frame on the socket, or nothing without one. */
    method SendBinaryMessage(message: Message)
      modifies this`wire
      ensures wire == old(wire) + (if socket != null then [SendBinary(socket, message)] else [])
    {
      if socket != null {
        wire := wire + [SendBinary(socket, message)];
      }
    }

    /**
     * closed: disables every topic observer, emits `disconnected`, and
     * restarts the timer only while a socket still exists.
     */
    method Closed()
      requires conn != null
      modifies this`timerActive, conn`signals, conn.topicObserver.Values
      ensures forall observer | observer in conn.topicObserver.Values :: !observer.enabled
      ensures conn.signals == old(conn.signals) + [Disconnected]
      ensures timerActive == (old(timerActive) || socket != null)
    {
      var observers := conn.topicObserver.Values;
      while observers != {}
        invariant observers <= conn.topicObserver.Values
        invariant forall observer | observer in conn.topicObserver.Values - observers :: !observer.enabled
        modifies conn.topicObserver.Values
        decreases observers
      {
        var observer :| observer in observers;
        observer.enabled := false;
        observers := observers - {observer};
      }
      conn.signals := conn.signals + [Disconnected];
      if socket != null {
        timerActive := true;
      }
    }

    /**
     * opened: stops the timer, installs the negotiated serializer, creates
     * a user named from the credential store when there is none, and sends
     * HELLO.
     */
    method Opened(negotiated: Option<Serializer>)
      requires Linked() && socket != null
      modifies this`timerActive, this`wire, conn`serializer, conn`user
      ensures !timerActive
      ensures conn.serializer == negotiated
      ensures old(conn.user) != null ==> conn.user == old(conn.user)
      ensures old(conn.user) == null ==>
        && conn.user != null && fresh(conn.user)
        && conn.user.Name() == conn.store.readUsername(conn.url) && conn.user.Secret() == "" && !conn.user.hasParent
      ensures conn.user != null
      ensures wire == old(wire) + Sent(negotiated, socket, Hello(conn.realm, conn.user.Name(), AUTH_METHOD))
    {
      timerActive := false;
      conn.serializer := negotiated;
      if conn.user == null {
        var u := new WampCraUser.Default(false);
        u.SetName(conn.store.readUsername(conn.url));
        conn.user := u;
      }
      var arr := Hello(conn.realm, conn.user.Name(), conn.user.AuthMethod());
      conn.SendWampMessage(arr);
    }

    method OnError(arr: Message)
      requires Linked() && conn.Valid() && |arr| >= 5 && (ToInt(arr[1]) == CALL ==> ToULongLong(arr[2]) in conn.pendingCalls)
      modifies conn`pendingCalls, conn`signals
      ensures Linked() && conn.Valid() && conn.ErrorStep(arr)
    {
      var c := conn;
      var subCode := ToInt(arr[1]);
      var requestId := ToULongLong(arr[2]);
      var args := if |arr| > 5 then ToList(arr[5]) else [];
      var error := Error(WampError(subCode, requestId, ToMap(arr[3]), ToStr(arr[4]), args));
      if subCode == CALL {
        var call := c.pendingCalls[requestId];
        c.pendingCalls := c.pendingCalls - {requestId};
        c.signals := c.signals + [ResultReady(call, Invalid), error, TextMessageReceived(arr)];
      } else {
        c.signals := c.signals + [error, TextMessageReceived(arr)];
      }
    }

    method OnAbort(arr: Message)
      requires Linked() && conn.Valid() && |arr| >= 3
      modifies conn`signals
      ensures Linked() && conn.Valid() && conn.AbortStep(arr)
    {
      var uri := ToStr(arr[2]);
      var details := ToMap(arr[1]);
      conn.signals := conn.signals + [Error(WampError(ABORT, 0, details, uri, [])), TextMessageReceived(arr)];
    }

    method OnWelcome(arr: Message, onCreateId: U64, onDeleteId: U64) returns (created: Subscription, deleted: Subscription)
      requires Linked() && conn.Valid()
      modifies this`wire, conn`pendingSubscriptions, conn`signals
      ensures Linked() && conn.Valid() && conn.WelcomeStep(arr, onCreateId, onDeleteId, created, deleted)
    {
      created, deleted := conn.OnConnected(onCreateId, onDeleteId);
      conn.signals := conn.signals + [TextMessageReceived(arr)];
    }

    method OnRegistered(arr: Message)
      requires Linked() && conn.Valid() && |arr| >= 3 && ToULongLong(arr[1]) in conn.pendingRegistrations
      modifies conn`pendingRegistrations, conn`registrations, conn`uriRegistration, conn`signals
      modifies conn.pendingRegistrations[ToULongLong(arr[1])]
      ensures Linked() && conn.Valid() && conn.RegisteredStep(arr, old(conn.pendingRegistrations[ToULongLong(arr[1])]))
    {
      var c := conn;
      var reg := c.AcknowledgeRegistration(ToULongLong(arr[1]), ToULongLong(arr[2]));
      c.signals := c.signals + [TextMessageReceived(arr)];
    }

    method OnUnregistered(arr: Message)
      requires Linked() && conn.Valid() && |arr| >= 2
      requires ToULongLong(arr[1]) in conn.pendingUnregistrations && conn.pendingUnregistrations[ToULongLong(arr[1])] != null
      modifies conn`pendingUnregistrations, conn`registrations, conn`uriRegistration, conn`signals
      ensures Linked() && conn.Valid() && conn.UnregisteredStep(arr, old(conn.pendingUnregistrations[ToULongLong(arr[1])]))
    {
      var c := conn;
      var requestId := ToULongLong(arr[1]);
      var reg := c.pendingUnregistrations[requestId];
      c.pendingUnregistrations := c.pendingUnregistrations - {requestId};
      c.registrations := c.registrations - {reg.registrationId};
      c.uriRegistration := c.uriRegistration - {reg.uri};
      c.signals := c.signals + [TextMessageReceived(arr)];
    }

    method OnSubscribed(arr: Message)
      requires Linked() && conn.Valid() && |arr| >= 3 && ToULongLong(arr[1]) in conn.pendingSubscriptions
      modifies conn`pendingSubscriptions, conn`subscriptions, conn`uriSubscription, conn`signals
      modifies conn.pendingSubscriptions[ToULongLong(arr[1])]
      ensures Linked() && conn.Valid() && conn.SubscribedStep(arr, old(conn.pendingSubscriptions[ToULongLong(arr[1])]))
    {
      var c := conn;
      var sub := c.AcknowledgeSubscription(ToULongLong(arr[1]), ToULongLong(arr[2]));
      c.signals := c.signals + [TextMessageReceived(arr)];
    }

    method OnUnsubscribed(arr: Message)
      requires Linked() && conn.Valid() && |arr| >= 2
      requires ToULongLong(arr[1]) in conn.pendingUnsubscriptions && conn.pendingUnsubscriptions[ToULongLong(arr[1])] != null
      modifies conn`pendingUnsubscriptions, conn`subscriptions, conn`uriSubscription, conn`signals
      ensures Linked() && conn.Valid() && conn.UnsubscribedStep(arr, old(conn.pendingUnsubscriptions[ToULongLong(arr[1])]))
    {
      var c := conn;
      var requestId := ToULongLong(arr[1]);
      var sub := c.pendingUnsubscriptions[requestId];
      c.pendingUnsubscriptions := c.pendingUnsubscriptions - {requestId};
      c.subscriptions := c.subscriptions - {sub.subscriptionId};
      c.uriSubscription := c.uriSubscription - {sub.uri};
      c.signals := c.signals + [TextMessageReceived(arr)];
    }

    method OnInvocation(arr: Message)
      requires Linked() && conn.Valid() && |arr| >= 3 && ToULongLong(arr[2]) in conn.registrations
      modifies conn`queue, conn`signals
      ensures Linked() && conn.Valid() && conn.InvocationStep(arr)
    {
      var regId := ToULongLong(arr[2]);
      var reg := conn.registrations[regId];
      var args := [];
      if |arr| > 4 && arr[4].List? {
        args := arr[4].items;
      }
      var invocation := WampInvocation(reg, args, ToULongLong(arr[1]));
      conn.queue := conn.queue + [InvokeJob(invocation)];
      conn.signals := conn.signals + [TextMessageReceived(arr)];
    }

    method OnEvent(arr: Message)
      requires Linked() && conn.Valid() && |arr| >= 2 && (ToULongLong(arr[1]) in conn.subscriptions ==> |arr| >= 3)
      modifies conn`queue, conn`signals
      ensures Linked() && conn.Valid() && conn.EventStep(arr)
    {
      var subId := ToULongLong(arr[1]);
      if subId !in conn.subscriptions {
        return;
      }
      var sub := conn.subscriptions[subId];
      var args := [];
      if |arr| > 4 && arr[4].List? {
        args := arr[4].items;
      }
      var event := Event(sub, args, ToULongLong(arr[2]));
      conn.queue := conn.queue + [EventJob(event)];
      conn.signals := conn.signals + [TextMessageReceived(arr)];
    }

    method OnResult(arr: Message)
      requires Linked() && conn.Valid() && |arr| >= 2 && ToULongLong(arr[1]) in conn.pendingCalls && (|arr| > 3 ==> ToList(arr[3]) != [])
      modifies conn`pendingCalls, conn`signals
      ensures Linked() && conn.Valid() && conn.ResultStep(arr)
    {
      var c := conn;
      var requestId := ToULongLong(arr[1]);
      var call := c.pendingCalls[requestId];
      c.pendingCalls := c.pendingCalls - {requestId};
      var result := Invalid;
      if |arr| > 3 {
        var resultArray := ToList(arr[3]);
        result := resultArray[0];
      }
      c.signals := c.signals + [ResultReady(call, result), TextMessageReceived(arr)];
    }

    method OnChallenge(arr: Message)
      requires Linked() && conn.Valid() && |arr| >= 3 && conn.user != null && (conn.user.secret != "" || conn.user.hasParent)
      modifies this`wire, conn`signals
      ensures Linked() && conn.Valid() && conn.ChallengeStep(arr)
    {
      var c := conn;
      var extra := ToMap(arr[2]);
      var result := c.user.Response(Latin1(ToStr(Lookup(extra, "challenge"))), c.url, c.store, c.crypto);
      var resArr := [Int(AUTHENTICATE), Str(result), EMPTY_DICT];
      c.SendWampMessage(resArr);
      c.signals := c.signals + [TextMessageReceived(arr)];
    }

    method OnGoodbye(arr: Message)
      requires Linked() && conn.Valid() && |arr| >= 3
      modifies this`socket, this`timerActive, this`wire, conn`signals
      ensures Linked() && conn.Valid() && conn.GoodbyeStep(arr)
    {
      Disconnect();
      conn.signals := conn.signals + [Disconnected, TextMessageReceived(arr)];
    }

    method OnOther(arr: Message)
      requires Linked() && conn.Valid()
      modifies conn`signals
      ensures Linked() && conn.Valid() && conn.PlainStep(arr)
    {
      conn.signals := conn.signals + [TextMessageReceived(arr)];
    }

    /**
     * messageReceived: dispatches the deserialized message over its code.
     * ERROR and ABORT are tested before the chain of the other codes, which
     * neither of them matches; every branch ends with the
     * `textMessageReceived` the source emits after the chain, except the
     * EVENT for an unknown subscription, which returns early. The request
     * ids the WELCOME branch draws are parameters.
     */
    method MessageReceived(arr: Message, onCreateId: U64, onDeleteId: U64)
      returns (ghost created: Subscription?, ghost deleted: Subscription?)
      requires Linked() && conn.Valid() && conn.serializer.Some? && conn.Receivable(arr)
      modifies this`socket, this`timerActive, this`wire, conn`pendingCalls, conn`signals, conn`queue
      modifies conn`pendingRegistrations, conn`pendingUnregistrations, conn`registrations, conn`uriRegistration
      modifies conn`pendingSubscriptions, conn`pendingUnsubscriptions, conn`subscriptions, conn`uriSubscription
      modifies conn.Touched(arr)
      ensures Linked() && conn.Valid()
      ensures conn.Received(arr, onCreateId, onDeleteId, created, deleted)
    {
      created, deleted := null, null;
      var code := Code(arr);
      if code == ERROR {
        OnError(arr);
      } else if code == ABORT {
        OnAbort(arr);
      } else if code == WELCOME {
        var c, d := OnWelcome(arr, onCreateId, onDeleteId);
        created, deleted := c, d;
      } else if code == REGISTERED {
        OnRegistered(arr);
      } else if code == UNREGISTERED {
        OnUnregistered(arr);
      } else if code == SUBSCRIBED {
        OnSubscribed(arr);
      } else if code == UNSUBSCRIBED {
        OnUnsubscribed(arr);
      } else if code == INVOCATION {
        OnInvocation(arr);
      } else if code == EVENT {
        OnEvent(arr);
      } else if code == RESULT {
        OnResult(arr);
      } else if code == CHALLENGE {
        OnChallenge(arr);
      } else if code == GOODBYE {
        OnGoodbye(arr);
      } else {
        OnOther(arr);
      }
    }
  }
}
