/**
 * What the wallet's channel service does with its two pieces of state, as
 * functions from one state to the next: the map from session cookie to channel
 * record, and each app's remaining quota (an app id to a `long`, 0 when
 * absent). Every binder call runs under the service's one lock, so each call
 * is one step here.
 *
 * The payment-channel protocol client that each record holds is not modelled;
 * what the service asks of it is logged in `clientCalls`, and its answers are
 * inputs (`Increment` for `incrementPayment`, `parseOk` for the message parser).
 */
module ChannelRegistry {
  import opened Long
  import opened Framing
  import opened Wrappers

  type Cookie = string
  type AppId = string

  /** `NetworkParameters.MAX_MONEY`: 21 million coins of 10^8 units each. */
  const MAX_MONEY: int := 2_100_000_000_000_000

  /** The codes `payServer` returns instead of an amount. */
  const NO_SUCH_CHANNEL: int := -1
  const CHANNEL_NOT_IN_SPENDABLE_STATE: int := -2
  const INVALID_REQUEST: int := -3
  const INSUFFICIENT_VALUE: int := -4

  /** The callback object an app hands to `openConnection`, by identity. */
  type Listener = nat

  /** The protocol client built for a channel, with the value it may lock up. */
  datatype Client = Client(maxValue: Int64)

  /** `ChannelAndMetadata`: a channel record; `client` is absent when building it failed. */
  datatype Channel = Channel(listener: Listener, hostId: string, appId: AppId, appName: string, client: Option<Client>)

  /** A call the service makes on the protocol client of the channel `cookie`. */
  datatype ClientCall =
    | ConnectionOpen(cookie: Cookie)
    | IncrementPayment(cookie: Cookie, amount: Int64)
    | Close(cookie: Cookie)
    | ConnectionClosed(cookie: Cookie)
    | ReceiveMessage(cookie: Cookie, message: Message)

  /**
   * How building a channel's protocol client ends: the client is built and
   * `connectionOpen` returns; constructing the client throws, so the record
   * keeps no client; or the client is stored in the record and then
   * `connectionOpen` throws.
   */
  datatype Build = Built | ConstructionFailed | ConnectionOpenFailed

  /** What `incrementPayment` does: applies some amount, or fails with one of two exceptions. */
  datatype Increment = Applied(actual: int) | ValueOutOfRange | IllegalState

  /** The intent that starts the permission activity, asking for `minValue`. */
  datatype Intent = ChannelRequest(minValue: Int64)

  datatype Registry = Registry(channels: map<Cookie, Channel>, quota: map<AppId, Int64>, clientCalls: seq<ClientCall>)

  /** A call's effect on the registry together with what it returns. */
  datatype Reply<T> = Reply(registry: Registry, value: T)

  /** What `payServer` does with the caller: returns a long, or throws. */
  datatype PayOutcome = Returned(value: Int64) | Thrown

  /** What `openConnection` does: returns a cookie, returns null, or throws. */
  datatype OpenOutcome = Opened(cookie: Cookie) | Refused | Failed

  /** `getAppValueRemaining`: an app that was never given a quota has 0. */
  function Remaining(r: Registry, app: AppId): (v: Int64)
    ensures app in r.quota ==> v == r.quota[app]
    ensures app !in r.quota ==> v == 0
  {
    if app in r.quota then r.quota[app] else 0
  }

  /** The same registry with one more call logged. */
  function Log(r: Registry, call: ClientCall): Registry {
    r.(clientCalls := r.clientCalls + [call])
  }

  /**
   * `incrementAndGet`: stores and returns the app's quota plus `value` (with
   * Java's long overflow); no other app's quota and nothing else changes.
   */
  function IncrementAndGet(r: Registry, app: AppId, value: Int64): (u: Reply<Int64>)
    ensures Remaining(u.registry, app) == u.value == Add(Remaining(r, app), value)
    ensures forall other :: other != app ==> Remaining(u.registry, other) == Remaining(r, other)
    ensures u.registry.channels == r.channels && u.registry.clientCalls == r.clientCalls
  {
    var total := Add(Remaining(r, app), value);
    Reply(r.(quota := r.quota[app := total]), total)
  }

  /** `allowConnection`: raises the app's quota by `maxValue`. */
  function AllowConnection(r: Registry, app: AppId, maxValue: Int64): (u: Registry)
    ensures Remaining(u, app) == Add(Remaining(r, app), maxValue)
    ensures MIN <= Remaining(r, app) + maxValue <= MAX ==> Remaining(u, app) == Remaining(r, app) + maxValue
    ensures forall other :: other != app ==> Remaining(u, other) == Remaining(r, other)
    ensures u.channels == r.channels && u.clientCalls == r.clientCalls
  {
    IncrementAndGet(r, app, maxValue).registry
  }

  /**
   * `closeConnection(id, generateServerClose)`: the record goes whether or not
   * it has a client; a client is asked to close only when `generateServerClose`
   * holds (an already-closed client's refusal is ignored), and is then told
   * that the connection closed.
   */
  function CloseConnection(r: Registry, id: Cookie, generateServerClose: bool): (u: Registry)
    ensures u.channels == r.channels - {id} && u.quota == r.quota
    ensures id !in r.channels || r.channels[id].client.None? ==> u.clientCalls == r.clientCalls
    ensures id in r.channels && r.channels[id].client.Some? ==>
      u.clientCalls == r.clientCalls + (if generateServerClose then [Close(id)] else []) + [ConnectionClosed(id)]
  {
    var channels := r.channels - {id};
    if id !in r.channels || r.channels[id].client.None? then
      r.(channels := channels)
    else
      var closed := if generateServerClose then Log(r, Close(id)) else r;
      Log(closed, ConnectionClosed(id)).(channels := channels)
  }

  /**
   * `prepare`: no intent (access granted) for a request outside (0, MAX_MONEY]
   * or one the caller's quota already covers; otherwise the intent that asks
   * the user to allow `minValue`.
   */
  function Prepare(r: Registry, caller: AppId, minValue: Int64): (i: Option<Intent>)
    ensures i.None? <==> minValue <= 0 || minValue > MAX_MONEY || Remaining(r, caller) >= minValue
    ensures i.Some? ==> i.value == ChannelRequest(minValue)
  {
    if minValue <= 0 || minValue > MAX_MONEY then None
    else if Remaining(r, caller) >= minValue then None
    else Some(ChannelRequest(minValue))
  }

  /** The name a channel record shows: the app's label, or its package name when it has none. */
  function AppName(appId: AppId, appLabel: Option<string>): string {
    if appLabel.Some? then appLabel.value else appId
  }

  /**
   * `openConnection`. `caller` is the package name of the calling uid (absent
   * when there is none), `appLabel` the app's label (absent when the package
   * manager does not know it), `linked` whether the death watch could be
   * registered, `build` how building the protocol client ended, and `uuid`
   * the random UUID. Any exception reaches the caller as `Failed`.
   */
  function OpenConnection(r: Registry, caller: Option<AppId>, appLabel: Option<string>,
                          listener: Option<Listener>, hostId: Option<string>,
                          linked: bool, build: Build, uuid: Cookie): (u: Reply<OpenOutcome>)
    ensures u.registry.quota == r.quota
    ensures listener.None? || hostId.None? ==> u == Reply(r, Refused)
    ensures u.value.Refused? ==> listener.None? || hostId.None?
    ensures u.value.Opened? <==> listener.Some? && hostId.Some? && caller.Some? && linked && build.Built?
    ensures u.value.Opened? || (u.value.Failed? && caller.Some? && linked && build.ConnectionOpenFailed?) ==>
      && u.registry.channels == r.channels[uuid := Channel(listener.value, hostId.value, caller.value,
                                                            AppName(caller.value, appLabel),
                                                            Some(Client(Remaining(r, caller.value))))]
      && u.registry.clientCalls == r.clientCalls + [ConnectionOpen(uuid)]
    ensures u.value.Opened? ==> u.value.cookie == uuid
    ensures u.value.Failed? && !(caller.Some? && linked) ==> u.registry == r
    ensures u.value.Failed? && caller.Some? && linked && build.ConstructionFailed? ==>
      && u.registry.channels == r.channels[uuid := Channel(listener.value, hostId.value, caller.value,
                                                            AppName(caller.value, appLabel), None)]
      && u.registry.clientCalls == r.clientCalls
  {
    if listener.None? || hostId.None? then Reply(r, Refused)
    else if caller.None? then Reply(r, Failed)
    else
      var appId := caller.value;
      var appName := AppName(appId, appLabel);
      var channel := Channel(listener.value, hostId.value, appId, appName, None);
      if !linked then Reply(r, Failed)
      else
        var maxValue := Remaining(r, appId);
        var put := r.(channels := r.channels[uuid := channel]);
        if build.ConstructionFailed? then Reply(put, Failed)
        else
          var withClient := put.(channels := put.channels[uuid := channel.(client := Some(Client(maxValue)))]);
          var connecting := Log(withClient, ConnectionOpen(uuid));
          if build.ConnectionOpenFailed? then Reply(connecting, Failed)
          else Reply(connecting, Opened(uuid))
  }

  /** The channel `id` names, when it has a protocol client. */
  predicate Live(r: Registry, id: Cookie) {
    id in r.channels && r.channels[id].client.Some?
  }

  /**
   * Every check `payServer` makes before it asks the client passes: an id, a
   * non-negative amount, a live channel that belongs to the caller, and a
   * quota that covers the amount.
   */
  predicate Authorized(r: Registry, caller: Option<AppId>, id: Option<Cookie>, amount: Int64) {
    && id.Some? && amount >= 0 && Live(r, id.value)
    && caller.Some? && caller.value == r.channels[id.value].appId
    && amount <= Remaining(r, caller.value)
  }

  /**
   * `payServer`. The checks come in this order: a missing id or a negative
   * amount, an unknown channel or one without a client, a caller without a
   * package name (a null pointer dereference), a caller other than the
   * channel's app, a quota below the amount. Then the client is asked for the
   * payment, and the quota goes down by the amount it applied (as a long),
   * which is returned; a value-out-of-range refusal leaves the quota alone,
   * and an illegal-state refusal closes the channel, asking the server to
   * close it too.
   */
  function PayServer(r: Registry, caller: Option<AppId>, id: Option<Cookie>, amount: Int64,
                     reply: Increment): (u: Reply<PayOutcome>)
    ensures id.None? || amount < 0 ==> u == Reply(r, Returned(INVALID_REQUEST))
    ensures id.Some? && amount >= 0 && !Live(r, id.value) ==> u == Reply(r, Returned(NO_SUCH_CHANNEL))
    ensures id.Some? && amount >= 0 && Live(r, id.value) && caller.None? ==> u == Reply(r, Thrown)
    ensures id.Some? && amount >= 0 && Live(r, id.value) && caller.Some? && caller.value != r.channels[id.value].appId ==>
      u == Reply(r, Returned(NO_SUCH_CHANNEL))
    ensures id.Some? && amount >= 0 && Live(r, id.value) && caller.Some? && caller.value == r.channels[id.value].appId
            && Remaining(r, caller.value) < amount ==>
      u == Reply(r, Returned(INSUFFICIENT_VALUE))
    ensures !Authorized(r, caller, id, amount) ==> u.registry == r
    ensures Authorized(r, caller, id, amount) && reply.Applied? ==>
      && u.value == Returned(Wrap(reply.actual))
      && u.registry.channels == r.channels
      && u.registry.clientCalls == r.clientCalls + [IncrementPayment(id.value, amount)]
      && Remaining(u.registry, caller.value) == Add(Remaining(r, caller.value), Neg(Wrap(reply.actual)))
    ensures Authorized(r, caller, id, amount) && reply.ValueOutOfRange? ==>
      u == Reply(Log(r, IncrementPayment(id.value, amount)), Returned(INSUFFICIENT_VALUE))
    ensures Authorized(r, caller, id, amount) && reply.IllegalState? ==>
      && u.value == Returned(CHANNEL_NOT_IN_SPENDABLE_STATE)
      && u.registry.channels == r.channels - {id.value}
      && u.registry.quota == r.quota
      && u.registry.clientCalls
         == r.clientCalls + [IncrementPayment(id.value, amount), Close(id.value), ConnectionClosed(id.value)]
    ensures forall app :: caller.Some? && app != caller.value ==> Remaining(u.registry, app) == Remaining(r, app)
  {
    if id.None? || amount < 0 then Reply(r, Returned(INVALID_REQUEST))
    else if !Live(r, id.value) then Reply(r, Returned(NO_SUCH_CHANNEL))
    else if caller.None? then Reply(r, Thrown)
    else
      var channel := r.channels[id.value];
      if caller.value != channel.appId then Reply(r, Returned(NO_SUCH_CHANNEL))
      else if Remaining(r, channel.appId) < amount then Reply(r, Returned(INSUFFICIENT_VALUE))
      else
        var asked := Log(r, IncrementPayment(id.value, amount));
        match reply
        case Applied(actual) =>
          var actualAmount := Wrap(actual);
          Reply(IncrementAndGet(asked, channel.appId, Neg(actualAmount)).registry, Returned(actualAmount))
        case ValueOutOfRange =>
          Reply(asked, Returned(INSUFFICIENT_VALUE))
        case IllegalState =>
          Reply(CloseConnection(asked, id.value, true), Returned(CHANNEL_NOT_IN_SPENDABLE_STATE))
  }

  /** The binder's `closeConnection(cookie)`: a null cookie is ignored; otherwise a close with a server close. */
  function CloseByApp(r: Registry, cookie: Option<Cookie>): (u: Registry)
    ensures cookie.None? ==> u == r
    ensures cookie.Some? ==> u.channels == r.channels - {cookie.value} && u.quota == r.quota
    ensures cookie.Some? && Live(r, cookie.value) ==>
      u.clientCalls == r.clientCalls + [Close(cookie.value), ConnectionClosed(cookie.value)]
    ensures cookie.Some? && !Live(r, cookie.value) ==> u.clientCalls == r.clientCalls
  {
    if cookie.None? then r else CloseConnection(r, cookie.value, true)
  }

  /** `disconnectFromWallet(cookie)`: a null cookie is ignored; otherwise a close without a server close. */
  function DisconnectFromWallet(r: Registry, cookie: Option<Cookie>): (u: Registry)
    ensures cookie.None? ==> u == r
    ensures cookie.Some? ==> u.channels == r.channels - {cookie.value} && u.quota == r.quota
    ensures cookie.Some? && Live(r, cookie.value) ==> u.clientCalls == r.clientCalls + [ConnectionClosed(cookie.value)]
    ensures cookie.Some? && !Live(r, cookie.value) ==> u.clientCalls == r.clientCalls
  {
    if cookie.None? then r else CloseConnection(r, cookie.value, false)
  }

  /**
   * `messageReceived(cookie, protobuf)`: hands the message to the channel's
   * client when the cookie names a live channel and the message parses
   * (`parseOk`); a parse failure, and a value-out-of-range failure inside the
   * client, are logged and dropped. Here nothing but the call log changes:
   * the client's callbacks, which can close the channel, are not modelled.
   */
  function MessageReceived(r: Registry, cookie: Option<Cookie>, protobuf: Message, parseOk: bool): (u: Registry)
    ensures u.channels == r.channels && u.quota == r.quota
    ensures cookie.Some? && Live(r, cookie.value) && parseOk ==>
      u.clientCalls == r.clientCalls + [ReceiveMessage(cookie.value, protobuf)]
    ensures !(cookie.Some? && Live(r, cookie.value) && parseOk) ==> u == r
  {
    if cookie.None? || !Live(r, cookie.value) || !parseOk then r
    else Log(r, ReceiveMessage(cookie.value, protobuf))
  }

  /** Closing a channel twice is the same as closing it once: the second close finds nothing. */
  lemma CloseTwice(r: Registry, id: Cookie, first: bool, second: bool)
    ensures CloseConnection(CloseConnection(r, id, first), id, second) == CloseConnection(r, id, first)
  {
    var once := CloseConnection(r, id, first);
    assert once.channels - {id} == once.channels;
  }

  /** Once closed, a channel cannot be paid on: it is no longer known. */
  lemma PayAfterClose(r: Registry, id: Cookie, generateServerClose: bool, caller: Option<AppId>,
                      amount: Int64, reply: Increment)
    requires amount >= 0
    ensures var closed := CloseConnection(r, id, generateServerClose);
            PayServer(closed, caller, Some(id), amount, reply) == Reply(closed, Returned(NO_SUCH_CHANNEL))
  {
  }

  /**
   * A channel just opened belongs to its caller: the caller can pay on it up
   * to its quota, and the payment is charged to it alone, while any other app
   * is told that there is no such channel.
   */
  lemma OpenedChannelBelongsToCaller(r: Registry, app: AppId, appLabel: Option<string>, listener: Listener,
                                     hostId: string, uuid: Cookie, amount: Int64, other: AppId)
    requires 0 <= amount <= Remaining(r, app) && other != app
    ensures var afterOpen := OpenConnection(r, Some(app), appLabel, Some(listener), Some(hostId), true, Built, uuid);
            && afterOpen.value == Opened(uuid)
            && Authorized(afterOpen.registry, Some(app), Some(uuid), amount)
            && PayServer(afterOpen.registry, Some(other), Some(uuid), amount, Applied(amount))
               == Reply(afterOpen.registry, Returned(NO_SUCH_CHANNEL))
            && Remaining(PayServer(afterOpen.registry, Some(app), Some(uuid), amount, Applied(amount)).registry, app)
               == Remaining(r, app) - amount
  {
    var afterOpen := OpenConnection(r, Some(app), appLabel, Some(listener), Some(hostId), true, Built, uuid);
    assert afterOpen.registry.channels[uuid].appId == app;
    assert Remaining(afterOpen.registry, app) == Remaining(r, app);
  }

  /**
   * The quota is checked and charged in one step: when the protocol applies
   * what is asked, two payments by one app (on any channels) that together
   * exceed its quota do not both go through, and the quota stays non-negative.
   */
  lemma {:induction false} NoOverdraft(r: Registry, app: AppId, first: Cookie, second: Cookie, a: Int64, b: Int64)
    requires 0 <= a && 0 <= b && Remaining(r, app) >= 0
    ensures var one := PayServer(r, Some(app), Some(first), a, Applied(a));
            var two := PayServer(one.registry, Some(app), Some(second), b, Applied(b));
            && Remaining(two.registry, app) >= 0
            && (a + b > Remaining(r, app) ==> !(one.value == Returned(a) && two.value == Returned(b)))
  {
    var one := PayServer(r, Some(app), Some(first), a, Applied(a));
    var two := PayServer(one.registry, Some(app), Some(second), b, Applied(b));
    if Authorized(r, Some(app), Some(first), a) {
      assert Remaining(one.registry, app) == Remaining(r, app) - a;
    } else {
      assert one.registry == r;
    }
    if Authorized(one.registry, Some(app), Some(second), b) {
      assert Remaining(two.registry, app) == Remaining(one.registry, app) - b;
    } else {
      assert two.registry == one.registry;
    }
  }

  /**
   * Honest protocol answers never overdraw: when the amount applied is between
   * 0 and the amount asked, the quota goes down by exactly that amount and
   * stays non-negative.
   */
  lemma ExactDeduction(r: Registry, caller: AppId, id: Cookie, amount: Int64, actual: int)
    requires Authorized(r, Some(caller), Some(id), amount) && 0 <= actual <= amount
    ensures var u := PayServer(r, Some(caller), Some(id), amount, Applied(actual));
            && u.value == Returned(actual)
            && Remaining(u.registry, caller) == Remaining(r, caller) - actual >= 0
  {
  }

  /** Two allowances add up to one allowance of their (long) sum, overflow included. */
  lemma {:induction false} AllowancesCompose(r: Registry, app: AppId, v: Int64, w: Int64)
    ensures Remaining(AllowConnection(AllowConnection(r, app, v), app, w), app)
            == Remaining(AllowConnection(r, app, Add(v, w)), app)
  {
    AddAssociative(Remaining(r, app), v, w);
  }
}
