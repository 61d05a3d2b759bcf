/**
 * The wallet's channel service as an object: the cookie-to-channel map and
 * the quota store are fields that its methods update in place, and the
 * binder that apps call (`LocalBinder`) works on the service it belongs to.
 * Each method is proved to do what the step of the same name in
 * `ChannelRegistry` does, so the properties proved there hold of it.
 */
module ChannelService {
  import opened Long
  import opened Framing
  import opened Wrappers
  import opened ChannelRegistry

  class ChannelService {
    /** `cookieToChannelMap`. */
    var channels: map<Cookie, Channel>
    /** `appToValueRemaining`. */
    var quota: map<AppId, Int64>
    /** The calls made on the channels' protocol clients, in order. */
    var clientCalls: seq<ClientCall>

    function State(): Registry
      reads this
    {
      Registry(channels, quota, clientCalls)
    }

    /** A service with no channels and no quotas. */
    constructor ()
      ensures State() == Registry(map[], map[], [])
    {
      channels, quota, clientCalls := map[], map[], [];
    }

    /** `getAppValueRemaining`: the app's quota, 0 when it has none. */
    method GetAppValueRemaining(app: AppId) returns (v: Int64)
      ensures app in quota ==> v == quota[app]
      ensures app !in quota ==> v == 0
      ensures v == Remaining(State(), app)
    {
      if app in quota {
        v := quota[app];
      } else {
        v := 0;
      }
    }

    /** `incrementAndGet`: adds `value` to the app's quota and returns the new quota. */
    method IncrementAndGet(app: AppId, value: Int64) returns (total: Int64)
      modifies this`quota
      ensures Reply(State(), total) == ChannelRegistry.IncrementAndGet(old(State()), app, value)
    {
      var initial := GetAppValueRemaining(app);
      total := Add(initial, value);
      quota := quota[app := total];
    }

    /** `closeConnection(id, generateServerClose)`: removes the record and winds down its client. */
    method CloseConnection(id: Cookie, generateServerClose: bool)
      modifies this`channels, this`clientCalls
      ensures State() == ChannelRegistry.CloseConnection(old(State()), id, generateServerClose)
    {
      var channel: Option<Channel> := if id in channels then Some(channels[id]) else None;
      channels := channels - {id};
      if channel.None? || channel.value.client.None? {
        return;
      }
      if generateServerClose {
        clientCalls := clientCalls + [Close(id)];
      }
      clientCalls := clientCalls + [ConnectionClosed(id)];
    }

    /** `allowConnection`: the permission activity grants the app `maxValue` more. */
    method AllowConnection(app: AppId, maxValue: Int64)
      modifies this`quota
      ensures State() == ChannelRegistry.AllowConnection(old(State()), app, maxValue)
    {
      var _ := IncrementAndGet(app, maxValue);
    }
  }

  /** The binder that apps call; every call takes the service's lock. */
  class LocalBinder {
    const service: ChannelService

    constructor (service: ChannelService)
      ensures this.service == service
    {
      this.service := service;
    }

    /** `prepare`: whether the caller must first ask the user for `minValue`. */
    method Prepare(caller: AppId, minValue: Int64) returns (intent: Option<Intent>)
      ensures intent == ChannelRegistry.Prepare(service.State(), caller, minValue)
    {
      if minValue <= 0 || minValue > MAX_MONEY {
        return None;
      }
      var valueRemaining := service.GetAppValueRemaining(caller);
      if valueRemaining >= minValue {
        return None;
      }
      return Some(ChannelRequest(minValue));
    }

    /**
     * `openConnection`: registers a new channel under the cookie `uuid` for the
     * calling app, with a protocol client allowed to lock up the app's quota.
     */
    method OpenConnection(caller: Option<AppId>, appLabel: Option<string>, listener: Option<Listener>,
                          hostId: Option<string>, linked: bool, build: Build, uuid: Cookie)
      returns (outcome: OpenOutcome)
      modifies service`channels, service`clientCalls
      ensures Reply(service.State(), outcome)
              == ChannelRegistry.OpenConnection(old(service.State()), caller, appLabel, listener, hostId, linked, build, uuid)
    {
      if listener.None? || hostId.None? {
        return Refused;
      }
      if caller.None? {
        return Failed;
      }
      var appId := caller.value;
      var appName := AppName(appId, appLabel);
      var channel := Channel(listener.value, hostId.value, appId, appName, None);
      if !linked {
        return Failed;
      }
      var valueRemaining := service.GetAppValueRemaining(appId);
      service.channels := service.channels[uuid := channel];
      if build.ConstructionFailed? {
        return Failed;
      }
      service.channels := service.channels[uuid := channel.(client := Some(Client(valueRemaining)))];
      service.clientCalls := service.clientCalls + [ConnectionOpen(uuid)];
      if build.ConnectionOpenFailed? {
        return Failed;
      }
      return Opened(uuid);
    }

    /**
     * `payServer`: asks the channel's protocol client to pay `amount` and
     * charges the app's quota with what it applied, after the checks that
     * `ChannelRegistry.PayServer` lists; `reply` is the client's answer.
     */
    method PayServer(caller: Option<AppId>, id: Option<Cookie>, amount: Int64, reply: Increment)
      returns (outcome: PayOutcome)
      modifies service
      ensures Reply(service.State(), outcome)
              == ChannelRegistry.PayServer(old(service.State()), caller, id, amount, reply)
    {
      if id.None? || amount < 0 {
        return Returned(INVALID_REQUEST);
      }
      var cookie := id.value;
      if cookie !in service.channels || service.channels[cookie].client.None? {
        return Returned(NO_SUCH_CHANNEL);
      }
      var channel := service.channels[cookie];
      if caller.None? {
        return Thrown;
      }
      if caller.value != channel.appId {
        return Returned(NO_SUCH_CHANNEL);
      }
      var valueRemaining := service.GetAppValueRemaining(channel.appId);
      if valueRemaining < amount {
        return Returned(INSUFFICIENT_VALUE);
      }
      service.clientCalls := service.clientCalls + [IncrementPayment(cookie, amount)];
      match reply
      case Applied(actual) =>
        var actualAmount := Wrap(actual);
        var _ := service.IncrementAndGet(channel.appId, Neg(actualAmount));
        return Returned(actualAmount);
      case ValueOutOfRange =>
        return Returned(INSUFFICIENT_VALUE);
      case IllegalState =>
        CloseConnection(id);
        return Returned(CHANNEL_NOT_IN_SPENDABLE_STATE);
    }

    /** `closeConnection(cookie)`: the app settles; the server is asked to close the channel too. */
    method CloseConnection(cookie: Option<Cookie>)
      modifies service`channels, service`clientCalls
      ensures service.State() == CloseByApp(old(service.State()), cookie)
    {
      if cookie.None? {
        return;
      }
      service.CloseConnection(cookie.value, true);
    }

    /** `disconnectFromWallet(cookie)`: the app goes away; the channel is closed locally only. */
    method DisconnectFromWallet(cookie: Option<Cookie>)
      modifies service`channels, service`clientCalls
      ensures service.State() == ChannelRegistry.DisconnectFromWallet(old(service.State()), cookie)
    {
      if cookie.None? {
        return;
      }
      service.CloseConnection(cookie.value, false);
    }

    /** `messageReceived(cookie, protobuf)`: passes a message from the server to the channel's client. */
    method MessageReceived(cookie: Option<Cookie>, protobuf: Message, parseOk: bool)
      modifies service`clientCalls
      ensures service.State() == ChannelRegistry.MessageReceived(old(service.State()), cookie, protobuf, parseOk)
    {
      if cookie.None? {
        return;
      }
      if cookie.value !in service.channels || service.channels[cookie.value].client.None? {
        return;
      }
      if !parseOk {
        return;
      }
      service.clientCalls := service.clientCalls + [ReceiveMessage(cookie.value, protobuf)];
    }
  }
}
