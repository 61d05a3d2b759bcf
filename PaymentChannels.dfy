/**
 * The client library an app uses to reach the wallet: asking for permission
 * to spend, the reasons a channel can close, and the handle on one channel.
 *
 * The wallet is reached over a binder; its answers are inputs here (the
 * remaining balance, and `prepare` as a function from the amount asked for to
 * the wallet's reply). The lemmas at the end plug in the wallet's own
 * `ChannelRegistry.Prepare`.
 */
module PaymentChannels {
  import opened Long
  import opened Framing
  import opened Wrappers
  import ChannelRegistry

  // ---------------------------------------------------------------------------
  // Close reasons

  /** `CloseReason`, in declaration order. */
  datatype CloseReason =
    | NoAcceptableVersion
    | TimeWindowTooLarge
    | ServerRequestedTooMuchValue
    | ChannelExhausted
    | ClientRequestedClose
    | ServerRequestedClose
    | RemoteSentError
    | RemoteSentInvalidMessage
    | ConnectionClosed
    | Unknown

  /** `CloseReason.values()`. */
  const CloseReasons: seq<CloseReason> := [
    NoAcceptableVersion, TimeWindowTooLarge, ServerRequestedTooMuchValue, ChannelExhausted,
    ClientRequestedClose, ServerRequestedClose, RemoteSentError, RemoteSentInvalidMessage,
    ConnectionClosed, Unknown]

  /** `ordinal()`: a reason's position among the values. */
  function Ordinal(c: CloseReason): (n: nat)
    ensures n < |CloseReasons| && CloseReasons[n] == c
  {
    match c
    case NoAcceptableVersion => 0
    case TimeWindowTooLarge => 1
    case ServerRequestedTooMuchValue => 2
    case ChannelExhausted => 3
    case ClientRequestedClose => 4
    case ServerRequestedClose => 5
    case RemoteSentError => 6
    case RemoteSentInvalidMessage => 7
    case ConnectionClosed => 8
    case Unknown => 9
  }

  /**
   * The `closeConnection(int)` callback's decoding: the first value whose
   * ordinal is `reason`, and `Unknown` when there is none.
   */
  method DecodeCloseReason(reason: int) returns (r: CloseReason)
    ensures 0 <= reason < |CloseReasons| ==> Ordinal(r) == reason
    ensures !(0 <= reason < |CloseReasons|) ==> r == Unknown
  {
    for i := 0 to |CloseReasons|
      invariant !(0 <= reason < i)
    {
      if Ordinal(CloseReasons[i]) == reason {
        return CloseReasons[i];
      }
    }
    return Unknown;
  }

  // ---------------------------------------------------------------------------
  // Authorisation

  /** What the app's `AuthorizeCallback` is told, or the exception it gets instead. */
  datatype Authorization = Success(balanceRemaining: Int64) | StartActivity(intent: ChannelRegistry.Intent) | IllegalArgument

  /** The amount passed to `prepare`, if it was called, and the outcome. */
  datatype AuthorizeRun = AuthorizeRun(prepared: Option<Int64>, outcome: Authorization)

  /**
   * `authorizeAtLeast`: asks the wallet to `prepare` for `minValue`; an intent
   * comes back to be started, and no intent means success with the balance.
   */
  function AuthorizeAtLeast(minValue: Int64, prepare: Int64 -> Option<ChannelRegistry.Intent>, balance: Int64): (a: Authorization)
    ensures a.StartActivity? <==> prepare(minValue).Some?
    ensures a.StartActivity? ==> a.intent == prepare(minValue).value
    ensures !a.StartActivity? ==> a == Success(balance)
  {
    match prepare(minValue)
    case Some(intent) => StartActivity(intent)
    case None => Success(balance)
  }

  /**
   * `authorizeInChunks` as written: refuses non-positive arguments and a
   * smallest payment that is not below the chunk; succeeds at once when the
   * balance covers the smallest payment; otherwise asks the wallet to
   * `prepare` for `chunkSize - balance` (a long subtraction).
   */
  function AuthorizeInChunks(chunkSize: Int64, smallestPayment: Int64, prepare: Int64 -> Option<ChannelRegistry.Intent>,
                             balance: Int64): (a: AuthorizeRun)
    ensures a.outcome.IllegalArgument? <==> smallestPayment <= 0 || chunkSize <= 0 || smallestPayment >= chunkSize
    ensures a.outcome.IllegalArgument? ==> a.prepared.None?
    ensures 0 < smallestPayment < chunkSize && balance >= smallestPayment ==> a == AuthorizeRun(None, Success(balance))
    ensures 0 < smallestPayment < chunkSize && balance < smallestPayment ==>
      && a.prepared == Some(Add(chunkSize, Neg(balance)))
      && (a.outcome.StartActivity? <==> prepare(a.prepared.value).Some?)
      && (a.outcome.StartActivity? ==> a.outcome.intent == prepare(a.prepared.value).value)
      && (!a.outcome.StartActivity? ==> a.outcome == Success(balance))
    ensures 0 < smallestPayment < chunkSize && balance < smallestPayment && chunkSize - balance <= MAX ==>
      a.prepared.value > 0 && balance + a.prepared.value == chunkSize
  {
    if smallestPayment <= 0 || chunkSize <= 0 then AuthorizeRun(None, IllegalArgument)
    else if smallestPayment >= chunkSize then AuthorizeRun(None, IllegalArgument)
    else if balance >= smallestPayment then AuthorizeRun(None, Success(balance))
    else
      var request := Wrap(chunkSize as int - balance);
      match prepare(request)
      case Some(intent) => AuthorizeRun(Some(request), StartActivity(intent))
      case None => AuthorizeRun(Some(request), Success(balance))
  }

  // ---------------------------------------------------------------------------
  // The channel handle

  /** A call the handle makes on the wallet's binder. */
  datatype RpcCall =
    | OpenConnection(hostID: string)
    | PayServer(amount: Int64)
    | MessageReceived(protobuf: Message)
    | DisconnectFromWallet
    | CloseConnection

  /** An operation on the handle; `reply` is what the wallet's `payServer` returns. */
  datatype Op = Start | SendMoney(amount: Int64, reply: Int64) | Receive(protobuf: Message) | Suspend | Settle

  /**
   * What a handle operation does: the call it makes, or the exception it
   * throws when a guard fails. `start` throws its `IllegalStateException`
   * directly; the other operations catch it and throw a `RuntimeException`
   * wrapping it (`WrappedIllegalState`).
   */
  datatype Outcome = Called(call: RpcCall, result: Option<Int64>) | IllegalState | WrappedIllegalState

  /** A handle's state: whether it holds a cookie (`start` was called), and whether settle was requested. */
  datatype HandleState = HandleState(started: bool, settling: bool)

  /** A settle request keeps the cookie, so a settling handle is always started. */
  predicate Consistent(s: HandleState) {
    s.settling ==> s.started
  }

  datatype Transition = Transition(next: HandleState, outcome: Outcome)

  /**
   * One operation on a handle: `start` needs no cookie yet; `sendMoney`,
   * `suspend` and `settle` need a cookie and no settle request
   * (`checkStarted`, `checkNotSettling`); `messageReceived` needs only the
   * cookie. `suspend` drops the cookie; `settle` marks the handle settling
   * and keeps the cookie. A failed guard changes nothing.
   */
  function Step(s: HandleState, hostID: string, op: Op): (t: Transition)
    ensures !t.outcome.Called? <==>
      (if op.Start? then s.started else !s.started || (s.settling && !op.Receive?))
    ensures !t.outcome.Called? ==> t.next == s && (t.outcome.IllegalState? <==> op.Start?)
    ensures t.outcome.Called? && op.Start? ==>
      t == Transition(s.(started := true), Called(OpenConnection(hostID), None))
    ensures t.outcome.Called? && op.SendMoney? ==>
      t == Transition(s, Called(PayServer(op.amount), Some(op.reply)))
    ensures t.outcome.Called? && op.Receive? ==>
      t == Transition(s, Called(MessageReceived(op.protobuf), None))
    ensures t.outcome.Called? && op.Suspend? ==>
      t == Transition(s.(started := false), Called(DisconnectFromWallet, None))
    ensures t.outcome.Called? && op.Settle? ==>
      t == Transition(s.(settling := true), Called(CloseConnection, None))
    ensures Consistent(s) ==> Consistent(t.next)
  {
    match op
    case Start =>
      if s.started then Transition(s, IllegalState)
      else Transition(s.(started := true), Called(OpenConnection(hostID), None))
    case SendMoney(amount, reply) =>
      if !s.started || s.settling then Transition(s, WrappedIllegalState)
      else Transition(s, Called(PayServer(amount), Some(reply)))
    case Receive(protobuf) =>
      if !s.started then Transition(s, WrappedIllegalState)
      else Transition(s, Called(MessageReceived(protobuf), None))
    case Suspend =>
      if !s.started || s.settling then Transition(s, WrappedIllegalState)
      else Transition(s.(started := false), Called(DisconnectFromWallet, None))
    case Settle =>
      if !s.started || s.settling then Transition(s, WrappedIllegalState)
      else Transition(s.(settling := true), Called(CloseConnection, None))
  }

  /** The state a handle is in after a sequence of operations. */
  function After(s: HandleState, hostID: string, ops: seq<Op>): HandleState
    decreases |ops|
  {
    if ops == [] then s else After(Step(s, hostID, ops[0]).next, hostID, ops[1..])
  }

  /** Every handle, whatever it is asked to do, keeps a cookie while it is settling. */
  lemma {:induction false} AlwaysConsistent(s: HandleState, hostID: string, ops: seq<Op>)
    requires Consistent(s)
    ensures Consistent(After(s, hostID, ops))
    decreases |ops|
  {
    if ops != [] {
      AlwaysConsistent(Step(s, hostID, ops[0]).next, hostID, ops[1..]);
    }
  }

  /**
   * Settling is final: once settle was requested the handle stays settling
   * for good, and only `messageReceived` still reaches the wallet, passing
   * its message on.
   */
  lemma {:induction false} SettlingIsFinal(s: HandleState, hostID: string, ops: seq<Op>)
    requires s.started && s.settling
    ensures After(s, hostID, ops) == s
    ensures forall i :: 0 <= i < |ops| ==> (Step(s, hostID, ops[i]).outcome.Called? <==> ops[i].Receive?)
    ensures forall i :: 0 <= i < |ops| && ops[i].Receive? ==>
      Step(s, hostID, ops[i]).outcome == Called(MessageReceived(ops[i].protobuf), None)
    decreases |ops|
  {
    if ops != [] {
      SettlingIsFinal(s, hostID, ops[1..]);
      assert forall i :: 1 <= i < |ops| ==> ops[i] == ops[1..][i - 1];
    }
  }

  /** A suspended handle can be started again, which opens a connection for the same host. */
  lemma SuspendThenStart(s: HandleState, hostID: string)
    requires s.started && !s.settling
    ensures var suspended := Step(s, hostID, Suspend);
            && suspended.outcome == Called(DisconnectFromWallet, None)
            && Step(suspended.next, hostID, Start) == Transition(s, Called(OpenConnection(hostID), None))
  {
  }

  /** `Channel`: the app's handle on one payment channel to `hostID`. */
  class Channel {
    const hostID: string
    /** `cookie != null`. */
    var started: bool
    var settling: bool
    /** The calls made on the wallet's binder, in order. */
    var rpcCalls: seq<RpcCall>

    function State(): HandleState
      reads this
    {
      HandleState(started, settling)
    }

    constructor (hostID: string)
      ensures this.hostID == hostID && State() == HandleState(false, false) && rpcCalls == []
    {
      this.hostID := hostID;
      started, settling, rpcCalls := false, false, [];
    }

    /** `checkStarted`: throws unless the handle holds a cookie. */
    method CheckStarted() returns (ok: bool)
      ensures ok == started
    {
      ok := started;
    }

    /** `checkNotSettling`: throws once settle was requested. */
    method CheckNotSettling() returns (ok: bool)
      ensures ok == !settling
    {
      ok := !settling;
    }

    /** Appends the call an operation made to the log. */
    method Record(outcome: Outcome)
      modifies this`rpcCalls
      ensures rpcCalls == old(rpcCalls) + (if outcome.Called? then [outcome.call] else [])
    {
      if outcome.Called? {
        rpcCalls := rpcCalls + [outcome.call];
      }
    }

    /** `start`: opens the connection for `hostID` (on another thread; the cookie it yields is awaited by later calls). */
    method Start() returns (outcome: Outcome)
      modifies this`started, this`rpcCalls
      ensures Transition(State(), outcome) == Step(old(State()), hostID, Op.Start)
      ensures rpcCalls == old(rpcCalls) + (if outcome.Called? then [outcome.call] else [])
    {
      if started {
        return IllegalState;
      }
      started := true;
      outcome := Called(RpcCall.OpenConnection(hostID), None);
      Record(outcome);
    }

    /** `sendMoney`: asks the wallet to pay `amount`; `reply` is what `payServer` answers. */
    method SendMoney(amount: Int64, reply: Int64) returns (outcome: Outcome)
      modifies this`rpcCalls
      ensures Transition(State(), outcome) == Step(old(State()), hostID, Op.SendMoney(amount, reply))
      ensures rpcCalls == old(rpcCalls) + (if outcome.Called? then [outcome.call] else [])
    {
      var ok := CheckStarted();
      if !ok {
        return WrappedIllegalState;
      }
      ok := CheckNotSettling();
      if !ok {
        return WrappedIllegalState;
      }
      outcome := Called(RpcCall.PayServer(amount), Some(reply));
      Record(outcome);
    }

    /** `messageReceived`: passes a message from the server to the wallet. */
    method MessageReceived(protobuf: Message) returns (outcome: Outcome)
      modifies this`rpcCalls
      ensures Transition(State(), outcome) == Step(old(State()), hostID, Receive(protobuf))
      ensures rpcCalls == old(rpcCalls) + (if outcome.Called? then [outcome.call] else [])
    {
      var ok := CheckStarted();
      if !ok {
        return WrappedIllegalState;
      }
      outcome := Called(RpcCall.MessageReceived(protobuf), None);
      Record(outcome);
    }

    /** `suspend`: disconnects from the wallet without settling, and forgets the cookie. */
    method Suspend() returns (outcome: Outcome)
      modifies this`started, this`rpcCalls
      ensures Transition(State(), outcome) == Step(old(State()), hostID, Op.Suspend)
      ensures rpcCalls == old(rpcCalls) + (if outcome.Called? then [outcome.call] else [])
    {
      var ok := CheckStarted();
      if !ok {
        return WrappedIllegalState;
      }
      ok := CheckNotSettling();
      if !ok {
        return WrappedIllegalState;
      }
      outcome := Called(RpcCall.DisconnectFromWallet, None);
      Record(outcome);
      started := false;
    }

    /** `settle`: marks the handle settling and asks the wallet to close the channel. */
    method Settle() returns (outcome: Outcome)
      modifies this`settling, this`rpcCalls
      ensures Transition(State(), outcome) == Step(old(State()), hostID, Op.Settle)
      ensures rpcCalls == old(rpcCalls) + (if outcome.Called? then [outcome.call] else [])
    {
      var ok := CheckStarted();
      if !ok {
        return WrappedIllegalState;
      }
      ok := CheckNotSettling();
      if !ok {
        return WrappedIllegalState;
      }
      settling := true;
      outcome := Called(RpcCall.CloseConnection, None);
      Record(outcome);
    }
  }

  // ---------------------------------------------------------------------------
  // Against the wallet

  /**
   * Against the wallet's `prepare`, with the balance being the caller's quota:
   * `authorizeAtLeast` succeeds exactly when the wallet finds the request out
   * of range or already covered, and otherwise hands over the wallet's
   * request for `minValue`.
   */
  lemma AuthorizeAtLeastAgainstWallet(w: ChannelRegistry.Registry, app: ChannelRegistry.AppId, minValue: Int64)
    ensures var a := AuthorizeAtLeast(minValue, (v: Int64) => ChannelRegistry.Prepare(w, app, v), ChannelRegistry.Remaining(w, app));
            && (a.Success? <==> minValue <= 0 || minValue > ChannelRegistry.MAX_MONEY || ChannelRegistry.Remaining(w, app) >= minValue)
            && (a.Success? ==> a.balanceRemaining == ChannelRegistry.Remaining(w, app))
            && (!a.Success? ==> a == StartActivity(ChannelRegistry.ChannelRequest(minValue)))
  {
  }

  /**
   * Against the wallet, with the balance being the caller's quota: below the
   * smallest payment, `authorizeInChunks` as written succeeds without asking
   * the user whenever the wallet finds `chunkSize - balance` already covered,
   * that is whenever the balance is at least half the chunk.
   */
  lemma AuthorizeInChunksAgainstWallet(w: ChannelRegistry.Registry, app: ChannelRegistry.AppId,
                                       chunkSize: Int64, smallestPayment: Int64)
    requires 0 < smallestPayment < chunkSize <= ChannelRegistry.MAX_MONEY
    requires 0 <= ChannelRegistry.Remaining(w, app) < smallestPayment
    ensures var balance := ChannelRegistry.Remaining(w, app);
            var a := AuthorizeInChunks(chunkSize, smallestPayment,
                                       (v: Int64) => ChannelRegistry.Prepare(w, app, v), balance);
            && a.prepared == Some(chunkSize - balance)
            && (a.outcome.Success? <==> 2 * balance >= chunkSize)
  {
  }

  /** Concretely: a quota of 50, chunks of 100 and a smallest payment of 60 give success with 50. */
  lemma AuthorizeInChunksShortfall()
    ensures var w := ChannelRegistry.Registry(map[], map["app" := 50], []);
            var a := AuthorizeInChunks(100, 60, (v: Int64) => ChannelRegistry.Prepare(w, "app", v), 50);
            && a.outcome == Success(50)
            && a.outcome.balanceRemaining < 60
  {
    var w := ChannelRegistry.Registry(map[], map["app" := 50], []);
    assert ChannelRegistry.Remaining(w, "app") == 50;
  }

  /**
   * `authorizeInChunks` asking the wallet for the amount the app should hold
   * after the top-up, `chunkSize`, which is what the wallet's `prepare` and its
   * permission activity take `minValue` to be (the activity offers the
   * difference from the remaining quota).
   */
  function AuthorizeInChunksToTarget(chunkSize: Int64, smallestPayment: Int64,
                                     prepare: Int64 -> Option<ChannelRegistry.Intent>, balance: Int64): (a: AuthorizeRun)
    ensures a.outcome.IllegalArgument? <==> smallestPayment <= 0 || chunkSize <= 0 || smallestPayment >= chunkSize
    ensures a.outcome.IllegalArgument? ==> a.prepared.None?
    ensures 0 < smallestPayment < chunkSize && balance >= smallestPayment ==> a == AuthorizeRun(None, Success(balance))
    ensures 0 < smallestPayment < chunkSize && balance < smallestPayment ==>
      && a.prepared == Some(chunkSize)
      && (a.outcome.StartActivity? <==> prepare(chunkSize).Some?)
      && (a.outcome.StartActivity? ==> a.outcome.intent == prepare(chunkSize).value)
      && (!a.outcome.StartActivity? ==> a.outcome == Success(balance))
  {
    if smallestPayment <= 0 || chunkSize <= 0 then AuthorizeRun(None, IllegalArgument)
    else if smallestPayment >= chunkSize then AuthorizeRun(None, IllegalArgument)
    else if balance >= smallestPayment then AuthorizeRun(None, Success(balance))
    else
      match prepare(chunkSize)
      case Some(intent) => AuthorizeRun(Some(chunkSize), StartActivity(intent))
      case None => AuthorizeRun(Some(chunkSize), Success(balance))
  }

  /**
   * Against the wallet, the corrected request keeps the promise: success
   * only with a balance that covers the smallest payment, and below it the
   * user is always asked to bring the quota up to `chunkSize`.
   */
  lemma AuthorizeInChunksToTargetAgainstWallet(w: ChannelRegistry.Registry, app: ChannelRegistry.AppId,
                                               chunkSize: Int64, smallestPayment: Int64)
    requires 0 < smallestPayment < chunkSize <= ChannelRegistry.MAX_MONEY
    ensures var balance := ChannelRegistry.Remaining(w, app);
            var a := AuthorizeInChunksToTarget(chunkSize, smallestPayment,
                                               (v: Int64) => ChannelRegistry.Prepare(w, app, v), balance);
            && (a.outcome.Success? ==> a.outcome.balanceRemaining >= smallestPayment)
            && (balance < smallestPayment ==> a.outcome == StartActivity(ChannelRegistry.ChannelRequest(chunkSize)))
  {
  }
}
