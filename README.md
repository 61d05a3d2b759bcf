# Payment channels between Android apps and the Bitcoin wallet

This project models the payment-channel part of the Bitcoin Wallet for
Android, and proves properties of the model.

- **The wallet's channel service.** Apps bind to `ChannelService`. The user
  grants each app a spending quota. The app asks the service to open a
  payment channel to a server and receives a cookie for it. It then asks the
  service to pay amounts on that channel, and each payment is charged
  against the app's quota.
- **The client library.** Apps use `PaymentChannels` to ask for permission to
  spend (`authorizeAtLeast`, `authorizeInChunks`). They use its `Channel`
  handle to start, pay on, suspend and settle a channel.
- **The transport.** `AbstractTCPPaymentChannel` and the sample app's
  `SampleProtobufConn` carry the protocol messages over TCP. Each message is
  framed by a 4-byte big-endian length and is at most `Short.MAX_VALUE`
  bytes long.

Modules:

- `Long`: Java `long` values. `Int64` is the range; `Wrap`, `Add` and
  `Neg` wrap around as two's-complement arithmetic does.
- `Framing`: the length-prefixed framing and one step of the read loop. It
  also has the decoding of a whole finite stream and the round-trip lemma.
- `SampleConn`: `SampleProtobufConn` as a class. Its output stream is a
  byte sequence and its read loop is a method.
- `TcpLink`: `AbstractTCPPaymentChannel` as a class. It keeps a queue of
  unsent messages, a socket state, the give-up flag and `vClosing`. It also
  logs the calls it makes on its channel manager.
- `ChannelRegistry`: the channel service as pure functions from one state to
  the next. The state is the cookie-to-channel map, the per-app quota and a
  log of calls on the protocol clients. Every binder call holds the
  service's lock, so each call is one step.
- `ChannelService`: `ChannelService` and its `LocalBinder` as classes whose
  fields the methods update. Each method is proved equal to the matching
  `ChannelRegistry` step.
- `PaymentChannels`: the close reasons and the authorisation helpers. It
  also has the `Channel` handle as a class together with its state machine
  `Step`, and lemmas that check the helpers against the wallet's `prepare`.

What a model cannot see is passed in as a parameter:

- whether a connect or write succeeds (`connectOk`, `accepted`, `writeOk`);
- the bytes the server sends (`input`);
- the protocol client's answer to a payment (`Increment`);
- the caller's package name (`caller`) and the app's label;
- the random UUID;
- whether `linkToDeath` succeeds (`linked`), and how building the protocol
  client ends (`build`);
- whether an incoming message parses (`parseOk`).

Two behaviours of the code that the model keeps as written:

- **A failed reconnect is final.** A failed connect inside `sendProtobuf`
  sets `gaveupConnecting` and closes the channel. From then on `openSocket`
  returns at once, so later messages only pile up in the queue and no
  failure is reported. The link does not try to reconnect again.
- **`prepare` takes a total.** Both `prepare` and the permission activity
  treat `minValue` as the total the app should hold, not as an increment
  (see the finding below).

## Model

| member | source | states |
|---|---|---|
| Long.Wrap | wallet/src/de/schildbach/wallet/service/ChannelService.java:304-308 | the long a mathematical integer truncates to: it is congruent modulo 2^64 and equal when in range (`BigInteger.longValue()`) |
| Long.Add | wallet/src/de/schildbach/wallet/service/ChannelService.java:90-95 | Java long `+`: exact in range, otherwise off by exactly 2^64 in the direction of the overflow |
| Long.Neg | wallet/src/de/schildbach/wallet/service/ChannelService.java:308 | Java unary `-` on a long: `-a`, except that `Long.MIN_VALUE` negates to itself |
| Long.AddAssociative | wallet/src/de/schildbach/wallet/service/ChannelService.java:90-95 | long addition is associative even when it overflows |
| Framing.WriteInt | sample-integration-android/src/de/schildbach/wallet/integration/sample/SampleProtobufConn.java:60 | `writeInt` yields four bytes, and the first byte's top bit is set exactly for negative ints |
| Framing.ReadInt | sample-integration-android/src/de/schildbach/wallet/integration/sample/SampleProtobufConn.java:36 | `readInt` of four bytes is a 32-bit int, negative exactly when the first byte's top bit is set |
| Framing.ReadWriteInt | sample-integration-android/src/de/schildbach/wallet/integration/sample/SampleProtobufConn.java:36-60 | reading back a written int gives the same int |
| Framing.WriteReadInt | sample-integration-android/src/de/schildbach/wallet/integration/sample/SampleProtobufConn.java:36-60 | writing the int read from four bytes gives back those bytes |
| Framing.Encode | sample-integration-android/src/de/schildbach/wallet/integration/sample/SampleProtobufConn.java:57-62 | a frame is 4 + length bytes: a length header that reads back as the message's length, then the message |
| Framing.ReadFrame | sample-integration-android/src/de/schildbach/wallet/integration/sample/SampleProtobufConn.java:36-41 | one read step: end of stream exactly when fewer than 4 bytes remain; a bad length is negative or over `Short.MAX_VALUE`; a truncated payload is shorter than a valid declared length; otherwise a message within the cap and the rest of the stream |
| Framing.FrameIsEncoding | integration-android/src/de/schildbach/wallet/integration/android/AbstractTCPPaymentChannel.java:83-89 | every frame the read loop accepts is exactly the encoding of the message it yields, followed by the rest |
| Framing.DecodeAll | sample-integration-android/src/de/schildbach/wallet/integration/sample/SampleProtobufConn.java:35-43 | every message the read loop delivers from a stream is within the length cap |
| Framing.DecodeAllIsPrefix | sample-integration-android/src/de/schildbach/wallet/integration/sample/SampleProtobufConn.java:35-43 | the delivered messages' frames are exactly a prefix of the stream, and the stream after them fails a read step for the reported reason |
| Framing.DecodeEncodeAll | integration-android/src/de/schildbach/wallet/integration/android/AbstractTCPPaymentChannel.java:64-89 | the frames of several messages, followed by any tail, decode to those messages followed by what the tail decodes to |
| Framing.RoundTrip | sample-integration-android/src/de/schildbach/wallet/integration/sample/SampleProtobufConn.java:35-62 | the frames written for a sequence of messages are read back as exactly those messages, ending at end of stream |
| SampleConn.SampleProtobufConn.constructor | sample-integration-android/src/de/schildbach/wallet/integration/sample/SampleProtobufConn.java:25-30 | a freshly connected connection: nothing written, output open, not closing |
| SampleConn.SampleProtobufConn.SendMessage | sample-integration-android/src/de/schildbach/wallet/integration/sample/SampleProtobufConn.java:57-62 | an oversized message is refused and nothing is written; otherwise its frame is appended, or on an I/O failure nothing is; the output always decodes to exactly the messages sent |
| SampleConn.SampleProtobufConn.Close | sample-integration-android/src/de/schildbach/wallet/integration/sample/SampleProtobufConn.java:64-71 | sets `vClosing` and closes the output stream |
| SampleConn.SampleProtobufConn.ReadLoop | sample-integration-android/src/de/schildbach/wallet/integration/sample/SampleProtobufConn.java:32-50 | the callbacks are one `onMessageReceived` per frame of the stream in order, then `onSocketException` with the stop reason only when not closing |
| TcpLink.AbstractTCPPaymentChannel.constructor | integration-android/src/de/schildbach/wallet/integration/android/AbstractTCPPaymentChannel.java:110-113 | a link with no manager, no socket, an empty queue, not given up and not closing |
| TcpLink.AbstractTCPPaymentChannel.CloseSocket | integration-android/src/de/schildbach/wallet/integration/android/AbstractTCPPaymentChannel.java:36-53 | sets `vClosing` and drops the socket; a running read thread finishes with one `disconnectFromWallet(false)`; no message is lost |
| TcpLink.AbstractTCPPaymentChannel.OpenSocket | integration-android/src/de/schildbach/wallet/integration/android/AbstractTCPPaymentChannel.java:55-105 | nothing changes once the link gave up. Otherwise the old socket is closed and a failed connect leaves the queue intact. After a connect, the first k queued messages are written in order and the rest stay queued; a read thread starts only when the whole queue went out |
| TcpLink.AbstractTCPPaymentChannel.Connect | integration-android/src/de/schildbach/wallet/integration/android/AbstractTCPPaymentChannel.java:118-121 | sets the manager, then does exactly what `openSocket` does |
| TcpLink.AbstractTCPPaymentChannel.SendProtobuf | integration-android/src/de/schildbach/wallet/integration/android/AbstractTCPPaymentChannel.java:123-143 | fails its `checkState` exactly for an oversized message or no manager, changing nothing. A write on a working socket sends the message. Otherwise the message is queued behind the others and the socket reopened as `openSocket` does: the old reader is stopped, the queue is replayed in order, and a reader starts only when the whole queue went out. A failed connect gives up and closes the channel. Written followed by queued is always exactly what was handed over |
| TcpLink.AbstractTCPPaymentChannel.ChannelClosedOrNotOpened | integration-android/src/de/schildbach/wallet/integration/android/AbstractTCPPaymentChannel.java:145-147 | closes the socket as `closeSocket` does |
| TcpLink.AbstractTCPPaymentChannel.ChannelInterrupted | integration-android/src/de/schildbach/wallet/integration/android/AbstractTCPPaymentChannel.java:149-151 | closes the socket as `closeSocket` does |
| TcpLink.AbstractTCPPaymentChannel.ReadLoop | integration-android/src/de/schildbach/wallet/integration/android/AbstractTCPPaymentChannel.java:79-101 | the manager gets one `messageReceived` per frame of the stream in order, then exactly one `disconnectFromWallet(false)`, and the thread ends |
| ChannelRegistry.Remaining | wallet/src/de/schildbach/wallet/service/ChannelService.java:97-104 | an app's quota, 0 when it has none |
| ChannelRegistry.IncrementAndGet | wallet/src/de/schildbach/wallet/service/ChannelService.java:90-95 | the stored and returned quota are both the old quota plus `value` (long addition); no other app's quota changes, and no channel changes |
| ChannelRegistry.AllowConnection | wallet/src/de/schildbach/wallet/service/ChannelService.java:181-188 | the app's quota becomes its long sum with `maxValue`, which is the exact sum when no overflow occurs, and nothing else changes |
| ChannelRegistry.CloseConnection | wallet/src/de/schildbach/wallet/service/ChannelService.java:162-175 | the record is removed and the quota is untouched. A record with a client gets `close` only when a server close is asked for, then `connectionClosed`; otherwise no client call is made |
| ChannelRegistry.Prepare | wallet/src/de/schildbach/wallet/service/ChannelService.java:201-218 | no intent exactly when `minValue` is outside (0, MAX_MONEY] or already covered by the quota; otherwise the request for `minValue` |
| ChannelRegistry.OpenConnection | wallet/src/de/schildbach/wallet/service/ChannelService.java:221-257 | a null listener or host returns null and changes nothing. A cookie comes back exactly when caller, death link and client all succeed, and then the record holds the caller's app and a client limited to the current quota, and `connectionOpen` was called. If constructing the client throws, a record without a client stays behind. If `connectionOpen` throws, the record keeps its client and no cookie is returned. The quota never changes |
| ChannelRegistry.PayServer | wallet/src/de/schildbach/wallet/service/ChannelService.java:280-325 | each error code for its check, in the source's order, and any rejected request changes nothing. An applied payment is returned and charged to the caller's quota; a value-out-of-range refusal charges nothing; an illegal-state refusal closes the channel, asking the client to `close` and then telling it `connectionClosed`. A caller without a package name on a live channel makes the call throw, changing nothing. Other apps' quotas never change |
| ChannelRegistry.CloseByApp | wallet/src/de/schildbach/wallet/service/ChannelService.java:328-338 | a null cookie is ignored. Otherwise the channel is removed, and a live one gets `close` then `connectionClosed` |
| ChannelRegistry.DisconnectFromWallet | wallet/src/de/schildbach/wallet/service/ChannelService.java:341-352 | a null cookie is ignored. Otherwise the channel is removed, and a live one gets only `connectionClosed` |
| ChannelRegistry.MessageReceived | wallet/src/de/schildbach/wallet/service/ChannelService.java:354-372 | the message reaches the client exactly when the cookie names a live channel and the message parses; otherwise nothing changes. Channels and quota never change here, since the client's callbacks are not modelled |
| ChannelRegistry.CloseTwice | wallet/src/de/schildbach/wallet/service/ChannelService.java:162-175 | closing a channel is idempotent |
| ChannelRegistry.PayAfterClose | wallet/src/de/schildbach/wallet/service/ChannelService.java:286-290 | after a close, a payment on that cookie gets `NO_SUCH_CHANNEL` and changes nothing |
| ChannelRegistry.OpenedChannelBelongsToCaller | wallet/src/de/schildbach/wallet/service/ChannelService.java:240-301 | a just-opened channel can be paid on by its app up to its quota, and is charged to that app; any other app gets `NO_SUCH_CHANNEL` |
| ChannelRegistry.NoOverdraft | wallet/src/de/schildbach/wallet/service/ChannelService.java:284-312 | two payments that together exceed the quota do not both succeed, and the quota stays non-negative |
| ChannelRegistry.ExactDeduction | wallet/src/de/schildbach/wallet/service/ChannelService.java:303-312 | an applied amount between 0 and the request is returned and deducted exactly, and the quota stays non-negative |
| ChannelRegistry.AllowancesCompose | wallet/src/de/schildbach/wallet/service/ChannelService.java:181-188 | two allowances equal one allowance of their long sum |
| ChannelService.ChannelService.constructor | wallet/src/de/schildbach/wallet/service/ChannelService.java:106-114 | a service with no channels, no quotas and no client calls |
| ChannelService.ChannelService.GetAppValueRemaining | wallet/src/de/schildbach/wallet/service/ChannelService.java:97-104 | the stored quota, or 0 when there is none, as `ChannelRegistry.Remaining` |
| ChannelService.ChannelService.IncrementAndGet | wallet/src/de/schildbach/wallet/service/ChannelService.java:90-95 | the new state and the returned value are those of `ChannelRegistry.IncrementAndGet` |
| ChannelService.ChannelService.CloseConnection | wallet/src/de/schildbach/wallet/service/ChannelService.java:162-175 | the new state is that of `ChannelRegistry.CloseConnection` |
| ChannelService.ChannelService.AllowConnection | wallet/src/de/schildbach/wallet/service/ChannelService.java:181-188 | the new state is that of `ChannelRegistry.AllowConnection` |
| ChannelService.LocalBinder.Prepare | wallet/src/de/schildbach/wallet/service/ChannelService.java:201-218 | returns what `ChannelRegistry.Prepare` returns on the service's state |
| ChannelService.LocalBinder.OpenConnection | wallet/src/de/schildbach/wallet/service/ChannelService.java:221-257 | the new state and the outcome are those of `ChannelRegistry.OpenConnection` |
| ChannelService.LocalBinder.PayServer | wallet/src/de/schildbach/wallet/service/ChannelService.java:280-325 | the new state and the outcome are those of `ChannelRegistry.PayServer` |
| ChannelService.LocalBinder.CloseConnection | wallet/src/de/schildbach/wallet/service/ChannelService.java:328-338 | the new state is that of `ChannelRegistry.CloseByApp` |
| ChannelService.LocalBinder.DisconnectFromWallet | wallet/src/de/schildbach/wallet/service/ChannelService.java:341-352 | the new state is that of `ChannelRegistry.DisconnectFromWallet` |
| ChannelService.LocalBinder.MessageReceived | wallet/src/de/schildbach/wallet/service/ChannelService.java:354-372 | the new state is that of `ChannelRegistry.MessageReceived` |
| PaymentChannels.Ordinal | integration-android/src/de/schildbach/wallet/integration/android/PaymentChannels.java:183-211 | a close reason's ordinal is the position at which it appears in `values()` |
| PaymentChannels.DecodeCloseReason | integration-android/src/de/schildbach/wallet/integration/android/PaymentChannels.java:270-278 | an int in range decodes to the reason with that ordinal, and anything else to `UNKNOWN` |
| PaymentChannels.AuthorizeAtLeast | integration-android/src/de/schildbach/wallet/integration/android/PaymentChannels.java:143-153 | the activity starts exactly when `prepare(minValue)` returns an intent, and it is that intent; otherwise success with the balance |
| PaymentChannels.AuthorizeInChunks | integration-android/src/de/schildbach/wallet/integration/android/PaymentChannels.java:162-181 | illegal exactly for non-positive arguments or smallest ≥ chunk, without calling `prepare`. It succeeds at once when the balance covers the smallest payment. Otherwise it prepares `chunkSize - balance` (long arithmetic), which without overflow is positive and tops the balance up to `chunkSize`; it starts the activity with the intent `prepare` returned, or succeeds with the balance |
| PaymentChannels.Step | integration-android/src/de/schildbach/wallet/integration/android/PaymentChannels.java:227-337 | an operation throws exactly when its `checkStarted` / `checkNotSettling` guard fails, and then changes nothing. `start` throws the `IllegalStateException` itself; the other operations throw a `RuntimeException` wrapping it. Otherwise each operation's new state and binder call are stated in full: `start` takes a cookie and opens a connection for the host; `sendMoney` pays and returns the wallet's reply; `messageReceived` passes its message on; `suspend` drops the cookie; `settle` marks settling and keeps the cookie. A consistent state stays consistent |
| PaymentChannels.AlwaysConsistent | integration-android/src/de/schildbach/wallet/integration/android/PaymentChannels.java:313-337 | after any sequence of operations, a settling handle still holds its cookie |
| PaymentChannels.SettlingIsFinal | integration-android/src/de/schildbach/wallet/integration/android/PaymentChannels.java:243-246 | once settling, no sequence of operations changes the handle, and only `messageReceived` still reaches the wallet, passing its message on |
| PaymentChannels.SuspendThenStart | integration-android/src/de/schildbach/wallet/integration/android/PaymentChannels.java:313-322 | a suspended handle can be started again and opens a connection to the same host |
| PaymentChannels.Channel.constructor | integration-android/src/de/schildbach/wallet/integration/android/PaymentChannels.java:233-236 | a handle for `hostID` with no cookie, not settling, no calls made |
| PaymentChannels.Channel.CheckStarted | integration-android/src/de/schildbach/wallet/integration/android/PaymentChannels.java:238-241 | passes exactly when the handle holds a cookie |
| PaymentChannels.Channel.CheckNotSettling | integration-android/src/de/schildbach/wallet/integration/android/PaymentChannels.java:243-246 | passes exactly when settle was not requested |
| PaymentChannels.Channel.Start | integration-android/src/de/schildbach/wallet/integration/android/PaymentChannels.java:248-283 | the new state and outcome are those of `Step` for `start`, and the call is logged |
| PaymentChannels.Channel.SendMoney | integration-android/src/de/schildbach/wallet/integration/android/PaymentChannels.java:289-297 | the new state and outcome are those of `Step` for `sendMoney`, and the call is logged |
| PaymentChannels.Channel.MessageReceived | integration-android/src/de/schildbach/wallet/integration/android/PaymentChannels.java:299-306 | the new state and outcome are those of `Step` for `messageReceived`, and the call is logged |
| PaymentChannels.Channel.Suspend | integration-android/src/de/schildbach/wallet/integration/android/PaymentChannels.java:313-322 | the new state and outcome are those of `Step` for `suspend`, and the call is logged |
| PaymentChannels.Channel.Settle | integration-android/src/de/schildbach/wallet/integration/android/PaymentChannels.java:328-337 | the new state and outcome are those of `Step` for `settle`, and the call is logged |
| PaymentChannels.AuthorizeAtLeastAgainstWallet | integration-android/src/de/schildbach/wallet/integration/android/PaymentChannels.java:143-153 | against the wallet's `prepare`, success exactly when the request is out of range or already covered by the quota, and otherwise the wallet's request for `minValue` |
| PaymentChannels.AuthorizeInChunksAgainstWallet | integration-android/src/de/schildbach/wallet/integration/android/PaymentChannels.java:162-181 | against the wallet, below the smallest payment the code as written prepares `chunkSize - balance`, and succeeds without asking the user exactly when the balance is at least half a chunk |
| PaymentChannels.AuthorizeInChunksShortfall | integration-android/src/de/schildbach/wallet/integration/android/PaymentChannels.java:172-177 | quota 50, chunk 100 and smallest payment 60 give success with a balance of 50, below the smallest payment |
| PaymentChannels.AuthorizeInChunksToTarget | integration-android/src/de/schildbach/wallet/integration/android/PaymentChannels.java:162-181 | the same validation as `authorizeInChunks`, without calling `prepare` on illegal arguments, and the same early success. Below the smallest payment it prepares `chunkSize`, and starts the activity with the intent `prepare` returned or succeeds with the balance |
| PaymentChannels.AuthorizeInChunksToTargetAgainstWallet | integration-android/src/de/schildbach/wallet/integration/android/PaymentChannels.java:162-181 | against the wallet, success only with a balance that covers the smallest payment; below it, always a request to bring the quota to `chunkSize` |

## Left out

- Threads, locks and the `FutureTask` holding a channel's cookie are not modelled. Each synchronized or lock-holding call is one atomic step. A read loop runs over the whole finite stream it will ever receive, and `readThread.join()` together with its `InterruptedException` is not modelled.
- Sockets and streams are not modelled. Their outcomes are inputs. A socket whose connect or write failed is assumed to fail every later write. The link's order and no-loss invariant (`TcpLink.AbstractTCPPaymentChannel.Valid`: what was written, then what is queued, is what was handed over) rests on this assumption. If a write in `sendProtobuf` could succeed on a socket whose replay failed, that message would overtake the messages still queued.
- A frame is written whole or not at all: a failure between the length and the payload is not modelled.
- Short reads are not modelled. `read(byte[])` is taken to fill the buffer whenever enough bytes remain, so only the end of the stream truncates a payload.
- The model assumes that `socket.close()` always succeeds. In the source, an `IOException` from it is caught, and the catch also skips `socket = null` and `readThread.join()`, so the old socket and its reader are kept. The model does not capture that path. An `IOException` from `SampleProtobufConn.close` (rethrown as a `RuntimeException`) is not modelled.
- The `SampleProtobufConn` constructor's failing connect is not modelled; the model starts from a connected socket.
- Exceptions thrown by the sample's `onMessageReceived`, which also end its read loop, are not modelled.
- TcpLink.AbstractTCPPaymentChannel.ReadLoop: the manager's callbacks are assumed to return normally. The TCP read thread catches only `IOException`. If `messageReceived` throws a `RuntimeException`, the thread dies without any `disconnectFromWallet(false)` call, and the model does not capture that path.
- Logging is not modelled.
- `RemoteException` from the binder is not modelled, in the handle's calls or in `authorizeAtLeast` and `authorizeInChunks`; the wallet is assumed reachable.
- The `binderDied` callback that `watchForDeath` registers is not modelled. Only whether `linkToDeath` succeeds is modelled.
- The internals of `buildClientConnection` are not modelled. The payment protocol client is reduced to a log of the calls the service makes on it. How building it ends is an input: built, constructor failed, or `connectionOpen` failed.
- The client's callbacks to the app (`sendToServer`, `destroyConnection`, `channelOpen`) are not modelled. On a `RemoteException` each of them calls `closeConnection(cookie, false)`. They run inside `connectionOpen`, `receiveMessage` and `incrementPayment`, so in the code those calls can also remove the channel's record. The model does not capture this. In particular, `ChannelRegistry.OpenConnection` states a record with a client even though `openConnection` may return a cookie whose record a failed callback has already removed. Likewise `ChannelRegistry.MessageReceived` and the applied and value-out-of-range branches of `ChannelRegistry.PayServer` keep the channel map unchanged.
- The shared-preferences store is not modelled, including whether `commit` persists the value. The quota is a map.
- `prepare` with a caller uid that has no package name is not modelled; `prepare` assumes a known caller.
- `getBalanceRemaining` is not part of this model. The client library takes the balance as an input, and the lemmas against the wallet use the caller's quota.
- `PaymentChannels.create`, binding and unbinding, and `getAppBalance` are not modelled.
- The forwarding of channel events to the app's `ChannelEvents` is not modelled. Only the decoding of the close reason is modelled.
- `ChannelConstants` and `NetworkParameters` are not part of this model. The error codes come from `PaymentException.java`, and `MAX_MONEY` is 21 million coins of 10^8 units.
- The random UUID is not modelled; the cookie is a parameter. As in the source, `put` overwrites a record already stored under that key.

## Findings

| source | as written | input that shows it | evidently intended | confidence | as-written member | corrected member |
|---|---|---|---|---|---|---|
| integration-android/src/de/schildbach/wallet/integration/android/PaymentChannels.java:172-177 | below the smallest payment, `authorizeInChunks` asks `prepare` for `chunkSize - balance`. The wallet's `prepare` and its permission activity read `minValue` as the total the app should hold, so the wallet finds the request covered whenever the balance is at least half a chunk. The app is then told success with a balance that does not cover its smallest payment, and the user is never asked | quota 50, `chunkSize` 100, `smallestPayment` 60: `prepare(50)` returns null, and the callback gets `success(50)` | ask `prepare(chunkSize)`, so that below the smallest payment the user is always asked to bring the quota up to `chunkSize` | medium, not executed | PaymentChannels.AuthorizeInChunksShortfall | PaymentChannels.AuthorizeInChunksToTargetAgainstWallet |
