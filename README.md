# TCPBase: engine admission queue, handshake and framed IPC

This project models `TCPBase`, the Hedgewars frontend's base class for talking
to the game engine (`hwengine`) over a loopback TCP connection, together with
the process-wide `srvsList` that lets only one engine request run at a time.

- `framing.dfy`, module `Framing`: the wire format. A message is one length
  byte (the `quint8` cast of the payload size) followed by the payload.
  `MAXMSGCHARS` is `MaxMsgChars`. Its value lives in `hwconsts.h`, which is
  not part of this model, so it is left open: a constant of type `Len`
  (0 to 255). Every proof holds for any value that fits in the length byte. `ParseFrame`/`ParseFrames` read a byte stream back into
  payloads, and `Encode` is what a run of sends produces.
- `tcpbase.dfy`, module `TcpBase`: the state machine.
  - `Session` is one `TCPBase` object, with the fields the source updates in
    place: `hasStarted`, `socket` (`IPCSocket`, null or not), `toSendBuf`,
    `demo`, `readbuffer`.
  - `Registry` holds the process-wide `srvsList` (`srvs`) and `IPCServer`
    (`server`) as one context object.
  - `Listener` is the shared `QTcpServer`. Its `pending` is the queue that
    `nextPendingConnection` takes from. `Socket` is a `QTcpSocket`: the
    `written` bytes (the wire) and the `incoming` bytes not yet read.
  - Qt signal connections are explicit fields of `Session`:
    - `listening`: `IPCServer`'s `newConnection` goes to `NewConnection`.
    - `waitingOn`: whose `isReadyNow` goes to `tcpServerReady`.
    - `readSubscribed` and `disconnectSubscribed`: the socket's `readyRead`
      and `disconnected`.
  - `deleteLater()` sets a `disposed` flag. Each emission of `isReadyNow`
    adds one to `readyEmitted`.
  - The virtual hooks are kept abstract.
    - `SendToClientFirst`, `onClientRead` and `onClientDisconnect` are counted
      runs: `handshakes`, `readsHandled`, `disconnectsHandled`.
    - `couldBeRemoved()` is the constant `removable` of each session. The
      `TCPBase` default is false.
  - Two ghost fields carry the send-path invariant `Valid()`:
    - `sent`: everything handed to `RawSendIPC`.
    - `wire`: everything written to a socket.

    `Valid()` says `wire + toSendBuf == sent`: nothing sent is lost or
    reordered, whether it was sent before or after the connection existed. In
    demo mode `demo == wire`; otherwise `demo` stays empty.
  - The admission queue is specified by pure functions over `seq<Session>`:
    - `KeptPrefix`: how much of the list survives the preemption of
      `Start`.
    - `Admitted`: the list after `Start`.
    - `AdmitAll`: the list after a run of `Start(false)` calls.
    - `RemoveOne`: `QList::removeOne`.

The source's preemption rule is followed as written. Only `couldBeRemoved()`
of the tail is asked, not `m_hasStarted`. So a preemptible head that is
already running is taken off the list, and the new request starts at once
(`StartsAtOnce`). So two engine requests can run at once in that case, and
the model does not claim otherwise. Among the sessions still in `srvsList`,
`Start` keeps the chain: every entry after the head waits on the one before
it and has not started, so only the head can be running (`Chained`,
`StartKeepsChain`, `ChainedAtMostOneStarted`).

## Model

| member | source | states |
|---|---|---|
| `Framing.Quint8` | QTfrontend/net/tcpBase.cpp:175 | the length byte is the size modulo 256, and it equals the size exactly when the size is below 256 |
| `Framing.LengthPrefixed` | QTfrontend/net/tcpBase.cpp:175-176 | the frame is one byte longer than the payload and ends with the payload. Its first byte is the payload size modulo 256, and it is exactly the size when the payload is within MAXMSGCHARS |
| `Framing.ParseFrameOfLengthPrefixed` | QTfrontend/net/tcpBase.cpp:174-176 | for a payload within MAXMSGCHARS, reading the first byte as a length and taking that many bytes gives the payload back, and leaves whatever followed untouched |
| `Framing.ParseFramesOfEncode` | QTfrontend/net/tcpBase.cpp:172-177 | a stream of frames of payloads within MAXMSGCHARS decodes into exactly those payloads, in order |
| `Framing.EncodeOfParseFrames` | QTfrontend/net/tcpBase.cpp:172-177 | conversely, any stream that decodes is the encoding of what it decodes into, and every payload in it fits in the length byte |
| `TcpBase.Session.SendIPC` | QTfrontend/net/tcpBase.cpp:172-177 | a payload over MAXMSGCHARS changes nothing: the queued bytes, the socket's bytes, the wire and `demo` all stay the same. Otherwise exactly the length byte and the payload go to the raw path, and that frame parses back to the payload |
| `TcpBase.Session.RawSendIPC` | QTfrontend/net/tcpBase.cpp:179-199 | with no socket, the bytes are appended to `toSendBuf` and nothing is written. With a socket, the old `toSendBuf` and then the new bytes are written, `toSendBuf` is emptied, and `demo` grows by exactly the written bytes in demo mode and not at all otherwise. `Valid()` is kept throughout |
| `TcpBase.Session.ClientRead` | QTfrontend/net/tcpBase.cpp:110-116 | the socket's unread bytes are consumed. An empty read leaves `readbuffer` alone and skips the hook. A non-empty one appends them to `readbuffer` and runs the hook once |
| `TcpBase.Session.NewConnection` | QTfrontend/net/tcpBase.cpp:65-78 | the slot works on the shared `IPCServer`. With a socket already held, nothing changes. Otherwise the server subscription is dropped. With nothing pending, the socket stays null and no handshake runs. Else the oldest pending connection becomes the socket, read/disconnect are subscribed, and the handshake hook runs once |
| `TcpBase.NewConnectionTwice` | QTfrontend/net/tcpBase.cpp:65-78 | two newConnection signals in a row accept at most one connection, and the handshake runs exactly as often as a connection was accepted |
| `TcpBase.CrashAfterConnect` | QTfrontend/net/tcpBase.cpp:75-128 | an engine that connected and then crashed reaches both the process-error slot and the disconnect slot. isReadyNow is then emitted twice, and the disconnect hook runs twice: nothing in the source bounds the emissions to one |
| `TcpBase.Listener.NextPendingConnection` | QTfrontend/net/tcpBase.cpp:73-74 | the oldest pending connection is handed out and removed; with none pending the result is null |
| `TcpBase.Session.RealStart` | QTfrontend/net/tcpBase.cpp:80-97 | the session subscribes to new connections, forgets any socket and is marked started |
| `TcpBase.Session.ClientDisconnect` | QTfrontend/net/tcpBase.cpp:99-108 | the read subscription is dropped, the disconnect hook runs once, isReadyNow is emitted once, and both the socket and the session are marked for disposal |
| `TcpBase.Session.StartProcessError` | QTfrontend/net/tcpBase.cpp:118-129 | the error code is reported, then the session goes through the same teardown as a disconnect, so isReadyNow still fires once |
| `TcpBase.Session.TcpServerReady` | QTfrontend/net/tcpBase.cpp:131-136 | the ready connection from the head of `srvsList` is dropped, if it is the one held, and the session starts |
| `TcpBase.Session.Start` | QTfrontend/net/tcpBase.cpp:138-158 | `srvsList` becomes its surviving prefix plus this session. The taken-off tail sessions, and only they, are marked for disposal. With nothing left in front, the session starts at once; otherwise it waits on the ready signal of the session now before it and is not started |
| `TcpBase.KeptPrefix` | QTfrontend/net/tcpBase.cpp:147-151 | the surviving prefix: everything removed reports couldBeRemoved(), the last survivor does not when preemption is allowed, and without preemption nothing is removed |
| `TcpBase.PopPreemptible` | QTfrontend/net/tcpBase.cpp:147-151 | taking off one preemptible tail and retrying leaves the same survivors, and the removed part is the retry's removed part plus that tail; this is what makes the recursion's result well defined |
| `TcpBase.StartsAtOnce` | QTfrontend/net/tcpBase.cpp:140-151 | a request starts at once exactly when preemption is allowed and every queued request (the running head included) reports couldBeRemoved(), or the list is empty |
| `TcpBase.PreemptReplacesTail` | QTfrontend/net/tcpBase.cpp:147-156 | a preemptible tail behind a non-preemptible request is replaced by the new request, and everything before it keeps its position |
| `TcpBase.StartKeepsChain` | QTfrontend/net/tcpBase.cpp:138-158 | when a new, unstarted session calls Start on a chained `srvsList`, the list stays chained, so at most one of its entries, the head, has started. This holds with or without preemption |
| `TcpBase.ChainedAtMostOneStarted` | QTfrontend/net/tcpBase.cpp:138-158 | in a chained list at most one entry has started, and if one has, it is the head |
| `TcpBase.AdmitAllInOrder` | QTfrontend/net/tcpBase.cpp:152-156 | without preemption a run of Start calls appends the requests in call order and never moves an earlier entry |
| `TcpBase.AdmittedOnce` | QTfrontend/net/tcpBase.cpp:138-158 | a session not yet queued is in the list exactly once after Start, at its tail |
| `TcpBase.Session.Destroy` | QTfrontend/net/tcpBase.cpp:32-39 | the destructor removes the first occurrence of the session from `srvsList` and marks a held socket for disposal |
| `TcpBase.RemoveOne` | QTfrontend/net/tcpBase.cpp:35 | removeOne takes exactly one copy of the element off the list when it has one, and otherwise keeps the list. Entries before the first occurrence keep their places, and those after it move up by one |
| `TcpBase.RemoveAdmitted` | QTfrontend/net/tcpBase.cpp:32-39 | destroying a session that Start queued gives back the part of the list that survived its Start |
| `TcpBase.Session.constructor` | QTfrontend/net/tcpBase.cpp:41-63 | the shared listener is created on first use only, and its port is recorded. The session starts unstarted, without a socket, with empty buffers, and `Valid()` holds |

## Left out

- Message boxes and `exit(0)` when the listener cannot listen (lines 50-60): this is UI and process termination. The model assumes `listen` succeeds.
- `QTcpServer` setup: `setMaxPendingConnections` and the operating system's port assignment. The port is a constructor parameter, and pending connections are the `Listener.pending` sequence.
- The `QProcess` spawn in `RealStart` (lines 85-94): the process, `getArguments`, `bindir` and the `isDevBuild` channel forwarding. Only its effects on the session are kept. A spawn failure enters the model as a call of `StartProcessError`.
- The message box in `StartProcessError`: its text is left out. The reported error code is recorded in `errorsShown`.
- The Qt event loop: signal delivery order and when `deleteLater` runs. Each slot is a method the environment may call. Subscriptions are fields, and disposal is a flag. A session that disconnects leaves `srvsList` only when `Destroy` runs. The chain invariant is stated for `Start` only: between a head's isReadyNow, which starts the next session, and the head's deferred `Destroy`, two started sessions are in the list.
- The hooks' subclass behaviour. `SendToClientFirst`, `onClientRead` and `onClientDisconnect` are run counters. No subclass's parsing of `readbuffer` or handshake payload is modelled.
- `couldBeRemoved()` is a fixed answer per session. A subclass whose answer depends on changing state is not modelled.
- TcpBase.Session.ClientDisconnect: when the engine fails to start, `StartProcessError` reaches it with `IPCSocket` still null. The source then calls `IPCSocket->deleteLater()` through a null pointer. That is undefined behaviour in C++; Qt's `postEvent` happens to warn about a null receiver and do nothing. The model writes that outcome as a null check. After a crash that follows a connection, `IPCSocket` is set and is disposed as usual. Like the source, the model does not reset `IPCSocket` to null after a disconnect.
- TcpBase.Session.ClientDisconnect: the number of isReadyNow emissions over a session's lifetime is not bounded. Each call emits once, and a crash after connecting calls it twice (`CrashAfterConnect`).
- A demo log written by subclasses. In the model, `demo` changes only in `RawSendIPC`.
