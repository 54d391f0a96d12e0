/*
 * TCPBase: one request to run the engine.  A session waits its turn in the
 * process-wide srvsList, starts the engine, accepts the engine's connection
 * on the shared loopback listener (IPCServer), buffers outgoing frames until
 * that connection exists, and accumulates what the engine sends back.
 *
 * Qt signal connections are explicit fields; a hook a subclass overrides is
 * a counter of how often it ran; deleteLater() is a `disposed` flag.
 */
module TcpBase {
  import opened Framing

  /** The engine's end of the loopback connection (QTcpSocket). */
  class Socket {
    /** Everything written to the socket so far: the wire. */
    var written: seq<byte>
    /** Bytes that arrived and have not been read yet. */
    var incoming: seq<byte>
    /** deleteLater() was called. */
    var disposed: bool

    method Write(data: seq<byte>)
      modifies this`written
      ensures written == old(written) + data
    {
      written := written + data;
    }

    method ReadAll() returns (data: seq<byte>)
      modifies this`incoming
      ensures data == old(incoming) && incoming == []
    {
      data := incoming;
      incoming := [];
    }
  }

  /** The shared loopback QTcpServer with its queue of accepted-but-unclaimed
      connections; the port is whatever the operating system assigned. */
  class Listener {
    const port: int
    var pending: seq<Socket>

    constructor (port: int)
      ensures this.port == port && pending == []
    {
      this.port := port;
      pending := [];
    }

    /** QTcpServer::nextPendingConnection: the oldest pending connection, or
        null when there is none. */
    method NextPendingConnection() returns (s: Socket?)
      modifies this`pending
      ensures old(pending) == [] ==> s == null && pending == []
      ensures old(pending) != [] ==> s == old(pending[0]) && pending == old(pending[1..])
    {
      if pending == [] {
        s := null;
      } else {
        s := pending[0];
        pending := pending[1..];
      }
    }
  }

  /** The process-wide state every session shares: srvsList and IPCServer. */
  class Registry {
    var srvs: seq<Session>
    var server: Listener?

    constructor ()
      ensures srvs == [] && server == null
    {
      srvs := [];
      server := null;
    }
  }

  /** How many sessions at the head of q survive a Start(couldCancel): the
      requests at the tail that report couldBeRemoved() are taken off one by
      one, as long as preemption is allowed. */
  function KeptPrefix(q: seq<Session>, couldCancel: bool): (k: nat)
    ensures k <= |q|
    ensures !couldCancel ==> k == |q|
    ensures forall i :: k <= i < |q| ==> q[i].removable
    ensures couldCancel && 0 < k ==> !q[k - 1].removable
    decreases |q|
  {
    if q == [] then 0
    else if couldCancel && q[|q| - 1].removable then KeptPrefix(q[..|q| - 1], couldCancel)
    else |q|
  }

  /** srvsList after Start(couldCancel) on session s. */
  function Admitted(q: seq<Session>, s: Session, couldCancel: bool): seq<Session>
  {
    q[..KeptPrefix(q, couldCancel)] + [s]
  }

  /** srvsList after Start(false) on each of reqs in turn. */
  function AdmitAll(q: seq<Session>, reqs: seq<Session>): seq<Session>
    decreases |reqs|
  {
    if reqs == [] then q else AdmitAll(Admitted(q, reqs[0], false), reqs[1..])
  }

  /** The chain srvsList keeps: every entry after the head waits on the ready
      signal of the entry before it and has not started. */
  ghost predicate Chained(q: seq<Session>)
    reads q
  {
    forall i :: 0 < i < |q| ==> q[i].waitingOn == q[i - 1] && !q[i].hasStarted
  }

  /** How many entries of q have started their engine. */
  ghost function StartedCount(q: seq<Session>): nat
    reads q
  {
    if q == [] then 0
    else StartedCount(q[..|q| - 1]) + (if q[|q| - 1].hasStarted then 1 else 0)
  }

  /** In a chained srvsList at most one engine request, the head, is running. */
  lemma {:induction false} ChainedAtMostOneStarted(q: seq<Session>)
    requires Chained(q)
    ensures StartedCount(q) <= 1
    ensures 0 < StartedCount(q) ==> q[0].hasStarted
  {
    if |q| > 1 {
      var p := q[..|q| - 1];
      assert Chained(p) by {
        forall i | 0 < i < |p| ensures p[i].waitingOn == p[i - 1] && !p[i].hasStarted {
          assert p[i] == q[i] && p[i - 1] == q[i - 1];
        }
      }
      ChainedAtMostOneStarted(p);
      assert !q[|q| - 1].hasStarted;
    }
  }

  /** Position of the first occurrence of x in q. */
  function IndexOf<T(==)>(q: seq<T>, x: T): (i: nat)
    requires x in q
    ensures i < |q| && q[i] == x && x !in q[..i]
  {
    if q[0] == x then 0 else 1 + IndexOf(q[1..], x)
  }

  /** QList::removeOne: finds the first occurrence of x and removes it, if
      there is one. */
  function RemoveOne<T(==)>(q: seq<T>, x: T): (r: seq<T>)
    ensures multiset(r) == multiset(q) - multiset{x}
    ensures x !in q ==> r == q
    ensures x in q ==> |r| == |q| - 1 && r[..IndexOf(q, x)] == q[..IndexOf(q, x)] &&
                       r[IndexOf(q, x)..] == q[IndexOf(q, x) + 1..]
  {
    if x in q then
      var i := IndexOf(q, x);
      assert q == q[..i] + [x] + q[i + 1..];
      q[..i] + q[i + 1..]
    else
      q
  }

  class Session {
    /** m_isDemoMode: every byte sent is mirrored into `demo`. */
    const isDemoMode: bool
    /** What the virtual couldBeRemoved() answers for this session (the
        TCPBase default is false). */
    const removable: bool
    /** ipc_port: the listener's port, passed to the engine. */
    const ipcPort: int

    var hasStarted: bool
    /** IPCSocket; null until a connection is accepted. */
    var socket: Socket?
    var toSendBuf: seq<byte>
    var demo: seq<byte>
    var readbuffer: seq<byte>

    /** Connected to IPCServer's newConnection(). */
    var listening: bool
    /** The session whose isReadyNow() is connected to this one's
        tcpServerReady(), if any. */
    var waitingOn: Session?
    /** Connected to the socket's readyRead() and disconnected(). */
    var readSubscribed: bool
    var disconnectSubscribed: bool

    /** Runs of the SendToClientFirst, onClientRead and onClientDisconnect hooks. */
    var handshakes: nat
    var readsHandled: nat
    var disconnectsHandled: nat
    /** Emissions of isReadyNow(). */
    var readyEmitted: nat
    /** Error codes of the spawn failures reported to the user. */
    var errorsShown: seq<int>
    /** deleteLater() was called on this session. */
    var disposed: bool

    /** Everything handed to RawSendIPC so far, in call order. */
    ghost var sent: seq<byte>
    /** Everything this session has written to a socket, in order. */
    ghost var wire: seq<byte>

    /** Nothing handed to RawSendIPC is lost or reordered: it is either on the
        wire or still queued behind it; in demo mode `demo` is the wire. */
    ghost predicate Valid()
      reads this
    {
      wire + toSendBuf == sent &&
      demo == (if isDemoMode then wire else [])
    }

    ghost function Held(): set<Socket>
      reads this
    {
      if socket == null then {} else {socket}
    }

    /** TCPBase(demoMode): creates the shared listener on first use only. */
    constructor (ctx: Registry, demoMode: bool, removable: bool, freePort: int)
      modifies ctx`server
      ensures old(ctx.server) != null ==> ctx.server == old(ctx.server)
      ensures old(ctx.server) == null ==>
                ctx.server != null && fresh(ctx.server) && ctx.server.port == freePort && ctx.server.pending == []
      ensures ctx.server != null && ipcPort == ctx.server.port
      ensures Valid() && isDemoMode == demoMode && this.removable == removable
      ensures !hasStarted && socket == null && toSendBuf == [] && demo == [] && readbuffer == []
      ensures sent == [] && wire == []
      ensures !listening && waitingOn == null && !readSubscribed && !disconnectSubscribed
      ensures handshakes == 0 && readsHandled == 0 && disconnectsHandled == 0 && readyEmitted == 0
      ensures errorsShown == [] && !disposed
    {
      if ctx.server == null {
        ctx.server := new Listener(freePort);
      }
      ipcPort := ctx.server.port;
      isDemoMode := demoMode;
      this.removable := removable;
      hasStarted := false;
      socket := null;
      toSendBuf, demo, readbuffer := [], [], [];
      listening, waitingOn := false, null;
      readSubscribed, disconnectSubscribed := false, false;
      handshakes, readsHandled, disconnectsHandled, readyEmitted := 0, 0, 0, 0;
      errorsShown, disposed := [], false;
      sent, wire := [], [];
    }

    /** ~TCPBase: leaves srvsList and lets go of the socket. */
    method Destroy(ctx: Registry)
      modifies ctx`srvs, Held()`disposed
      ensures ctx.srvs == RemoveOne(old(ctx.srvs), this)
      ensures socket != null ==> socket.disposed
    {
      ctx.srvs := RemoveOne(ctx.srvs, this);
      if socket != null {
        socket.disposed := true;
      }
    }

    /** The listener's newConnection() slot; the listener is the shared
        IPCServer. */
    method NewConnection(ctx: Registry)
      requires ctx.server != null
      modifies this`socket, this`listening, this`readSubscribed, this`disconnectSubscribed, this`handshakes
      modifies ctx.server`pending
      ensures old(socket) != null ==> unchanged(this) && unchanged(ctx.server)
      ensures old(socket) == null && old(ctx.server.pending) == [] ==>
                socket == null && !listening && ctx.server.pending == [] &&
                readSubscribed == old(readSubscribed) && disconnectSubscribed == old(disconnectSubscribed) &&
                handshakes == old(handshakes)
      ensures old(socket) == null && old(ctx.server.pending) != [] ==>
                socket == old(ctx.server.pending[0]) && ctx.server.pending == old(ctx.server.pending[1..]) &&
                !listening && readSubscribed && disconnectSubscribed &&
                handshakes == old(handshakes) + 1
    {
      if socket != null {
        return;
      }
      listening := false;
      socket := ctx.server.NextPendingConnection();
      if socket == null {
        return;
      }
      disconnectSubscribed := true;
      readSubscribed := true;
      handshakes := handshakes + 1;  // SendToClientFirst()
    }

    /** RealStart without the process spawn: listen for the engine's
        connection and forget any earlier socket. */
    method RealStart()
      modifies this`listening, this`socket, this`hasStarted
      ensures listening && socket == null && hasStarted
    {
      listening := true;
      socket := null;
      hasStarted := true;
    }

    /** The socket's disconnected() slot. */
    method ClientDisconnect()
      modifies this`readSubscribed, this`disconnectsHandled, this`readyEmitted, this`disposed
      modifies Held()`disposed
      ensures !readSubscribed && disposed
      ensures disconnectsHandled == old(disconnectsHandled) + 1
      ensures readyEmitted == old(readyEmitted) + 1
      ensures socket != null ==> socket.disposed
    {
      readSubscribed := false;
      disconnectsHandled := disconnectsHandled + 1;  // onClientDisconnect()
      readyEmitted := readyEmitted + 1;              // emit isReadyNow()
      if socket != null {
        socket.disposed := true;
      }
      disposed := true;
    }

    /** The socket's readyRead() slot. */
    method ClientRead()
      requires socket != null
      modifies this`readbuffer, this`readsHandled, socket`incoming
      ensures socket.incoming == []
      ensures old(socket.incoming) == [] ==>
                readbuffer == old(readbuffer) && readsHandled == old(readsHandled)
      ensures old(socket.incoming) != [] ==>
                readbuffer == old(readbuffer) + old(socket.incoming) && readsHandled == old(readsHandled) + 1
    {
      var readed := socket.ReadAll();
      if readed == [] {
        return;
      }
      readbuffer := readbuffer + readed;
      readsHandled := readsHandled + 1;  // onClientRead()
    }

    /** The engine process's error() slot: report, then clean up as if the
        engine had disconnected. */
    method StartProcessError(code: int)
      modifies this`errorsShown, this`readSubscribed, this`disconnectsHandled, this`readyEmitted, this`disposed
      modifies Held()`disposed
      ensures errorsShown == old(errorsShown) + [code]
      ensures !readSubscribed && disposed
      ensures disconnectsHandled == old(disconnectsHandled) + 1
      ensures readyEmitted == old(readyEmitted) + 1
      ensures socket != null ==> socket.disposed
    {
      errorsShown := errorsShown + [code];
      ClientDisconnect();
    }

    /** The previous session's isReadyNow() slot. */
    method TcpServerReady(ctx: Registry)
      requires ctx.srvs != []
      modifies this`waitingOn, this`listening, this`socket, this`hasStarted
      ensures waitingOn == if old(waitingOn) == ctx.srvs[0] then null else old(waitingOn)
      ensures listening && socket == null && hasStarted
    {
      if waitingOn == ctx.srvs[0] {
        waitingOn := null;
      }
      RealStart();
    }

    /** Joins srvsList: starts at once on an empty list, otherwise queues
        behind the tail, after first taking off preemptible tails when the
        caller allows it. */
    method Start(ctx: Registry, couldCancel: bool)
      modifies ctx`srvs, ctx.srvs`disposed
      modifies this`listening, this`socket, this`hasStarted, this`waitingOn
      ensures ctx.srvs == Admitted(old(ctx.srvs), this, couldCancel)
      ensures var q, k := old(ctx.srvs), KeptPrefix(old(ctx.srvs), couldCancel);
              forall o :: o in q ==> o.disposed == (old(o.disposed) || o in q[k..])
      ensures KeptPrefix(old(ctx.srvs), couldCancel) == 0 ==>
                listening && socket == null && hasStarted && waitingOn == old(waitingOn)
      ensures var q, k := old(ctx.srvs), KeptPrefix(old(ctx.srvs), couldCancel);
              0 < k ==>
                waitingOn == q[k - 1] && listening == old(listening) &&
                socket == old(socket) && hasStarted == old(hasStarted)
      decreases |ctx.srvs|
    {
      ghost var q := ctx.srvs;
      if ctx.srvs == [] {
        ctx.srvs := [this];
        RealStart();
      } else if couldCancel && ctx.srvs[|ctx.srvs| - 1].removable {
        var last := ctx.srvs[|ctx.srvs| - 1];
        ctx.srvs := ctx.srvs[..|ctx.srvs| - 1];
        last.disposed := true;
        label popped:
        Start(ctx, couldCancel);
        PopPreemptible(q);
        forall o | o in q
          ensures o.disposed == (old(o.disposed) || o in q[KeptPrefix(q, couldCancel)..])
        {
          assert old@popped(o.disposed) == (old(o.disposed) || o == last);
        }
      } else {
        waitingOn := ctx.srvs[|ctx.srvs| - 1];
        ctx.srvs := ctx.srvs + [this];
        assert q[..|q|] == q;
      }
    }

    /** The outbound path below the framing. */
    method RawSendIPC(buf: seq<byte>)
      requires Valid()
      modifies this`toSendBuf, this`demo, this`wire, this`sent, Held()`written
      ensures Valid()
      ensures sent == old(sent) + buf
      ensures socket == null ==>
                toSendBuf == old(toSendBuf) + buf && wire == old(wire) && demo == old(demo)
      ensures socket != null ==>
                toSendBuf == [] &&
                socket.written == old(socket.written) + old(toSendBuf) + buf &&
                wire == old(wire) + old(toSendBuf) + buf &&
                demo == (if isDemoMode then old(demo) + old(toSendBuf) + buf else old(demo))
    {
      if socket == null {
        toSendBuf := toSendBuf + buf;
      } else {
        if |toSendBuf| > 0 {
          socket.Write(toSendBuf);
          wire := wire + toSendBuf;
          if isDemoMode {
            demo := demo + toSendBuf;
          }
          toSendBuf := [];
        }
        if buf != [] {
          socket.Write(buf);
          wire := wire + buf;
          if isDemoMode {
            demo := demo + buf;
          }
        }
      }
      sent := sent + buf;
    }

    /** Frames buf behind its length byte, or drops it when it is longer than
        MAXMSGCHARS. */
    method SendIPC(buf: seq<byte>)
      requires Valid()
      modifies this`toSendBuf, this`demo, this`wire, this`sent, Held()`written
      ensures Valid()
      ensures |buf| > MaxMsgChars ==>
                sent == old(sent) && toSendBuf == old(toSendBuf) && wire == old(wire) && demo == old(demo) &&
                (socket != null ==> socket.written == old(socket.written))
      ensures |buf| <= MaxMsgChars ==>
                sent == old(sent) + LengthPrefixed(buf) &&
                ParseFrame(sent[|old(sent)|..]) == Some((buf, []))
      ensures |buf| <= MaxMsgChars && socket == null ==>
                toSendBuf == old(toSendBuf) + LengthPrefixed(buf) && wire == old(wire) && demo == old(demo)
      ensures |buf| <= MaxMsgChars && socket != null ==>
                toSendBuf == [] &&
                socket.written == old(socket.written) + old(toSendBuf) + LengthPrefixed(buf) &&
                wire == old(wire) + old(toSendBuf) + LengthPrefixed(buf)
    {
      if |buf| > MaxMsgChars {
        return;
      }
      RawSendIPC(LengthPrefixed(buf));
      ParseFrameOfLengthPrefixed(buf, []);
      assert sent[|old(sent)|..] == LengthPrefixed(buf) + [];
    }
  }

  /** One round of Start's preemption: taking off a preemptible tail and
      retrying admits the session to the same list. */
  lemma PopPreemptible(q: seq<Session>)
    requires q != [] && q[|q| - 1].removable
    ensures var k, p := KeptPrefix(q, true), q[..|q| - 1];
            k == KeptPrefix(p, true) && p[..k] == q[..k] && q[k..] == p[k..] + [q[|q| - 1]]
  {
  }

  /** The listener signalling twice accepts at most one connection and runs
      the handshake at most once, and only for a connection it accepted. */
  method NewConnectionTwice(s: Session, ctx: Registry)
    requires ctx.server != null
    modifies s, ctx.server
    ensures |ctx.server.pending| <= |old(ctx.server.pending)| <= |ctx.server.pending| + 1
    ensures s.handshakes - old(s.handshakes) == |old(ctx.server.pending)| - |ctx.server.pending|
  {
    s.NewConnection(ctx);
    s.NewConnection(ctx);
  }

  /** Nothing stops isReadyNow() from firing twice: an engine that connected
      and then crashed reports a process error and also drops its socket, and
      each slot runs the whole teardown. */
  method CrashAfterConnect(s: Session, code: int)
    modifies s, s.Held()
    ensures s.readyEmitted == old(s.readyEmitted) + 2
    ensures s.disconnectsHandled == old(s.disconnectsHandled) + 2
  {
    s.StartProcessError(code);
    s.ClientDisconnect();
  }

  /** Start keeps srvsList chained when the session joining it is new and not
      yet started: only the head can be running, with or without preemption. */
  method StartKeepsChain(s: Session, ctx: Registry, couldCancel: bool)
    requires Chained(ctx.srvs) && s !in ctx.srvs && !s.hasStarted
    modifies ctx`srvs, ctx.srvs`disposed
    modifies s`listening, s`socket, s`hasStarted, s`waitingOn
    ensures Chained(ctx.srvs) && StartedCount(ctx.srvs) <= 1
  {
    ghost var q := ctx.srvs;
    s.Start(ctx, couldCancel);
    ghost var k := KeptPrefix(q, couldCancel);
    forall i | 0 < i < |ctx.srvs|
      ensures ctx.srvs[i].waitingOn == ctx.srvs[i - 1] && !ctx.srvs[i].hasStarted
    {
      if i < k {
        assert ctx.srvs[i] == q[i] && ctx.srvs[i - 1] == q[i - 1];
      }
    }
    ChainedAtMostOneStarted(ctx.srvs);
  }

  /** Without preemption every request goes to the tail and nothing already
      queued moves: the list is the requests in the order they were made. */
  lemma {:induction false} AdmitAllInOrder(q: seq<Session>, reqs: seq<Session>)
    ensures AdmitAll(q, reqs) == q + reqs
    decreases |reqs|
  {
    if reqs != [] {
      assert q[..|q|] == q;
      assert Admitted(q, reqs[0], false) == q + [reqs[0]];
      AdmitAllInOrder(q + [reqs[0]], reqs[1..]);
      assert q + [reqs[0]] + reqs[1..] == q + reqs;
    }
  }

  /** A new request starts at once exactly when every queued request can be
      taken off — preemption allowed and couldBeRemoved() true for each, even
      for a head that is already running. */
  lemma StartsAtOnce(q: seq<Session>, couldCancel: bool)
    ensures KeptPrefix(q, couldCancel) == 0 <==>
            forall i :: 0 <= i < |q| ==> couldCancel && q[i].removable
  {
    var k := KeptPrefix(q, couldCancel);
    if k == 0 {
      if q != [] {
        assert couldCancel;
      }
    } else {
      var last := q[k - 1];
      assert !(couldCancel && last.removable);
    }
  }

  /** A preemptible waiting tail behind a request that is not preemptible is
      replaced by the new request; everything before it keeps its place. */
  lemma PreemptReplacesTail(q: seq<Session>, s: Session)
    requires 2 <= |q| && q[|q| - 1].removable && !q[|q| - 2].removable
    ensures Admitted(q, s, true) == q[..|q| - 1] + [s]
  {
  }

  /** A request that was not queued ends up in the list exactly once, at its
      tail. */
  lemma AdmittedOnce(q: seq<Session>, s: Session, couldCancel: bool)
    requires s !in q
    ensures var r := Admitted(q, s, couldCancel); r[|r| - 1] == s && multiset(r)[s] == 1
  {
  }

  /** The destructor undoes Start: removing the session leaves the surviving
      part of the list as it was. */
  lemma RemoveAdmitted(q: seq<Session>, s: Session, couldCancel: bool)
    requires s !in q
    ensures RemoveOne(Admitted(q, s, couldCancel), s) == q[..KeptPrefix(q, couldCancel)]
  {
  }
}
