/** The bookkeeping of a single-hop SSH port-forwarding tunnel: which
    connections it tracks, how many times it dials the SSH server, and
    what it closes on shutdown. Sockets, goroutines and the SSH library
    are outside the model: whether listening succeeds and on which port,
    the outcome of each dial and of each Close(), and the order in which
    connections and the close signal arrive are inputs. Every call the
    tunnel makes into the network libraries is recorded, in order, in
    `Calls`, and every log line it writes in `Logged`. */
module Tunnel {
  import opened Wrappers
  import opened GoLib
  import opened Endpoints
  import opened TunnelTraces

  /** The authentication capability handed to the SSH library. */
  datatype AuthMethod = AuthMethod(id: nat)

  /** The parts of ssh.ClientConfig the tunnel fills in. */
  datatype ClientConfig = ClientConfig(User: string, Auth: seq<AuthMethod>)

  /** The SSH server endpoint: port 22 when none was given. */
  function WithDefaultPort(e: Endpoint): (r: Endpoint)
    ensures r.Host == e.Host && r.User == e.User
    ensures r.Port != 0
    ensures e.Port != 0 ==> r.Port == e.Port
    ensures e.Port == 0 ==> r.Port == 22
  {
    if e.Port == 0 then e.(Port := 22) else e
  }

  /** The local endpoint of a new tunnel: localhost and the decimal value
      of the port text; "0" asks the system for a free port. */
  lemma LocalEndpoint(localport: string)
    requires |localport| > 0 && AllDigits(localport) && DecimalValue(localport) <= MaxInt64
    ensures NewEndpoint("localhost:" + localport) == Endpoint("localhost", DecimalValue(localport), "")
  {
    DigitsExclude(localport, '@');
    DigitsExclude(localport, ':');
    DigitsExclude(localport, '[');
    DigitsExclude(localport, ']');
    AtoiDigits(localport);
    HostAndPort("localhost", localport);
    assert "localhost" + ":" == "localhost:";
  }

  // ---------------------------------------------------------------------
  // The tunnel

  class SSHTunnel {
    var Local: Endpoint
    var Server: Endpoint
    var Remote: Endpoint
    var Config: ClientConfig
    /** Whether a logger is set (Log != nil). */
    var HasLog: bool
    var Conns: seq<Conn>
    var SvrConns: seq<Client>
    var MaxConnectionAttempts: int
    var isOpen: bool
    /** The calls made into the network libraries, in order. */
    var Calls: seq<Call>
    /** The log lines written, in order. */
    var Logged: seq<LogMsg>

    /** NewSSHTunnel: the local endpoint is localhost on `localport`, the
        server endpoint gets port 22 when it names none, and the SSH user
        is the server endpoint's user. Parsing cannot fail, so neither can
        this. */
    constructor (tunnel: string, auth: AuthMethod, destination: string, localport: string)
      ensures Local == NewEndpoint("localhost:" + localport)
      ensures Server == WithDefaultPort(NewEndpoint(tunnel))
      ensures Remote == NewEndpoint(destination)
      ensures Config == ClientConfig(NewEndpoint(tunnel).User, [auth])
      ensures !HasLog && !isOpen && MaxConnectionAttempts == 0
      ensures Conns == [] && SvrConns == []
      ensures Calls == [] && Logged == []
    {
      var server := NewEndpoint(tunnel);
      if server.Port == 0 {
        server := server.(Port := 22);
      }
      Local := NewEndpoint("localhost:" + localport);
      Server := server;
      Remote := NewEndpoint(destination);
      Config := ClientConfig(server.User, [auth]);
      HasLog := false;
      Conns := [];
      SvrConns := [];
      MaxConnectionAttempts := 0;
      isOpen := false;
      Calls := [];
      Logged := [];
    }

    /** logf: writes only when a logger is set. */
    method Logf(msg: LogMsg)
      modifies this`Logged
      ensures Logged == old(Logged) + LogIf(HasLog, [msg])
    {
      if HasLog {
        Logged := Logged + [msg];
      }
    }

    /** Start: listens on the local endpoint's address (`bound` is the port
        the listener got, None when listening failed), serves, and closes
        the listener when Serve returns. A listen error is logged and
        returned. */
    method Start(bound: Option<int>, events: seq<Event>,
                 connResults: seq<CloseResult>, clientResults: seq<CloseResult>)
      returns (failed: bool)
      requires bound.Some? ==> CloseSignal in events
      requires bound.Some? ==> |connResults| == |Conns| + FirstClose(events)
      requires bound.Some? ==> |clientResults| == |SvrConns|
      modifies this`isOpen, this`Local, this`MaxConnectionAttempts, this`Conns,
               this`Calls, this`Logged
      ensures failed <==> bound.None?
      ensures failed ==> Calls == old(Calls) + [Listen(Local)]
      ensures failed ==> Logged == old(Logged) + LogIf(HasLog, [ListenError])
      ensures failed ==> unchanged(this`isOpen, this`Local, this`MaxConnectionAttempts, this`Conns)
      ensures !failed ==> !isOpen && Local == old(Local).(Port := bound.value)
      ensures !failed ==> MaxConnectionAttempts == Budget(old(MaxConnectionAttempts))
      ensures !failed ==> Conns == old(Conns) + AcceptedBeforeClose(events)
      ensures !failed ==> (Calls == old(Calls) + [Listen(old(Local))]
        + ConnCloses(Conns, |Conns|) + ClientCloses(SvrConns, |SvrConns|) + [Close(Listener)])
      ensures !failed ==> Logged == old(Logged) + LogIf(HasLog,
        LoopLog(events, FirstClose(events) + 1, Local.Host, Local.Port)
        + TeardownLog(connResults, clientResults, |Conns|, |SvrConns|))
    {
      Calls := Calls + [Listen(Local)];
      if bound.None? {
        Logf(ListenError);
        return true;
      }
      Serve(bound.value, events, connResults, clientResults);
      Calls := Calls + [Close(Listener)];
      return false;
    }

    /** Serve: opens the tunnel, runs the accept loop until the close
        signal, then closes every tracked connection. It returns nil in
        every case. Forward workers are not run here: the caller runs
        Forward for each accepted connection, in any interleaving, and
        ServeAndForward is one such run. */
    method Serve(boundPort: int, events: seq<Event>,
                 connResults: seq<CloseResult>, clientResults: seq<CloseResult>)
      requires CloseSignal in events
      requires |connResults| == |Conns| + FirstClose(events)
      requires |clientResults| == |SvrConns|
      modifies this`isOpen, this`Local, this`MaxConnectionAttempts, this`Conns,
               this`Calls, this`Logged
      ensures !isOpen && Local == old(Local).(Port := boundPort)
      ensures MaxConnectionAttempts == Budget(old(MaxConnectionAttempts))
      ensures Conns == old(Conns) + AcceptedBeforeClose(events)
      ensures Calls == old(Calls) + ConnCloses(Conns, |Conns|) + ClientCloses(SvrConns, |SvrConns|)
      ensures Logged == old(Logged) + LogIf(HasLog,
        LoopLog(events, FirstClose(events) + 1, Local.Host, Local.Port)
        + TeardownLog(connResults, clientResults, |Conns|, |SvrConns|))
    {
      OpenAndAccept(boundPort, events);
      AcceptedBeforeCloseSpec(events);
      ghost var looped := LoopLog(events, FirstClose(events) + 1, Local.Host, Local.Port);
      Teardown(connResults, clientResults);
      LogAppend(HasLog, old(Logged), looped, TeardownLog(connResults, clientResults, |Conns|, |SvrConns|));
    }

    /** Serve with the forward workers run to completion after the close
        signal and before the teardown, one of the interleavings the
        goroutines allow. `ws[j]` is what the network does for the worker
        of the j-th accepted connection. The teardown then closes every
        session the workers tracked: ShutdownCloseCounts counts them, one
        per worker that reached the SSH server. */
    method ServeAndForward(boundPort: int, events: seq<Event>, ws: seq<WorkerOutcome>,
                           connResults: seq<CloseResult>, clientResults: seq<CloseResult>)
      requires CloseSignal in events
      requires |ws| == FirstClose(events)
      requires forall j :: 0 <= j < |ws| ==> ws[j].local == AcceptedBeforeClose(events)[j]
      requires forall j :: 0 <= j < |ws| ==> |ws[j].dials| == Budget(MaxConnectionAttempts)
      requires |connResults| == |Conns| + |ws| + |RemoteConns(ws, |ws|)|
      requires |clientResults| == |SvrConns| + |Sessions(ws, |ws|)|
      modifies this`isOpen, this`Local, this`MaxConnectionAttempts, this`Conns, this`SvrConns,
               this`Calls, this`Logged
      ensures !isOpen && Local == old(Local).(Port := boundPort)
      ensures MaxConnectionAttempts == Budget(old(MaxConnectionAttempts))
      ensures Conns == old(Conns) + AcceptedBeforeClose(events) + RemoteConns(ws, |ws|)
      ensures SvrConns == old(SvrConns) + Sessions(ws, |ws|)
      ensures Calls == old(Calls) + WorkersCalls(ws, |ws|, Server, Config.User, Remote)
        + ConnCloses(Conns, |Conns|) + ClientCloses(SvrConns, |SvrConns|)
      ensures Logged == old(Logged) + LogIf(HasLog,
        LoopLog(events, FirstClose(events) + 1, Local.Host, Local.Port)
        + (WorkersLog(ws, |ws|, MaxConnectionAttempts, Server, Remote)
           + TeardownLog(connResults, clientResults, |Conns|, |SvrConns|)))
    {
      OpenAndAccept(boundPort, events);
      assert Budget(MaxConnectionAttempts) == Budget(old(MaxConnectionAttempts));
      ghost var looped := LoopLog(events, FirstClose(events) + 1, Local.Host, Local.Port);
      ForwardAndTeardown(ws, connResults, clientResults);
      LogAppend(HasLog, old(Logged), looped, WorkersLog(ws, |ws|, MaxConnectionAttempts, Server, Remote)
        + TeardownLog(connResults, clientResults, |Conns|, |SvrConns|));
    }

    /** The workers, then the teardown sweep. */
    method ForwardAndTeardown(ws: seq<WorkerOutcome>, connResults: seq<CloseResult>, clientResults: seq<CloseResult>)
      requires forall j :: 0 <= j < |ws| ==> |ws[j].dials| == Budget(MaxConnectionAttempts)
      requires |connResults| == |Conns| + |RemoteConns(ws, |ws|)|
      requires |clientResults| == |SvrConns| + |Sessions(ws, |ws|)|
      modifies this`Conns, this`SvrConns, this`Calls, this`Logged
      ensures Conns == old(Conns) + RemoteConns(ws, |ws|)
      ensures SvrConns == old(SvrConns) + Sessions(ws, |ws|)
      ensures Calls == old(Calls) + WorkersCalls(ws, |ws|, Server, Config.User, Remote)
        + ConnCloses(Conns, |Conns|) + ClientCloses(SvrConns, |SvrConns|)
      ensures Logged == old(Logged) + LogIf(HasLog, WorkersLog(ws, |ws|, MaxConnectionAttempts, Server, Remote)
        + TeardownLog(connResults, clientResults, |Conns|, |SvrConns|))
    {
      RunWorkers(ws);
      ghost var worked := WorkersLog(ws, |ws|, MaxConnectionAttempts, Server, Remote);
      Teardown(connResults, clientResults);
      LogAppend(HasLog, old(Logged), worked, TeardownLog(connResults, clientResults, |Conns|, |SvrConns|));
    }

    /** Serve up to the end of its accept loop. */
    method OpenAndAccept(boundPort: int, events: seq<Event>)
      requires CloseSignal in events
      modifies this`isOpen, this`Local, this`MaxConnectionAttempts, this`Conns, this`Logged
      ensures !isOpen && Local == old(Local).(Port := boundPort)
      ensures MaxConnectionAttempts == Budget(old(MaxConnectionAttempts))
      ensures Conns == old(Conns) + AcceptedBeforeClose(events)
      ensures Logged == old(Logged) + LogIf(HasLog, LoopLog(events, FirstClose(events) + 1, Local.Host, Local.Port))
    {
      Open(boundPort);
      AcceptLoop(events);
    }

    /** The start of Serve: the tunnel is open, the local endpoint takes
        the port the listener is bound to, and the attempt budget is at
        least 1. */
    method Open(boundPort: int)
      modifies this`isOpen, this`Local, this`MaxConnectionAttempts
      ensures isOpen
      ensures Local == old(Local).(Port := boundPort)
      ensures MaxConnectionAttempts == Budget(old(MaxConnectionAttempts))
    {
      isOpen := true;
      Local := Local.(Port := boundPort);
      if MaxConnectionAttempts <= 0 {
        MaxConnectionAttempts := 1;
      }
    }

    /** The accept loop: each accepted connection is tracked, in
        acceptance order; the first close signal closes the
        tunnel and ends the loop, and later events are never looked at. */
    method AcceptLoop(events: seq<Event>)
      requires isOpen && CloseSignal in events
      modifies this`isOpen, this`Conns, this`Logged
      ensures !isOpen
      ensures Conns == old(Conns) + AcceptedBeforeClose(events)
      ensures Logged == old(Logged) + LogIf(HasLog, LoopLog(events, FirstClose(events) + 1, Local.Host, Local.Port))
    {
      var last := FirstClose(events);
      var i := 0;
      while isOpen
        invariant i <= last + 1 && (isOpen <==> i <= last)
        invariant Conns == old(Conns) + AcceptedConns(events, i)
        invariant Logged == old(Logged) + LogIf(HasLog, LoopLog(events, i, Local.Host, Local.Port))
        decreases |events| - i
      {
        LogAppend(HasLog, old(Logged), LoopLog(events, i, Local.Host, Local.Port),
                  EventLog(events[i], Local.Host, Local.Port));
        AcceptStep(events[i]);
        i := i + 1;
      }
    }

    /** One turn of the accept loop: a close signal closes the tunnel; an
        accepted connection is tracked. */
    method AcceptStep(e: Event)
      modifies this`isOpen, this`Conns, this`Logged
      ensures isOpen == (old(isOpen) && e.Accept?)
      ensures Conns == old(Conns) + EventConns(e)
      ensures Logged == old(Logged) + LogIf(HasLog, EventLog(e, Local.Host, Local.Port))
    {
      Logf(Listening(Local.Host, Local.Port));
      match e
      case CloseSignal =>
        Logf(CloseReceived);
        isOpen := false;
      case Accept(conn) =>
        Conns := Conns + [conn];
        Logf(Accepted(conn));
    }

    /** The teardown sweep: Close once on every tracked connection, in
        order, then on every SSH session, in order, carrying on past any
        error. An already-closed connection is not reported. */
    method Teardown(connResults: seq<CloseResult>, clientResults: seq<CloseResult>)
      requires |connResults| == |Conns| && |clientResults| == |SvrConns|
      modifies this`Calls, this`Logged
      ensures Calls == old(Calls) + ConnCloses(Conns, |Conns|) + ClientCloses(SvrConns, |SvrConns|)
      ensures Logged == old(Logged) + LogIf(HasLog, TeardownLog(connResults, clientResults, |Conns|, |SvrConns|))
    {
      ghost var first := ConnSweepLog(connResults, |Conns|, |Conns|);
      ghost var second := ServerSweepLog(clientResults, |SvrConns|, |SvrConns|);
      CloseConns(connResults);
      CloseServerConns(clientResults);
      LogAppend(HasLog, old(Logged), first, second);
      Logf(TunnelClosed);
      LogAppend(HasLog, old(Logged), first + second, [TunnelClosed]);
    }

    /** The sweep over the tracked connections. */
    method CloseConns(results: seq<CloseResult>)
      requires |results| == |Conns|
      modifies this`Calls, this`Logged
      ensures Calls == old(Calls) + ConnCloses(Conns, |Conns|)
      ensures Logged == old(Logged) + LogIf(HasLog, ConnSweepLog(results, |Conns|, |Conns|))
    {
      var total := |Conns|;
      for i := 0 to total
        invariant Calls == old(Calls) + ConnCloses(Conns, i)
        invariant Logged == old(Logged) + LogIf(HasLog, ConnSweepLog(results, i, total))
      {
        ghost var msgs := ConnSweepLog(results, i, total);
        Logf(ClosingConn(i + 1, total));
        LogAppend(HasLog, old(Logged), msgs, [ClosingConn(i + 1, total)]);
        Calls := Calls + [Close(NetConn(Conns[i]))];
        if results[i] == CloseFailed {
          Logf(CloseError);
          LogAppend(HasLog, old(Logged), msgs + [ClosingConn(i + 1, total)], [CloseError]);
        }
      }
    }

    /** The sweep over the SSH sessions. */
    method CloseServerConns(results: seq<CloseResult>)
      requires |results| == |SvrConns|
      modifies this`Calls, this`Logged
      ensures Calls == old(Calls) + ClientCloses(SvrConns, |SvrConns|)
      ensures Logged == old(Logged) + LogIf(HasLog, ServerSweepLog(results, |SvrConns|, |SvrConns|))
    {
      var total := |SvrConns|;
      for i := 0 to total
        invariant Calls == old(Calls) + ClientCloses(SvrConns, i)
        invariant Logged == old(Logged) + LogIf(HasLog, ServerSweepLog(results, i, total))
      {
        ghost var msgs := ServerSweepLog(results, i, total);
        Logf(ClosingServerConn(i + 1, total));
        LogAppend(HasLog, old(Logged), msgs, [ClosingServerConn(i + 1, total)]);
        Calls := Calls + [Close(SshClient(SvrConns[i]))];
        if results[i] != Closed {
          Logf(CloseError);
          LogAppend(HasLog, old(Logged), msgs + [ClosingServerConn(i + 1, total)], [CloseError]);
        }
      }
    }

    /** forward: dial the SSH server until a dial succeeds or the budget
        is spent (`dialResults` holds one outcome per attempt the budget
        allows). When every dial fails the local connection is closed and
        nothing is tracked. Otherwise the session is tracked, and the
        remote destination is dialled through it once: on failure the
        session and then the local connection are closed, on success the
        remote connection is tracked. The byte relay is not modelled. */
    method Forward(localConn: Conn, dialResults: seq<Option<Client>>, remoteResult: Option<Conn>,
                   serverCloseResult: CloseResult, localCloseResult: CloseResult)
      returns (attempts: nat)
      requires |dialResults| == Budget(MaxConnectionAttempts)
      modifies this`SvrConns, this`Conns, this`Calls, this`Logged
      ensures var k := FirstSuccess(dialResults);
        attempts == if k < |dialResults| then k + 1 else |dialResults|
      ensures FirstSuccess(dialResults) == |dialResults| ==>
        && SvrConns == old(SvrConns) && Conns == old(Conns)
        && Calls == old(Calls) + Dials(|dialResults|, Server, Config.User) + [Close(NetConn(localConn))]
        && Logged == old(Logged) + LogIf(HasLog, RetryLog(|dialResults| - 1, MaxConnectionAttempts)
             + ExhaustedLog(MaxConnectionAttempts, localCloseResult))
      ensures var k := FirstSuccess(dialResults);
        k < |dialResults| ==>
          var client := dialResults[k].value;
          && SvrConns == old(SvrConns) + [client]
          && Conns == old(Conns) + (if remoteResult.Some? then [remoteResult.value] else [])
          && Calls == old(Calls) + Dials(k + 1, Server, Config.User)
               + RemoteCalls(client, Remote, remoteResult, localConn)
          && Logged == old(Logged) + LogIf(HasLog, RetryLog(k, MaxConnectionAttempts)
               + ConnectLog(Server, Remote, remoteResult, serverCloseResult, localCloseResult))
    {
      var client;
      client, attempts := DialServer(localConn, dialResults, localCloseResult);
      if client.None? {
        return;
      }
      ghost var retries := RetryLog(attempts - 1, MaxConnectionAttempts);
      ConnectRemote(localConn, client.value, remoteResult, serverCloseResult, localCloseResult);
      LogAppend(HasLog, old(Logged), retries,
                ConnectLog(Server, Remote, remoteResult, serverCloseResult, localCloseResult));
    }

    /** One forward worker, with its outcomes gathered in `w`. */
    method RunWorker(w: WorkerOutcome)
      requires |w.dials| == Budget(MaxConnectionAttempts)
      modifies this`SvrConns, this`Conns, this`Calls, this`Logged
      ensures SvrConns == old(SvrConns) + Session(w)
      ensures Conns == old(Conns) + RemoteConn(w)
      ensures Calls == old(Calls) + ForwardCalls(w, Server, Config.User, Remote)
      ensures Logged == old(Logged) + LogIf(HasLog, ForwardLog(w, MaxConnectionAttempts, Server, Remote))
    {
      var _ := Forward(w.local, w.dials, w.remote, w.serverClose, w.localClose);
    }

    /** The workers, run to completion one after another. */
    method RunWorkers(ws: seq<WorkerOutcome>)
      requires forall j :: 0 <= j < |ws| ==> |ws[j].dials| == Budget(MaxConnectionAttempts)
      modifies this`SvrConns, this`Conns, this`Calls, this`Logged
      ensures SvrConns == old(SvrConns) + Sessions(ws, |ws|)
      ensures Conns == old(Conns) + RemoteConns(ws, |ws|)
      ensures Calls == old(Calls) + WorkersCalls(ws, |ws|, Server, Config.User, Remote)
      ensures Logged == old(Logged) + LogIf(HasLog, WorkersLog(ws, |ws|, MaxConnectionAttempts, Server, Remote))
    {
      for i := 0 to |ws|
        invariant SvrConns == old(SvrConns) + Sessions(ws, i)
        invariant Conns == old(Conns) + RemoteConns(ws, i)
        invariant Calls == old(Calls) + WorkersCalls(ws, i, Server, Config.User, Remote)
        invariant Logged == old(Logged) + LogIf(HasLog, WorkersLog(ws, i, MaxConnectionAttempts, Server, Remote))
      {
        NextWorker(ws, i, old(SvrConns), old(Conns), old(Calls), old(Logged));
      }
    }

    /** The (i+1)-th worker runs after the first i. */
    method NextWorker(ws: seq<WorkerOutcome>, i: nat, ghost svr0: seq<Client>, ghost conns0: seq<Conn>,
                      ghost calls0: seq<Call>, ghost logged0: seq<LogMsg>)
      requires i < |ws| && |ws[i].dials| == Budget(MaxConnectionAttempts)
      requires SvrConns == svr0 + Sessions(ws, i)
      requires Conns == conns0 + RemoteConns(ws, i)
      requires Calls == calls0 + WorkersCalls(ws, i, Server, Config.User, Remote)
      requires Logged == logged0 + LogIf(HasLog, WorkersLog(ws, i, MaxConnectionAttempts, Server, Remote))
      modifies this`SvrConns, this`Conns, this`Calls, this`Logged
      ensures SvrConns == svr0 + Sessions(ws, i + 1)
      ensures Conns == conns0 + RemoteConns(ws, i + 1)
      ensures Calls == calls0 + WorkersCalls(ws, i + 1, Server, Config.User, Remote)
      ensures Logged == logged0 + LogIf(HasLog, WorkersLog(ws, i + 1, MaxConnectionAttempts, Server, Remote))
    {
      var w := ws[i];
      RunWorker(w);
      AppendAssoc(svr0, Sessions(ws, i), Session(w));
      AppendAssoc(conns0, RemoteConns(ws, i), RemoteConn(w));
      AppendAssoc(calls0, WorkersCalls(ws, i, Server, Config.User, Remote), ForwardCalls(w, Server, Config.User, Remote));
      LogAppend(HasLog, logged0, WorkersLog(ws, i, MaxConnectionAttempts, Server, Remote),
                ForwardLog(w, MaxConnectionAttempts, Server, Remote));
    }

    /** The retry loop of forward: dial until a dial succeeds, and give up
        once the budget is spent. A None result means forward gave up. */
    method DialServer(localConn: Conn, dialResults: seq<Option<Client>>, localCloseResult: CloseResult)
      returns (client: Option<Client>, attempts: nat)
      requires |dialResults| == Budget(MaxConnectionAttempts)
      modifies this`Calls, this`Logged
      ensures var k := FirstSuccess(dialResults);
        attempts == if k < |dialResults| then k + 1 else |dialResults|
      ensures FirstSuccess(dialResults) == |dialResults| ==>
        && client.None?
        && Calls == old(Calls) + Dials(|dialResults|, Server, Config.User) + [Close(NetConn(localConn))]
        && Logged == old(Logged) + LogIf(HasLog, RetryLog(|dialResults| - 1, MaxConnectionAttempts)
             + ExhaustedLog(MaxConnectionAttempts, localCloseResult))
      ensures FirstSuccess(dialResults) < |dialResults| ==>
        && client == dialResults[FirstSuccess(dialResults)]
        && Calls == old(Calls) + Dials(attempts, Server, Config.User)
        && Logged == old(Logged) + LogIf(HasLog, RetryLog(attempts - 1, MaxConnectionAttempts))
    {
      var budget := |dialResults|;
      var attemptsLeft := MaxConnectionAttempts;
      attempts := 0;
      while true
        invariant attempts < budget && attempts <= FirstSuccess(dialResults)
        invariant attemptsLeft == MaxConnectionAttempts - attempts
        invariant Calls == old(Calls) + Dials(attempts, Server, Config.User)
        invariant Logged == old(Logged) + LogIf(HasLog, RetryLog(attempts, MaxConnectionAttempts))
        decreases budget - attempts
      {
        Calls := Calls + [SSHDial(Server, Config.User)];
        client := dialResults[attempts];
        attempts := attempts + 1;
        if client.Some? {
          return;
        }
        attemptsLeft := attemptsLeft - 1;
        if attemptsLeft <= 0 {
          GiveUp(localConn, localCloseResult);
          LogAppend(HasLog, old(Logged), RetryLog(attempts - 1, MaxConnectionAttempts),
                    ExhaustedLog(MaxConnectionAttempts, localCloseResult));
          return;
        }
        Logf(DialRetry(MaxConnectionAttempts - attemptsLeft, MaxConnectionAttempts));
        LogAppend(HasLog, old(Logged), RetryLog(attempts - 1, MaxConnectionAttempts),
                  [DialRetry(attempts, MaxConnectionAttempts)]);
      }
    }

    /** Giving up on the SSH server: the local connection is closed, and
        the log says why, or that closing it failed. */
    method GiveUp(localConn: Conn, localCloseResult: CloseResult)
      modifies this`Calls, this`Logged
      ensures Calls == old(Calls) + [Close(NetConn(localConn))]
      ensures Logged == old(Logged) + LogIf(HasLog, ExhaustedLog(MaxConnectionAttempts, localCloseResult))
    {
      Logf(DialExhausted(MaxConnectionAttempts));
      Calls := Calls + [Close(NetConn(localConn))];
      var msg := if localCloseResult != Closed then LocalCloseFailed else DialFailedClosingLocal;
      Logf(msg);
      LogAppend(HasLog, old(Logged), [DialExhausted(MaxConnectionAttempts)], [msg]);
    }

    /** The part of forward after the SSH dial succeeded: the session is
        tracked and the remote destination dialled through it; on failure
        the session and then the local connection are closed, on success
        the remote connection is tracked. */
    method ConnectRemote(localConn: Conn, client: Client, remoteResult: Option<Conn>,
                         serverCloseResult: CloseResult, localCloseResult: CloseResult)
      modifies this`SvrConns, this`Conns, this`Calls, this`Logged
      ensures SvrConns == old(SvrConns) + [client]
      ensures Conns == old(Conns) + (if remoteResult.Some? then [remoteResult.value] else [])
      ensures Calls == old(Calls) + RemoteCalls(client, Remote, remoteResult, localConn)
      ensures Logged == old(Logged) + LogIf(HasLog,
        ConnectLog(Server, Remote, remoteResult, serverCloseResult, localCloseResult))
    {
      Logf(ConnectedServer(Server));
      SvrConns := SvrConns + [client];
      Calls := Calls + [RemoteDial(client, Remote)];
      if remoteResult.None? {
        Logf(RemoteDialFailed);
        LogAppend(HasLog, old(Logged), [ConnectedServer(Server)], [RemoteDialFailed]);
        assert [ConnectedServer(Server)] + [RemoteDialFailed] == [ConnectedServer(Server), RemoteDialFailed];
        Abandon(localConn, client, serverCloseResult, localCloseResult);
        LogAppend(HasLog, old(Logged), [ConnectedServer(Server), RemoteDialFailed],
                  CleanupLog(serverCloseResult, localCloseResult));
      } else {
        Conns := Conns + [remoteResult.value];
        Logf(ConnectedRemote(Remote));
        LogAppend(HasLog, old(Logged), [ConnectedServer(Server)], [ConnectedRemote(Remote)]);
        assert [ConnectedServer(Server)] + [ConnectedRemote(Remote)] == [ConnectedServer(Server), ConnectedRemote(Remote)];
      }
    }

    /** After a failed remote dial: Close the session, then the local
        connection, logging each failure and carrying on. */
    method Abandon(localConn: Conn, client: Client, serverCloseResult: CloseResult, localCloseResult: CloseResult)
      modifies this`Calls, this`Logged
      ensures Calls == old(Calls) + [Close(SshClient(client)), Close(NetConn(localConn))]
      ensures Logged == old(Logged) + LogIf(HasLog, CleanupLog(serverCloseResult, localCloseResult))
    {
      Calls := Calls + [Close(SshClient(client))];
      ghost var serverMsgs := if serverCloseResult != Closed then [ServerCloseFailed] else [];
      if serverCloseResult != Closed {
        Logf(ServerCloseFailed);
      }
      Calls := Calls + [Close(NetConn(localConn))];
      ghost var localMsgs := if localCloseResult != Closed then [LocalCloseFailed] else [];
      if localCloseResult != Closed {
        Logf(LocalCloseFailed);
      }
      LogAppend(HasLog, old(Logged), serverMsgs, localMsgs);
    }
  }
}
