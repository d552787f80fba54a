/** What an SSH tunnel does, as traces: the calls it makes into the
    network libraries and the lines it logs, as functions of what the
    network does. The tunnel class in module Tunnel is proved to produce
    exactly these traces. */
module TunnelTraces {
  import opened Wrappers
  import opened Endpoints

  /** A net.Conn: an accepted local connection, or a remote one opened
      through an SSH session. Only its identity matters here. */
  datatype Conn = Conn(id: nat)

  /** An *ssh.Client: one SSH session with the server. */
  datatype Client = Client(id: nat)

  /** What one turn of the accept loop's select observes. */
  datatype Event = Accept(conn: Conn) | CloseSignal

  /** The outcome of one Close() call: success, the "use of closed network
      connection" error, or any other error. */
  datatype CloseResult = Closed | AlreadyClosed | CloseFailed

  /** Something the tunnel closes. */
  datatype Handle = Listener | NetConn(conn: Conn) | SshClient(client: Client)

  /** A call into the network libraries. A call to an endpoint goes to
      that endpoint's address, its String(). */
  datatype Call =
    | Listen(local: Endpoint)
    | SSHDial(server: Endpoint, user: string)
    | RemoteDial(client: Client, remote: Endpoint)
    | Close(handle: Handle)

  /** The log lines the tunnel writes, by kind; their text is not modelled. */
  datatype LogMsg =
    | ListenError
    | Listening(host: string, port: int)
    | CloseReceived
    | Accepted(conn: Conn)
    | ClosingConn(index: nat, total: nat)
    | ClosingServerConn(index: nat, total: nat)
    | CloseError
    | TunnelClosed
    | DialRetry(attempt: int, max: int)
    | DialExhausted(max: int)
    | LocalCloseFailed
    | DialFailedClosingLocal
    | ConnectedServer(server: Endpoint)
    | RemoteDialFailed
    | ServerCloseFailed
    | ConnectedRemote(remote: Endpoint)

  // ---------------------------------------------------------------------
  // Specification functions

  /** What logf writes: the messages when a logger is set, nothing when
      it is nil. */
  function LogIf(hasLog: bool, msgs: seq<LogMsg>): seq<LogMsg>
  {
    if hasLog then msgs else []
  }

  /** The attempt budget: Serve raises a budget below 1 to 1 and keeps
      any other; forward dials that many times at most. */
  function Budget(max: int): (b: nat)
    ensures b >= 1
    ensures max >= 1 ==> b == max
    ensures max < 1 ==> b == 1
  {
    if max <= 0 then 1 else max
  }

  /** Position of the first close signal. */
  function FirstClose(events: seq<Event>): (k: nat)
    requires CloseSignal in events
    ensures k < |events| && events[k] == CloseSignal
    ensures forall j :: 0 <= j < k ==> events[j].Accept?
  {
    if events[0] == CloseSignal then 0
    else
      assert events[1..][FirstClose(events[1..])] == events[1 + FirstClose(events[1..])];
      1 + FirstClose(events[1..])
  }

  /** The connection an event brings, if any. */
  function EventConns(e: Event): seq<Conn>
  {
    match e
    case Accept(c) => [c]
    case CloseSignal => []
  }

  /** The connections brought by the first `n` events, in order. */
  function AcceptedConns(events: seq<Event>, n: nat): seq<Conn>
    requires n <= |events|
  {
    if n == 0 then [] else AcceptedConns(events, n - 1) + EventConns(events[n - 1])
  }

  /** The connections accepted before the first close signal. */
  function AcceptedBeforeClose(events: seq<Event>): (conns: seq<Conn>)
    requires CloseSignal in events
    ensures |conns| == FirstClose(events)
  {
    AcceptedConnsOfAccepts(events, FirstClose(events));
    AcceptedConns(events, FirstClose(events))
  }

  /** What the accept loop logs for one event it handles. */
  function EventLog(e: Event, host: string, port: int): seq<LogMsg>
  {
    match e
    case Accept(c) => [Listening(host, port), Accepted(c)]
    case CloseSignal => [Listening(host, port), CloseReceived]
  }

  /** What the accept loop logs for the first `n` events. */
  function LoopLog(events: seq<Event>, n: nat, host: string, port: int): seq<LogMsg>
    requires n <= |events|
  {
    if n == 0 then [] else LoopLog(events, n - 1, host, port) + EventLog(events[n - 1], host, port)
  }

  /** Close() on the first `n` connections, in order. */
  function ConnCloses(conns: seq<Conn>, n: nat): seq<Call>
    requires n <= |conns|
  {
    if n == 0 then [] else ConnCloses(conns, n - 1) + [Close(NetConn(conns[n - 1]))]
  }

  /** Close() on the first `n` SSH sessions, in order. */
  function ClientCloses(clients: seq<Client>, n: nat): seq<Call>
    requires n <= |clients|
  {
    if n == 0 then [] else ClientCloses(clients, n - 1) + [Close(SshClient(clients[n - 1]))]
  }

  /** What the sweep over the first `n` tracked connections logs: a
      progress line for each, then an error line unless it closed or was
      already closed. */
  function ConnSweepLog(results: seq<CloseResult>, n: nat, total: nat): seq<LogMsg>
    requires n <= |results|
  {
    if n == 0 then []
    else
      ConnSweepLog(results, n - 1, total) + [ClosingConn(n, total)]
        + (if results[n - 1] == CloseFailed then [CloseError] else [])
  }

  /** What the sweep over the first `n` SSH sessions logs: a progress line
      for each, then an error line for any error. */
  function ServerSweepLog(results: seq<CloseResult>, n: nat, total: nat): seq<LogMsg>
    requires n <= |results|
  {
    if n == 0 then []
    else
      ServerSweepLog(results, n - 1, total) + [ClosingServerConn(n, total)]
        + (if results[n - 1] != Closed then [CloseError] else [])
  }

  /** Position of the first successful dial, or |results| if none. */
  function FirstSuccess(results: seq<Option<Client>>): (k: nat)
    ensures k <= |results|
    ensures forall j :: 0 <= j < k ==> results[j].None?
    ensures k < |results| ==> results[k].Some?
  {
    if results == [] then 0
    else if results[0].Some? then 0
    else
      var k := FirstSuccess(results[1..]);
      assert forall j :: 1 <= j < k + 1 ==> results[j] == results[1..][j - 1];
      k + 1
  }

  /** `n` SSH dials of the same server endpoint. */
  function Dials(n: nat, server: Endpoint, user: string): seq<Call>
  {
    if n == 0 then [] else Dials(n - 1, server, user) + [SSHDial(server, user)]
  }

  /** The log lines of the first `n` failed dials that leave attempts. */
  function RetryLog(n: nat, max: int): seq<LogMsg>
  {
    if n == 0 then [] else RetryLog(n - 1, max) + [DialRetry(n, max)]
  }

  /** What forward logs when every dial failed. */
  function ExhaustedLog(max: int, localClose: CloseResult): seq<LogMsg>
  {
    [DialExhausted(max), if localClose == Closed then DialFailedClosingLocal else LocalCloseFailed]
  }

  /** What forward logs once the SSH dial succeeded: the session, then
      either the remote connection or the remote dial error followed by
      the cleanup log. */
  function ConnectLog(server: Endpoint, remoteEnd: Endpoint, remote: Option<Conn>,
                      serverClose: CloseResult, localClose: CloseResult): seq<LogMsg>
  {
    if remote.Some? then [ConnectedServer(server), ConnectedRemote(remoteEnd)]
    else [ConnectedServer(server), RemoteDialFailed] + CleanupLog(serverClose, localClose)
  }

  /** What closing the session and then the local connection logs after a
      failed remote dial: one line for each Close that fails, whatever the
      error. */
  function CleanupLog(serverClose: CloseResult, localClose: CloseResult): seq<LogMsg>
  {
    (if serverClose != Closed then [ServerCloseFailed] else [])
      + (if localClose != Closed then [LocalCloseFailed] else [])
  }

  /** The calls forward makes once the SSH dial succeeded: the remote dial
      through the session and, when it fails, Close on the session and
      then on the local connection. */
  function RemoteCalls(client: Client, remoteEnd: Endpoint, remote: Option<Conn>, local: Conn): seq<Call>
  {
    [RemoteDial(client, remoteEnd)]
      + (if remote.None? then [Close(SshClient(client)), Close(NetConn(local))] else [])
  }

  /** What the teardown sweep of Serve logs. */
  function TeardownLog(connResults: seq<CloseResult>, clientResults: seq<CloseResult>,
                       conns: nat, clients: nat): seq<LogMsg>
    requires conns <= |connResults| && clients <= |clientResults|
  {
    ConnSweepLog(connResults, conns, conns) + ServerSweepLog(clientResults, clients, clients) + [TunnelClosed]
  }

  /** What the network does for one forward worker: its local
      connection, the outcome of each SSH dial the budget allows, of the
      remote dial, and of the two Close calls after a failed remote dial. */
  datatype WorkerOutcome = WorkerOutcome(local: Conn, dials: seq<Option<Client>>, remote: Option<Conn>,
                                         serverClose: CloseResult, localClose: CloseResult)

  /** Whether the worker reached the SSH server: one of its dials succeeded. */
  predicate Reached(w: WorkerOutcome)
  {
    FirstSuccess(w.dials) < |w.dials|
  }

  /** The session a worker tracks: its first successful dial, if any. */
  function Session(w: WorkerOutcome): seq<Client>
  {
    if Reached(w) then [w.dials[FirstSuccess(w.dials)].value] else []
  }

  /** The remote connection a worker tracks, if it opened one. */
  function RemoteConn(w: WorkerOutcome): seq<Conn>
  {
    if Reached(w) && w.remote.Some? then [w.remote.value] else []
  }

  /** The calls one worker makes. */
  function ForwardCalls(w: WorkerOutcome, server: Endpoint, user: string, remoteEnd: Endpoint): seq<Call>
  {
    var k := FirstSuccess(w.dials);
    if k < |w.dials| then Dials(k + 1, server, user) + RemoteCalls(w.dials[k].value, remoteEnd, w.remote, w.local)
    else Dials(|w.dials|, server, user) + [Close(NetConn(w.local))]
  }

  /** The lines one worker logs: a retry line for every failed dial that
      leaves attempts, then what it logs on connecting or on giving up.
      The budget is at least 1, so a worker always has a dial outcome. */
  function ForwardLog(w: WorkerOutcome, max: int, server: Endpoint, remoteEnd: Endpoint): seq<LogMsg>
  {
    var k := FirstSuccess(w.dials);
    if k < |w.dials| then RetryLog(k, max) + ConnectLog(server, remoteEnd, w.remote, w.serverClose, w.localClose)
    else RetryLog(if |w.dials| > 0 then |w.dials| - 1 else 0, max) + ExhaustedLog(max, w.localClose)
  }

  /** The sessions tracked by the first `n` workers, run one after another. */
  function Sessions(ws: seq<WorkerOutcome>, n: nat): seq<Client>
    requires n <= |ws|
  {
    if n == 0 then [] else Sessions(ws, n - 1) + Session(ws[n - 1])
  }

  /** The remote connections tracked by the first `n` workers. */
  function RemoteConns(ws: seq<WorkerOutcome>, n: nat): seq<Conn>
    requires n <= |ws|
  {
    if n == 0 then [] else RemoteConns(ws, n - 1) + RemoteConn(ws[n - 1])
  }

  /** The calls of the first `n` workers. */
  function WorkersCalls(ws: seq<WorkerOutcome>, n: nat, server: Endpoint, user: string, remoteEnd: Endpoint): seq<Call>
    requires n <= |ws|
  {
    if n == 0 then [] else WorkersCalls(ws, n - 1, server, user, remoteEnd) + ForwardCalls(ws[n - 1], server, user, remoteEnd)
  }

  /** The log lines of the first `n` workers. */
  function WorkersLog(ws: seq<WorkerOutcome>, n: nat, max: int, server: Endpoint, remoteEnd: Endpoint): seq<LogMsg>
    requires n <= |ws|
  {
    if n == 0 then [] else WorkersLog(ws, n - 1, max, server, remoteEnd) + ForwardLog(ws[n - 1], max, server, remoteEnd)
  }

  /** How many of `calls` close an SSH session (`sessions`) or a net.Conn
      (`!sessions`). */
  function ClosesOf(calls: seq<Call>, sessions: bool): nat
  {
    if calls == [] then 0
    else
      var c := calls[|calls| - 1];
      ClosesOf(calls[..|calls| - 1], sessions)
        + (if c.Close? && (if sessions then c.handle.SshClient? else c.handle.NetConn?) then 1 else 0)
  }

  lemma AppendAssoc<T>(a: seq<T>, b: seq<T>, c: seq<T>)
    ensures a + b + c == a + (b + c)
  {
  }

  /** Writing more lines extends what has been written by those lines. */
  lemma LogAppend(hasLog: bool, start: seq<LogMsg>, msgs: seq<LogMsg>, more: seq<LogMsg>)
    ensures start + LogIf(hasLog, msgs) + LogIf(hasLog, more) == start + LogIf(hasLog, msgs + more)
  {
  }

  /** How many times `x` occurs in `s`. */
  function Count<T(==)>(s: seq<T>, x: T): nat
  {
    if s == [] then 0 else (if s[0] == x then 1 else 0) + Count(s[1..], x)
  }

  lemma {:induction false} CountAppend<T>(a: seq<T>, b: seq<T>, x: T)
    ensures Count(a + b, x) == Count(a, x) + Count(b, x)
  {
    if a == [] {
      assert a + b == b;
    } else {
      CountAppend(a[1..], b, x);
      assert (a + b)[1..] == a[1..] + b;
    }
  }

  /** Counting over a prefix one element longer. */
  lemma CountSnoc<T>(s: seq<T>, n: nat, x: T)
    requires 0 < n <= |s|
    ensures Count(s[..n], x) == Count(s[..n - 1], x) + (if s[n - 1] == x then 1 else 0)
  {
    assert s[..n] == s[..n - 1] + [s[n - 1]];
    CountAppend(s[..n - 1], [s[n - 1]], x);
  }

  // ---------------------------------------------------------------------
  // Properties

  /** While every event is an Accept, the accepted connections are those
      events' connections, one each, in order. */
  lemma {:induction false} AcceptedConnsOfAccepts(events: seq<Event>, n: nat)
    requires n <= |events|
    requires forall j :: 0 <= j < n ==> events[j].Accept?
    ensures |AcceptedConns(events, n)| == n
    ensures forall j :: 0 <= j < n ==> events[j] == Accept(AcceptedConns(events, n)[j])
  {
    if n > 0 {
      AcceptedConnsOfAccepts(events, n - 1);
    }
  }

  /** The tunnel tracks exactly the connections accepted before the close
      signal: one per event before it, in acceptance order. */
  lemma AcceptedBeforeCloseSpec(events: seq<Event>)
    requires CloseSignal in events
    ensures |AcceptedBeforeClose(events)| == FirstClose(events)
    ensures forall j :: 0 <= j < FirstClose(events) ==> events[j] == Accept(AcceptedBeforeClose(events)[j])
  {
    AcceptedConnsOfAccepts(events, FirstClose(events));
  }

  /** What the first `n` events produce does not depend on later ones. */
  lemma {:induction false} PrefixUnaffected(events: seq<Event>, more: seq<Event>, n: nat, host: string, port: int)
    requires n <= |events|
    ensures AcceptedConns(events + more, n) == AcceptedConns(events, n)
    ensures LoopLog(events + more, n, host, port) == LoopLog(events, n, host, port)
  {
    if n > 0 {
      PrefixUnaffected(events, more, n - 1, host, port);
      assert (events + more)[n - 1] == events[n - 1];
    }
  }

  /** Once the close signal has arrived, later connections and signals
      change nothing: the same connections are tracked and the same lines
      logged. */
  lemma LaterEventsIgnored(events: seq<Event>, more: seq<Event>, host: string, port: int)
    requires CloseSignal in events
    ensures CloseSignal in events + more
    ensures FirstClose(events + more) == FirstClose(events)
    ensures AcceptedBeforeClose(events + more) == AcceptedBeforeClose(events)
    ensures LoopLog(events + more, FirstClose(events) + 1, host, port)
         == LoopLog(events, FirstClose(events) + 1, host, port)
  {
    var k := FirstClose(events);
    assert (events + more)[k] == CloseSignal;
    assert forall j :: 0 <= j < |events| ==> (events + more)[j] == events[j];
    PrefixUnaffected(events, more, k + 1, host, port);
    PrefixUnaffected(events, more, k, host, port);
  }

  /** The connection sweep closes the first `n` connections once each, in
      order. */
  lemma {:induction false} ConnClosesSpec(conns: seq<Conn>, n: nat)
    requires n <= |conns|
    ensures |ConnCloses(conns, n)| == n
    ensures forall j :: 0 <= j < n ==> ConnCloses(conns, n)[j] == Close(NetConn(conns[j]))
  {
    if n > 0 {
      ConnClosesSpec(conns, n - 1);
    }
  }

  /** The session sweep closes the first `n` sessions once each, in order. */
  lemma {:induction false} ClientClosesSpec(clients: seq<Client>, n: nat)
    requires n <= |clients|
    ensures |ClientCloses(clients, n)| == n
    ensures forall j :: 0 <= j < n ==> ClientCloses(clients, n)[j] == Close(SshClient(clients[j]))
  {
    if n > 0 {
      ClientClosesSpec(clients, n - 1);
    }
  }

  lemma {:induction false} ConnClosesCount(conns: seq<Conn>, n: nat, h: Handle)
    requires n <= |conns|
    ensures Count(ConnCloses(conns, n), Close(h)) == if h.NetConn? then Count(conns[..n], h.conn) else 0
  {
    if n == 0 {
      assert conns[..n] == [];
    } else {
      ConnClosesCount(conns, n - 1, h);
      CountAppend(ConnCloses(conns, n - 1), [Close(NetConn(conns[n - 1]))], Close(h));
      if h.NetConn? {
        CountSnoc(conns, n, h.conn);
      }
    }
  }

  lemma {:induction false} ClientClosesCount(clients: seq<Client>, n: nat, h: Handle)
    requires n <= |clients|
    ensures Count(ClientCloses(clients, n), Close(h)) == if h.SshClient? then Count(clients[..n], h.client) else 0
  {
    if n == 0 {
      assert clients[..n] == [];
    } else {
      ClientClosesCount(clients, n - 1, h);
      CountAppend(ClientCloses(clients, n - 1), [Close(SshClient(clients[n - 1]))], Close(h));
      if h.SshClient? {
        CountSnoc(clients, n, h.client);
      }
    }
  }

  /** The teardown closes each tracked connection and each session as many
      times as it is tracked (once, when tracked once), and closes nothing
      else: |conns| + |clients| calls in all. */
  lemma TeardownClosesEachOnce(conns: seq<Conn>, clients: seq<Client>, h: Handle)
    ensures |ConnCloses(conns, |conns|) + ClientCloses(clients, |clients|)| == |conns| + |clients|
    ensures Count(ConnCloses(conns, |conns|) + ClientCloses(clients, |clients|), Close(h))
         == if h.NetConn? then Count(conns, h.conn)
            else if h.SshClient? then Count(clients, h.client)
            else 0
  {
    ConnClosesSpec(conns, |conns|);
    ClientClosesSpec(clients, |clients|);
    ConnClosesCount(conns, |conns|, h);
    ClientClosesCount(clients, |clients|, h);
    CountAppend(ConnCloses(conns, |conns|), ClientCloses(clients, |clients|), Close(h));
    assert conns[..|conns|] == conns;
    assert clients[..|clients|] == clients;
  }

  /** The connection sweep logs one progress line per connection and one
      error line per failed close; already-closed connections are silent. */
  lemma {:induction false} ConnSweepReports(results: seq<CloseResult>, n: nat, total: nat)
    requires n <= |results|
    ensures |ConnSweepLog(results, n, total)| == n + Count(results[..n], CloseFailed)
    ensures Count(ConnSweepLog(results, n, total), CloseError) == Count(results[..n], CloseFailed)
  {
    if n == 0 {
      assert results[..n] == [];
    } else {
      ConnSweepReports(results, n - 1, total);
      var prev := ConnSweepLog(results, n - 1, total);
      var failed := if results[n - 1] == CloseFailed then [CloseError] else [];
      CountAppend(prev, [ClosingConn(n, total)], CloseError);
      CountAppend(prev + [ClosingConn(n, total)], failed, CloseError);
      assert Count([ClosingConn(n, total)], CloseError) == 0;
      assert Count(failed, CloseError) == |failed|;
      CountSnoc(results, n, CloseFailed);
    }
  }

  /** The session sweep logs one progress line per session and one error
      line per close that did not succeed. */
  lemma {:induction false} ServerSweepReports(results: seq<CloseResult>, n: nat, total: nat)
    requires n <= |results|
    ensures |ServerSweepLog(results, n, total)| == 2 * n - Count(results[..n], Closed)
    ensures Count(ServerSweepLog(results, n, total), CloseError) == n - Count(results[..n], Closed)
  {
    if n == 0 {
      assert results[..n] == [];
    } else {
      ServerSweepReports(results, n - 1, total);
      var prev := ServerSweepLog(results, n - 1, total);
      var failed := if results[n - 1] != Closed then [CloseError] else [];
      CountAppend(prev, [ClosingServerConn(n, total)], CloseError);
      CountAppend(prev + [ClosingServerConn(n, total)], failed, CloseError);
      assert Count([ClosingServerConn(n, total)], CloseError) == 0;
      assert Count(failed, CloseError) == |failed|;
      CountSnoc(results, n, Closed);
      CountAtMost(results[..n - 1], Closed);
    }
  }

  lemma {:induction false} CountAtMost<T>(s: seq<T>, x: T)
    ensures Count(s, x) <= |s|
  {
    if s != [] {
      CountAtMost(s[1..], x);
    }
  }

  /** The retry lines number the failed attempts 1, 2, ... out of the
      configured maximum. */
  lemma {:induction false} RetryLogSpec(n: nat, max: int)
    ensures |RetryLog(n, max)| == n
    ensures forall j :: 0 <= j < n ==> RetryLog(n, max)[j] == DialRetry(j + 1, max)
  {
    if n > 0 {
      RetryLogSpec(n - 1, max);
    }
  }

  /** Every dial is of the server's address as the configured user. */
  lemma {:induction false} DialsSpec(n: nat, server: Endpoint, user: string)
    ensures |Dials(n, server, user)| == n
    ensures forall j :: 0 <= j < n ==> Dials(n, server, user)[j] == SSHDial(server, user)
  {
    if n > 0 {
      DialsSpec(n - 1, server, user);
    }
  }

  /** The workers, among the first `n`, that reached the SSH server. */
  function ReachedSet(ws: seq<WorkerOutcome>, n: nat): set<nat>
    requires n <= |ws|
  {
    set j: nat | j < n && Reached(ws[j])
  }

  /** The sessions tracked by the workers are one per worker that reached
      the SSH server. */
  lemma {:induction false} SessionsCount(ws: seq<WorkerOutcome>, n: nat)
    requires n <= |ws|
    ensures |Sessions(ws, n)| == |ReachedSet(ws, n)|
  {
    if n == 0 {
      assert ReachedSet(ws, n) == {};
    } else {
      SessionsCount(ws, n - 1);
      ReachedSetStep(ws, n);
      assert |Session(ws[n - 1])| == if Reached(ws[n - 1]) then 1 else 0;
    }
  }

  lemma ReachedSetStep(ws: seq<WorkerOutcome>, n: nat)
    requires 0 < n <= |ws|
    ensures n - 1 !in ReachedSet(ws, n - 1)
    ensures ReachedSet(ws, n) == ReachedSet(ws, n - 1) + (if Reached(ws[n - 1]) then {n - 1} else {})
  {
  }

  lemma {:induction false} ClosesOfAppend(a: seq<Call>, b: seq<Call>, sessions: bool)
    ensures ClosesOf(a + b, sessions) == ClosesOf(a, sessions) + ClosesOf(b, sessions)
  {
    if b == [] {
      assert a + b == a;
    } else {
      ClosesOfAppend(a, b[..|b| - 1], sessions);
      assert (a + b)[..|a + b| - 1] == a + b[..|b| - 1];
    }
  }

  /** The connection sweep closes `n` net.Conns and no session. */
  lemma {:induction false} ConnClosesKinds(conns: seq<Conn>, n: nat)
    requires n <= |conns|
    ensures ClosesOf(ConnCloses(conns, n), false) == n
    ensures ClosesOf(ConnCloses(conns, n), true) == 0
  {
    if n > 0 {
      ConnClosesKinds(conns, n - 1);
      ClosesOfAppend(ConnCloses(conns, n - 1), [Close(NetConn(conns[n - 1]))], false);
      ClosesOfAppend(ConnCloses(conns, n - 1), [Close(NetConn(conns[n - 1]))], true);
    }
  }

  /** The session sweep closes `n` sessions and no net.Conn. */
  lemma {:induction false} ClientClosesKinds(clients: seq<Client>, n: nat)
    requires n <= |clients|
    ensures ClosesOf(ClientCloses(clients, n), true) == n
    ensures ClosesOf(ClientCloses(clients, n), false) == 0
  {
    if n > 0 {
      ClientClosesKinds(clients, n - 1);
      ClosesOfAppend(ClientCloses(clients, n - 1), [Close(SshClient(clients[n - 1]))], false);
      ClosesOfAppend(ClientCloses(clients, n - 1), [Close(SshClient(clients[n - 1]))], true);
    }
  }

  /** Closing the tunnel once the workers have run: with `conns` the
      tracked connections and `sessions` the sessions tracked before the
      workers started, the teardown makes one Close per tracked connection
      and one per session, so |sessions| plus one per worker that reached
      the SSH server. */
  lemma ShutdownCloseCounts(conns: seq<Conn>, sessions: seq<Client>, ws: seq<WorkerOutcome>)
    ensures var clients := sessions + Sessions(ws, |ws|);
      var sweep := ConnCloses(conns, |conns|) + ClientCloses(clients, |clients|);
      && ClosesOf(sweep, false) == |conns|
      && ClosesOf(sweep, true) == |sessions| + |ReachedSet(ws, |ws|)|
  {
    var clients := sessions + Sessions(ws, |ws|);
    SessionsCount(ws, |ws|);
    ConnClosesKinds(conns, |conns|);
    ClientClosesKinds(clients, |clients|);
    ClosesOfAppend(ConnCloses(conns, |conns|), ClientCloses(clients, |clients|), false);
    ClosesOfAppend(ConnCloses(conns, |conns|), ClientCloses(clients, |clients|), true);
  }
}
