# sshtunnel in Dafny

A model of the core of `sshtunnel`, a Go library that forwards a local TCP
port through an SSH server to a remote destination.

It has two parts:

- **Endpoint parsing and rendering** (`endpoint.go`). This part is pure.
  - `NewEndpoint` turns `[user@]host[:port]` into an `Endpoint`. It splits
    the text at `@`, applies `net.SplitHostPort` (which also accepts a
    bracketed IPv6 literal), and reads the port with `strconv.Atoi`,
    throwing the error away.
  - `String` renders `host:port`.
  - The Go library functions it relies on are modelled in module `GoLib`:
    `strings.Split`, `net.SplitHostPort`, `strconv.Atoi` (with its sign,
    64-bit overflow and syntax-error behaviour) and fmt's `%d`.
- **The tunnel's bookkeeping** (`ssh_tunnel.go`). This part is imperative.
  - Class `Tunnel.SSHTunnel` holds the fields the Go struct updates in
    place: `Local`, `Server`, `Remote`, `Config`, `Conns`, `SvrConns`,
    `MaxConnectionAttempts` and `isOpen`.
  - Its methods follow `NewSSHTunnel`, `logf`, `Start`, `Serve` and
    `forward` step by step, with their loops.
  - What the network does is an input, never computed:
    - the port the listener is bound to;
    - the order of accepted connections and the close signal, as a
      sequence of `Event`s;
    - the outcome of every SSH dial, of the remote dial and of every
      `Close()`.
  - What the tunnel does to the network is recorded in two traces:
    - `Calls`, the calls it makes, in order;
    - `Logged`, the lines it logs, in order.
  - Every method is proved to produce exactly the trace given by a
    specification function in module `TunnelTraces`. The lemmas there
    state what those traces mean:
    - exact dial counts;
    - connections tracked in acceptance order;
    - one `Close` per tracked connection and per session;
    - which close errors are reported.

Files:

- `Wrappers.dfy`: `Option`.
- `GoLib.dfy`: the Go library functions.
- `Endpoints.dfy`: `endpoint.go`.
- `TunnelTraces.dfy`: the trace specifications and their lemmas.
- `Tunnel.dfy`: `ssh_tunnel.go`.

## Model

| member | source | states |
|---|---|---|
| GoLib.Split | endpoint.go:21 | strings.Split at '@': the result has at least one piece; it has more than one exactly when the text holds '@'; no piece holds '@'; joining the pieces with '@' gives the text back |
| GoLib.SplitAppend | endpoint.go:21 | splitting `a + "@" + b` splits `a` and `b` separately |
| GoLib.SplitHostPort | endpoint.go:26 | net.SplitHostPort. Text without ':' fails. A result's port holds no ':', '[' or ']', and its host holds no bracket. The text is either `host:port` with a colon-free host or `[host]:port` |
| GoLib.SplitHostPortPlain | endpoint.go:26 | "host:port" with no ':' or bracket in either part splits into exactly that host and port |
| GoLib.SplitHostPortBracketed | endpoint.go:26 | "[host]:port" gives the host without brackets, keeping its inner ':' |
| GoLib.Atoi | endpoint.go:29 | strconv.Atoi with its error discarded: the result is a 64-bit int, and text with nothing after the sign gives 0 |
| GoLib.AtoiDigits | endpoint.go:29 | a digit string whose value fits in an int64 reads as that value |
| GoLib.AtoiSyntaxError | endpoint.go:29 | a non-digit found before any overflow makes the result 0 (the discarded syntax error) |
| GoLib.FormatInt | endpoint.go:36 | %d never produces ':', '@' or a bracket |
| GoLib.AtoiFormatInt | endpoint.go:29-36 | Atoi reads back what %d writes, for every int64 |
| Endpoints.NewEndpoint | endpoint.go:16-33 | parsing never fails; the user holds no '@'; there is a user only when the text holds '@' |
| Endpoints.Endpoint.String | endpoint.go:35-37 | the address is the host, then ':', then text with no ':' or '@' (the decimal port) |
| Endpoints.WithoutUser | endpoint.go:16-31 | without '@' the user is empty and the whole text is parsed as host[:port] |
| Endpoints.WithUser | endpoint.go:21-31 | with '@' the user is the text before the first '@'; only the text between the first and second '@' is parsed as host[:port] |
| Endpoints.SplitAtFirst | endpoint.go:21-23 | the first piece of the split is the text before the first '@' and the second is the host[:port] text |
| Endpoints.TextAfterSecondAtIgnored | endpoint.go:21-24 | appending "@" and anything to a text that already holds '@' changes nothing |
| Endpoints.HostWithoutPort | endpoint.go:26-31 | a host with no ':' stays the host, with port 0 and no user |
| Endpoints.UserPrefix | endpoint.go:21-24 | prefixing "user@" sets the user and leaves host and port as they were |
| Endpoints.UserAndHostWithoutPort | endpoint.go:16-31 | user@host gives that user and host with port 0 |
| Endpoints.HostAndPort | endpoint.go:26-29 | host:port gives that host and Atoi of the port |
| Endpoints.UserHostAndPort | endpoint.go:16-33 | user@host:port gives all three parts |
| Endpoints.BracketedHost | endpoint.go:26-29 | [host]:port gives the host without brackets and Atoi of the port |
| Endpoints.UserBracketedHost | endpoint.go:16-33 | user@[host]:port gives all three parts, with the host unbracketed |
| Endpoints.NonNumericPort | endpoint.go:26-29 | a split whose port text reaches a non-digit before any 64-bit overflow still replaces the host, and the port stays 0 (a port text that overflows first saturates instead, as Atoi does) |
| Endpoints.RoundTrip | endpoint.go:16-37 | parsing String() gives back host and port with no user, for every host free of ':', '@' and brackets and every int64 port |
| Endpoints.ColonHostNotRoundTrip | endpoint.go:16-37 | a host holding ':' (an IPv6 literal) does not come back: String does not bracket it, net.SplitHostPort rejects the rendering, and the whole address becomes the host with port 0 and no user |
| Endpoints.NoSplitOfColonHost | endpoint.go:26 | net.SplitHostPort rejects `host:text` when the host holds ':' and no '[' and the text holds no ':' |
| Endpoints.IPv6LoopbackCase | endpoint.go:16-37 | `::1` on port 22 renders as "::1:22", which parses back as host "::1:22", port 0 |
| Endpoints.StringOmitsUser | endpoint.go:35-37 | String() does not depend on the user |
| Endpoints.HostPortCase | endpoint_test.go:18-24 | "localhost:9000" parses to host localhost, port 9000, no user |
| Endpoints.UserHostCase | endpoint_test.go:26-32 | "ec2-user@jumpbox.us-east-1.mydomain.com" parses to that host, port 0, user ec2-user |
| Endpoints.UserIPv4Case | endpoint_test.go:42-48 | "admin@1.2.3.4:22" parses to host 1.2.3.4, port 22, user admin |
| Endpoints.UserIPv6Case | endpoint_test.go:50-56 | "admin@[2001:db8:1::ab9:C0A8:102]:22" parses to the unbracketed IPv6 host, port 22, user admin |
| Tunnel.WithDefaultPort | ssh_tunnel.go:187-189 | the server endpoint keeps host and user, keeps a nonzero port and gets 22 for port 0 |
| Tunnel.LocalEndpoint | ssh_tunnel.go:178 | "localhost:" plus a decimal port text gives localhost on that port with no user |
| Tunnel.SSHTunnel.constructor | ssh_tunnel.go:176-211 | NewSSHTunnel: Local is parsed from "localhost:" + localport; Server is parsed from `tunnel` with the port default; Remote is parsed from `destination`; the config user is the server's user and the auth list is [auth]; no logger, closed, budget 0, nothing tracked |
| Tunnel.SSHTunnel.Logf | ssh_tunnel.go:28-32 | a line is logged exactly when a logger is set |
| Tunnel.SSHTunnel.Start | ssh_tunnel.go:42-55 | Listen on Local. A listen error is logged and returned, and nothing else changes. Otherwise Serve's whole effect follows, then Close on the listener |
| Tunnel.SSHTunnel.Serve | ssh_tunnel.go:57-113 | The tunnel ends closed, with the bound port in Local.Port and the budget normalised. Conns grows by exactly the connections accepted before the first close signal, in order. Every tracked connection and then every session is closed. The log is the loop's log followed by the teardown's |
| Tunnel.SSHTunnel.ServeAndForward | ssh_tunnel.go:57-169 | Serve with one forward worker per accepted connection, run after the close signal and before the teardown. The connections accepted and then the workers' remote connections are tracked; the workers' sessions are tracked in order; the calls are the workers' calls then the teardown's closes; the log is the loop's, the workers' and the teardown's |
| Tunnel.SSHTunnel.OpenAndAccept | ssh_tunnel.go:57-88 | Serve up to the end of its accept loop: closed again, the bound port set, the budget normalised, the accepted connections tracked in order |
| Tunnel.SSHTunnel.ForwardAndTeardown | ssh_tunnel.go:89-169 | the workers run one after another, then the teardown closes every tracked connection and every session, the workers' included |
| Tunnel.SSHTunnel.RunWorkers | ssh_tunnel.go:115-160 | the workers run one after another: SvrConns grows by each session reached, Conns by each remote connection opened, and the calls and log are the workers' own, in order |
| Tunnel.SSHTunnel.RunWorker | ssh_tunnel.go:115-160 | one forward call: it tracks its session when a dial succeeded and its remote connection when that dial succeeded too |
| Tunnel.SSHTunnel.Open | ssh_tunnel.go:59-68 | open; Local.Port is the bound port; the budget is Budget of the old value |
| Tunnel.SSHTunnel.AcceptLoop | ssh_tunnel.go:70-88 | the loop stops at the first close signal with the tunnel closed, having tracked exactly the connections before it, in order |
| Tunnel.SSHTunnel.AcceptStep | ssh_tunnel.go:75-87 | one select: a close signal closes the tunnel; an accept appends its connection to Conns |
| Tunnel.SSHTunnel.Teardown | ssh_tunnel.go:89-111 | Close on every connection in order, then on every session in order; then "tunnel closed" |
| Tunnel.SSHTunnel.CloseConns | ssh_tunnel.go:89-101 | the connection sweep: one Close per connection, in order, carrying on past errors |
| Tunnel.SSHTunnel.CloseServerConns | ssh_tunnel.go:102-109 | the session sweep: one Close per session, in order, carrying on past errors |
| Tunnel.SSHTunnel.Forward | ssh_tunnel.go:115-169 | When every dial fails, exactly Budget dials are made, the local connection is closed and nothing is tracked. Otherwise dialling stops at the first success (attempt k+1), that session is appended to SvrConns once, and the remote dial is made once, through that session. A failed remote dial closes the session and then the local connection and leaves Conns unchanged; a successful one appends the remote connection to Conns |
| Tunnel.SSHTunnel.DialServer | ssh_tunnel.go:116-142 | the retry loop: dials until the first success or until the budget is spent, logging each retry as attempt j of the maximum |
| Tunnel.SSHTunnel.GiveUp | ssh_tunnel.go:127-136 | the local connection is closed; the log says the attempts were exceeded, then either that the dial failed or that the close failed |
| Tunnel.SSHTunnel.ConnectRemote | ssh_tunnel.go:144-160 | the session is tracked, the remote dial is made through it, and its outcome is handled as above |
| Tunnel.SSHTunnel.Abandon | ssh_tunnel.go:148-157 | Close on the session, then on the local connection; each failure is logged and does not stop the other |
| TunnelTraces.Budget | ssh_tunnel.go:66-68 | the budget is at least 1; a value of at least 1 is kept |
| TunnelTraces.FirstClose | ssh_tunnel.go:79-82 | the first close signal: every earlier event is an accept |
| TunnelTraces.AcceptedBeforeClose | ssh_tunnel.go:83-86 | there is one tracked connection per event before the close signal |
| TunnelTraces.AcceptedBeforeCloseSpec | ssh_tunnel.go:70-88 | the j-th tracked connection is the one the j-th event accepted |
| TunnelTraces.AcceptedConnsOfAccepts | ssh_tunnel.go:83-86 | over a run of accepts, the tracked list is those events' connections in order |
| TunnelTraces.PrefixUnaffected | ssh_tunnel.go:70-88 | the effect of the first n events does not depend on later events |
| TunnelTraces.LaterEventsIgnored | ssh_tunnel.go:71-82 | events after the close signal change neither the tracked connections nor the log |
| TunnelTraces.ConnClosesSpec | ssh_tunnel.go:91-93 | the j-th close of the sweep is Close on the j-th connection |
| TunnelTraces.ClientClosesSpec | ssh_tunnel.go:103-105 | the j-th close of the session sweep is Close on the j-th session |
| TunnelTraces.ConnClosesCount | ssh_tunnel.go:91-93 | the sweep closes each connection as many times as it occurs in the list, and nothing else |
| TunnelTraces.ClientClosesCount | ssh_tunnel.go:103-105 | the session sweep closes each session as many times as it occurs in the list, and nothing else |
| TunnelTraces.TeardownClosesEachOnce | ssh_tunnel.go:89-109 | the teardown makes \|Conns\| + \|SvrConns\| Close calls. Each handle is closed as many times as it is tracked (once when tracked once), and the listener not at all |
| TunnelTraces.SessionsCount | ssh_tunnel.go:122-145 | the workers add one session per worker that reached the SSH server: the count of sessions equals the number of workers with a successful dial |
| TunnelTraces.ConnClosesKinds | ssh_tunnel.go:91-93 | the connection sweep makes one net.Conn close per connection and closes no session |
| TunnelTraces.ClientClosesKinds | ssh_tunnel.go:103-105 | the session sweep makes one session close per session and closes no net.Conn |
| TunnelTraces.ShutdownCloseCounts | ssh_tunnel.go:89-109 | closing after the workers have run makes N net.Conn close attempts for N tracked connections, and M session close attempts, where M is the sessions tracked before plus one per worker whose SSH dial succeeded |
| TunnelTraces.ConnSweepReports | ssh_tunnel.go:91-100 | one progress line per connection and one error line per failed close; an already-closed connection is not reported |
| TunnelTraces.ServerSweepReports | ssh_tunnel.go:103-108 | one progress line per session and one error line for every close that did not succeed |
| TunnelTraces.FirstSuccess | ssh_tunnel.go:122-142 | the first successful dial: all earlier dials failed |
| TunnelTraces.RetryLogSpec | ssh_tunnel.go:138 | the retry lines count the failed attempts 1, 2, … out of the maximum |
| TunnelTraces.DialsSpec | ssh_tunnel.go:122-123 | n dials, each to the server endpoint as the configured user |

## Left out

- Goroutines, channels and `select` are not modelled. This covers `newConnectionWaiter`, the `close` channel, `Close()` (ssh_tunnel.go:171-173), `go tunnel.forward` and `go copyConn`.
  - The accept/close race is an input sequence of events.
  - An `Accept` error in the waiter goroutine sends nothing, so it produces no event.
  - Serve does not run the forward workers. `Forward` is a method a caller runs for an accepted connection, so its effect on `Conns` and `SvrConns` can interleave only between whole calls. `ServeAndForward` runs one worker per accepted connection, all of them after the close signal and before the teardown. That is one of the interleavings the goroutines allow; workers that finish after the teardown are not modelled.
  - The unsynchronised appends from concurrent workers are a data race that a sequential model cannot represent.
- `io.Copy` byte relaying (ssh_tunnel.go:161-168) is stream I/O and is not modelled.
- `net.Listen`, `listener.Addr()`, `ssh.Dial`, `serverConn.Dial` and `Close()` on real connections are foreign library calls. They appear only as inputs (their outcomes) and as entries of `Calls`. A call to an endpoint records the `Endpoint`, and the address dialled is its `String()`.
- The `HostKeyCallback` that accepts every key (ssh_tunnel.go:199-202) has no logic and is not part of `ClientConfig` here.
- Log lines are recorded by kind and arguments, not by their text. `err.Error()` is reduced to the `CloseError` line.
- `Local`, `Server` and `Remote` are `*Endpoint` pointers in Go; here they are `Endpoint` values. No other code holds these pointers, so aliasing is not modelled.
- ssh_tunnel.go:178-194 and endpoint_test.go:59 call `NewEndpoint` as if it returned `(ep, err)`. endpoint.go:16 returns only `*Endpoint`, so the files as given do not compile together. The model follows endpoint.go: parsing cannot fail, the `err != nil` branches of `NewSSHTunnel` are dropped, and the constructor cannot fail.
- Tunnel.SSHTunnel.Forward: requires one dial outcome per attempt the budget allows (`|dialResults| == Budget(MaxConnectionAttempts)`); outcomes past the first success are simply not read.
- Tunnel.SSHTunnel.Serve: requires one close outcome per tracked connection and session, counted after the accept loop.
- Tunnel.SSHTunnel.Serve: assumes a TCP listener. ssh_tunnel.go:60 reads the port through the type assertion `listener.Addr().(*net.TCPAddr)`, which panics for any other listener passed to `Serve`; that panic is not modelled, and `boundPort` is simply the port.
- Tunnel.SSHTunnel.Serve: requires a close signal among the events (so does Start when listening succeeds). A tunnel that is never closed serves forever, and a terminating method cannot model that run.
- Tunnel.LocalEndpoint: stated for a decimal port text that fits an int64. Other texts are covered by Endpoints.HostAndPort with Atoi's general behaviour.
- The endpoint test case at endpoint_test.go:34-40 is not proved as its own lemma. It is an instance of Endpoints.HostAndPort. Checking that its 46-character host literal holds no ':', '@' or bracket is too costly for the verifier.
- `private_key_file.go` and `ssh_agent.go` read files, an environment variable and a unix socket, and call into `x/crypto/ssh`. They are not part of this model.
- `strconv.Atoi` is modelled exactly (sign, 64-bit range, an overflow found before a later non-digit), not only as "digits or 0", because the code calls the real function.
