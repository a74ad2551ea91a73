# A verified model of the proxy's network, sessions and services

lwproxy lets browser clients share a private network. A client opens a session
over WebSocket or WebTransport, asks for an address on fd00::/16, binds UDP ports
on it, and exchanges datagrams with other clients and, through a translation
task, with the open internet. Instead of binding a port a session can link to one
of the proxy's two services, an HTTP CONNECT proxy and a resolver. Every session
owns one relay, an unbounded channel whose senders are at first the session
itself and later the route and the task behind its lease.

The project models these parts and proves what they keep.

| files | part |
|---|---|
| `Wrappers`, `BigEndian`, `Sequences`, `Text`, `Channels`, `Session` | bytes and integers, sequences, splitting and decimal numbers, channels, what can become of data |
| `Code`, `Packet` | passcodes and addresses, the frame of one datagram |
| `NetworkState`, `Network`, `Translate` | the three tables and their invariant, the locked sections on mutable tables, the handler of a bound lease, the translation task |
| `Commands`, `WebTransport`, `WebSocket` | the command language and the two kinds of session |
| `ConnectProxy`, `DnsProxy`, `DnsChoice`, `DnsStreams` | the two services |
| `Proxy` | everything together as one machine: sessions, leases, tasks, tables, command buffers and the clock, in every order in which they can take their turns |
| `ProxyInvariant`, `ProxySteps`, `ProxySessions`, `ProxyRuns` | the invariant of that machine and the proof that every step keeps it |
| `ProxySafety`, `ProxyLives`, `ProxyOversize`, `ProxyEffects`, `ProxyProgress` | what follows for every reachable state: routes, relays, what a step changes and what ends a session, and that whatever comes can be taken up |
| `ProxyHistory`, `ProxyRelays`, `ProxyCommands`, `ProxyTasks`, `ProxyTraffic`, `ProxyStreams` | what follows for whole runs: leases and assignments, where messages come from, commands, tasks, and traffic end to end |
| `ProxyRunner`, `ProxyPossible` | that the WebTransport runner is part of the machine, and that bound sessions and oversize datagrams come up in runs |

How it is set up:

- Code that changes things in place is a class or a loop (`Network`, `Rng`,
  `BindHandler`, `TranslateTask`, `CommandProcessor`, `WebTransportClient`,
  `WebSocketClient`, `ConnectLoop`, the resolver's loops), proved equal to a
  function of the old state. The machine in `Proxy` is built from those same
  functions, except that it takes a WebTransport chunk apart into steps between
  which other sessions can take theirs; `ProxyRunner` proves that those steps
  taken together are what `WebTransportClient` does with the chunk.
- Each locked section is one step. A bind takes two, the locked insert and the
  making of the lease outside the lock, and anything can happen between them.
- The clock is an input that never goes back. Random draws, socket results, TCP
  connects, name lookups, and whether a client's connection takes a write and how
  large a datagram it has room for, are arbitrary inputs of the steps that need
  them. A run of draws that has been used up stands for a retry loop that has
  not finished.
- A relay is a sequence of messages with a flag for its receiver; who can still
  send on it is read off the session, the routes and the tasks.
- Times are in nanoseconds, sizes and counts are unbounded except where the code
  has a width: ports and payload lengths are 16 bits, the random part of an
  address 64.

Where comments and code disagree the model follows the code. The field comment
at `src/service/net/network.rs:39` says an assignment is touched when a port is
bound or unbound; it is also touched when it is made, and the retention results
count that. The comment at `src/service/net/network.rs:191-193` says a
translation task ends when its lease is dropped; it also ends when a reply finds
its session gone.

Laws that hold only under a condition:

- Cutting a WebTransport stream into chunks differently changes neither the
  responses, the commands run, the lease nor the bytes passed on
  (`WebTransport.ChunksDoNotMatter`), because the buffer limit exceeds the 255-byte
  command limit; under any limit up to 255 there is a stream for which it does
  (`WebTransport.ChunksMatterBelowTheLimit`). It does decide how those bytes are
  divided into messages. That makes no difference to a CONNECT session, but the
  resolver takes every message for a query: a query is answered exactly if it
  comes in one chunk (`DnsStreams.AnsweredIffWhole`), and one that is cut can turn
  into bad queries (`DnsStreams.CuttingDecidesAnswers`).
- What one client sends ends no other client's session, as long as it fits. A
  frame carries up to 65535 bytes and is accepted and queued whatever its size,
  and a WebTransport session that cannot write a datagram ends. So a bound
  WebTransport session whose connection is up leaves over a message exactly when
  the payload is larger than the largest datagram that the connection takes, less
  24 bytes (`ProxyOversize.DatagramFate`), and for a payload of 65535 bytes it
  always does (`ProxyOversize.LargestFrameEndsReceiver`). A bound WebSocket
  session whose connection is up never does.

## Model

| member | source | states |
|---|---|---|
| `ProxyRuns.StepKeeps` | src/service/net/network.rs:53-172 | Every step of the proxy that can be taken, in any interleaving of sessions, tasks and the clock, keeps the whole invariant: the tables, the lease tokens, the tasks, the relays and the record of touches. |
| `ProxyRuns.RunKeeps` | src/service/net/network.rs:53-172 | The invariant holds in every state of every run that starts from an empty proxy. |
| `ProxySafety.TablesAgree` | src/service/net/network.rs:53-172 | In every reachable state addresses and passcodes name each other, every routed address is assigned and every `binds` is the number of routes on its address; so "Assignment is missing" cannot happen and `saturating_sub` never meets a zero. |
| `ProxySafety.RoutesAreTokens` | src/service/net/network.rs:131-172 | In every reachable state a port is routed exactly when there is a live lease for it or a bind between its locked insert and the making of its lease; the route leads to the session that owns that token, and no port ever has two. |
| `ProxySafety.DropReleasesOwnRoute` | src/service/lease.rs:32-36 | The step that drops a session with a bound lease finds its route there (the early return of `unbind` is never taken), removes it and no other, and lowers the count of its own address by one and no other count. |
| `ProxySafety.NoTokensNoRoutes` | src/service/net/network.rs:162-172 | Once all bound leases have been dropped, in whatever order, and no bind is under way, `routes` is empty and every `binds` is zero. |
| `ProxySafety.RelayClosedIffServiceEnded` | src/webtransport/client.rs:131 | A session that reads its relay finds it closed exactly when it has read everything and its lease is a service link whose task has exited: never before it has a lease and never while a port is bound. |
| `ProxySafety.EmptyMessageEndsLease` | src/webtransport/client.rs:115-123 | An empty message on a relay that is being read comes after all real data, its lease is no longer live, and reading it ends the session on both transports: it is exactly the end-of-lease signal. |
| `ProxySafety.RelayMessageFate` | src/webtransport/client.rs:112-133 | A serving session that finds a message on its relay has a lease and a stream or socket to write to, so no `unwrap` fails. It goes on exactly if the message has content and the client's connection takes it: a connection that is up takes any message, except that a datagram of a WebTransport session has to fit. |
| `ProxySafety.RelayOrLease` | src/service/commands.rs:80-119 | Until a session leaves its loop it holds its own relay sender exactly when it has no lease, is datagram-only exactly when its lease is a bound port, and has a stream before it has a lease. |
| `ProxyHistory.LeaseNeverReplaced` | src/webtransport/client.rs:139-164 | Over a whole run a session keeps the first lease it gets until it is gone. |
| `ProxyHistory.LeaseFixed` | src/service/lease.rs:8-36 | A lease that is live at two moments of a run was live all the time between, with the same owner and port; a lease name is never used twice. |
| `ProxySafety.SendFailsIffFrameIsBad` | src/service/net/network.rs:273-285 | While a bound session reads its relay, sending on its lease fails exactly for data that `Frame::decode` rejects. |
| `ProxySafety.TranslationStopsOnlyAtTheEnd` | src/service/net/network.rs:205-237 | A translation task ends only if its lease has been dropped or its session no longer reads its relay. |
| `ProxySafety.DeliveredToHolderOnly` | src/service/net/network.rs:177-187 | The step in which a bound client hands over a datagram for a private-network address, on either transport, queues one message for the session that holds that port at that moment and reads its relay, and changes nothing else in the whole proxy; the message decodes to the sender's own key and the payload as sent. |
| `ProxySafety.OutwardIsQueued` | src/service/net/network.rs:273-285 | The step in which a bound client hands over a datagram for any other address queues it for the session's own translation task, for the peer that the frame names, and changes nothing else. |
| `ProxyRelays.Provenance` | src/service/net/network.rs:177-187 | Over a whole run every message on a relay was put there once, by one step, and is what that step had: a frame sent by the holder of some port at a moment when the receiver held the port addressed, a datagram that a socket of the receiver's own translation task received, the success reply or remote data of its own CONNECT task, the answer to its own next query, or the wake-up of its own failed task. Nothing reaches an earlier holder of a port. |
| `ProxyRelays.ReplyReachesSender` | src/service/net/network.rs:273-285 | If the address of a delivered frame is used as the destination of a frame, at any later moment of the run, the step that hands that frame over queues it for the session that sent the first one and changes no other session, as long as that session reads its relay. |
| `ProxyRelays.StillReceives` | src/service/net/network.rs:150-159 | A session that still reads its relay under the lease it had before still receives on the same port, and that port is on the private network. |
| `ProxySafety.InternetAnswerLeaves` | src/service/net/network.rs:240-285 | The step in which a bound client answers a peer on the open internet, in a frame with the address its datagram came with, queues the answer for that same address and changes nothing else; an IPv4-mapped peer is answered at the IPv4 address it stands for. |
| `ProxySafety.ConnectEndToEnd` | src/service/connectproxy.rs:84-166 | For a CONNECT session in any reachable state: what its task has read is a prefix of what the session sent, upstream and relay are what the one-shot view of those bytes allows, and the relay holds exactly what the task relayed and, after a failure and only then, one empty message. |
| `ProxySafety.UpstreamIsBody` | src/service/connectproxy.rs:107-131 | Whatever has gone upstream is a prefix of the bytes behind the first acceptable header of everything the session has sent, and nothing has gone upstream if there is no such header. |
| `ProxySafety.ResolveEndToEnd` | src/service/dnsproxy.rs:75-99 | For a resolver session in any reachable state: the queries answered are the first of those asked, in order, and its relay holds one answer for each, good or bad, and nothing else; its task works for as long as the session reads the relay, which it never finds closed. |
| `ProxyTraffic.GivenIsHanded` | src/service/connectproxy.rs:168-172 | Over a whole run, what a service task has been given is what was sent on its lease, whole and in order. |
| `ProxyTraffic.UpstreamIsClientsOwn` | src/service/connectproxy.rs:107-139 | Over a whole run, what a CONNECT task has sent upstream is a prefix of what follows the first acceptable header in all that its client has sent on the lease, and nothing if there is no such header. |
| `ProxyTraffic.AnswersAreToClientsOwn` | src/service/dnsproxy.rs:75-99 | Over a whole run, message number j on a resolver session's relay answers message number j of those sent on the lease: a query with the good choice among what a lookup has found, anything else with an empty list. On WebSocket such a message is a binary message, on WebTransport a chunk. |
| `ProxyTraffic.InternetTrafficIsClientsOwn` | src/service/net/network.rs:194-238 | Over a whole run, what a translation task has taken up followed by what still waits for it is, in order, exactly the outward datagrams its client sent on its lease; and what it has sent out is exactly those taken up that the system took while there was a socket of their family, held already or opened for them, to the same peers, unchanged, once and in order. |
| `ProxyTasks.TranslationIsRun` | src/service/net/network.rs:194-238 | Over a whole run a translation task of the proxy is the loop of `Translate`, run over its own turns and nothing else, whatever sessions and other tasks do between them. |
| `ProxyTasks.InternetTrafficIsExact` | src/service/net/network.rs:189-238 | So in every state of a run what a task has sent to the open internet, over which sockets, to whom and in which order, and whether it still works, is what its turns say by themselves. |
| `ProxyTasks.ConnectionIsAccounted` | src/service/connectproxy.rs:84-148 | And how a CONNECT task stands, what it has sent upstream and what it has put on the relay is what the account of its own turns says. |
| `ProxyTasks.ConnectTurnIsExact` | src/service/connectproxy.rs:94-148 | In every reachable state a turn of a CONNECT task returns well exactly when the remote end closes an established connection; fails exactly when the client is gone, the remote end breaks, its data or the success reply is not taken, the header is rejected, connecting fails or a write is cut short; sends upstream and on the relay exactly what it should; and touches nothing else. |
| `ProxyTasks.RemoteCloseIsSeen` | src/service/connectproxy.rs:97-102 | When the remote end closes, the task returns and can exit, adds nothing to the relay, and the session then finds its relay closed exactly if it has read all there is. |
| `ProxyTasks.FailureIsSeen` | src/service/connectproxy.rs:151-166 | When a CONNECT task fails, it can exit, and its session gets one empty message behind all that was relayed, under a lease that is no longer live. |
| `ProxyTasks.ResolveTurnIsExact` | src/service/dnsproxy.rs:75-99 | A turn of a resolver task answers the next query asked: what the client decodes is the good choice among what the lookup found, or an empty list for a bad query; nothing else changes. If the session is gone the task fails instead. |
| `ProxyTasks.ExitIsExact` | src/service/connectproxy.rs:151-166 | A task that has returned can exit; if it failed, one empty message joins its session's relay, and otherwise nothing does. |
| `ProxyEffects.OthersUntouched` | src/service/net/network.rs:177-187 | In every reachable state no step of one session, of a task or of the clock changes another session in any way, except that at most one message joins its relay, and that only in the listed ways. |
| `ProxyEffects.ReadIsExact` | src/webtransport/client.rs:112-133 | Reading takes the next message off the relay, ends the session exactly for a closed relay, an empty message or one that the connection does not take, and changes nothing else. |
| `ProxyEffects.RefusedData` | src/webtransport/client.rs:177-199 | Data of the wrong kind, or that its lease does not take, ends its session and reaches nobody; a datagram of a WebTransport session without a lease is dropped. |
| `ProxyEffects.ServiceDataIsGiven` | src/service/connectproxy.rs:168-172 | Data for a live service link is handed to its task, whole, and changes nothing else. |
| `ProxyEffects.DropIsExact` | src/service/lease.rs:32-36 | A session that has left keeps what it has until it is dropped; then its relay sender and its lease go, with the route and one bind if the lease is a bound port, and nothing else does. |
| `ProxyEffects.ClockMoves` | src/service/net/network.rs:93-115 | Time moves only by itself and while NEWADDR is served. |
| `ProxyProgress.WorkGoesOn` | src/webtransport/client.rs:138-175 | A WebTransport session that has read a whole command, data for its lease, or 4096 bytes without a newline can always deal with it: the first line, all the data, or giving up. |
| `ProxyProgress.OthersGoOn` | src/webtransport/client.rs:68-110 | A session without such work can take the next message or the closing of its relay, and any data of the kinds that its transport has. |
| `ProxyProgress.LivesGoOn` | src/websocket/client.rs:75-93 | A WebSocket session can take any command and any session a disconnect; a claimed port can become a lease, a session that has left can be dropped, and a new one opened. |
| `ProxyProgress.TranslationGoesOn` | src/service/net/network.rs:203-237 | A translation task at work can take up the next datagram however the system answers, the end of its lease after that, and anything from outside at any time. |
| `ProxyProgress.ConnectionGoesOn` | src/service/connectproxy.rs:92-148 | A CONNECT task at work can take up the next chunk however the network answers, the end of its lease after that, and what the remote end does exactly once the header is accepted. |
| `ProxyProgress.ResolutionGoesOn` | src/service/dnsproxy.rs:75-84 | A resolver task at work can answer the next query whatever the lookup finds, and end with its lease after that; a task that has returned can exit. |
| `ProxyTraffic.InternetReachesClient` | src/service/net/network.rs:226-262 | Over a whole run, the frames a translation task has queued are, one for one and in order, the datagrams its sockets received while the session read its relay, with their peers and payloads, and each is on the relay once, in that order. |
| `ProxyStreams.StreamIsParsed` | src/webtransport/client.rs:135-175 | Over a whole run every byte of a WebTransport client's stream is accounted for in order, whatever the chunks and whatever other sessions do in between: complete lines, one command each, then data for the lease one of them made, then what is still in the buffer. |
| `ProxyStreams.HandedIsStreamData` | src/webtransport/client.rs:171-189 | Over a whole run, what has been handed to the service link of a WebTransport session is the data part of its stream, one message for each chunk of it, and nothing was handed over before there was a lease. |
| `ProxyStreams.ChunksAreQueries` | src/service/dnsproxy.rs:75-84 | Over a whole run, message number j on the relay of a WebTransport session linked to the resolver answers chunk number j of the data part of its stream. |
| `ProxyRunner.ChunkIsSteps` | src/webtransport/client.rs:138-175 | Handling a chunk in the runner is the same as the session's own steps of the whole proxy taken one after the other: the same tables, leases, tasks, messages handed over, responses and buffer, and failure exactly if the session leaves its loop. |
| `ProxyRunner.SessionIsRunner` | src/webtransport/client.rs:20-40 | In every reachable state a serving WebTransport session is such a runner, ready for a chunk exactly if it is not in the middle of one. |
| `ProxyStreams.UpstreamIsRawStream` | src/service/connectproxy.rs:107-139 | From the raw stream to the remote end: what a CONNECT task has sent upstream for a WebTransport client is a prefix of what follows the first acceptable header behind the command lines of the bytes the client sent, and nothing if there is none. |
| `ProxyLives.EndsForAReason` | src/webtransport/client.rs:63-110 | In every reachable state and for every step, a session leaves its loop exactly for one of these reasons: a disconnect, a second stream, an unfinished command beyond the buffer limit, a command that cannot be run, a response that cannot be written, data of the wrong kind or not taken by its lease, a closed relay, an empty message, or a message its connection does not take. |
| `ProxyOversize.DatagramFate` | src/webtransport/client.rs:124-128 | Over a connection that is up, a bound session that reads its relay finds a whole frame, and leaves over it exactly if it is a WebTransport session and the payload is larger than the largest datagram of the connection less the 24 bytes of header. |
| `ProxyOversize.LargestFrameEndsReceiver` | src/webtransport/client.rs:124-125 | Sending never fails for a frame that decodes, up to 65535 bytes of payload, but such a frame is 65559 bytes long on the relay, which no UDP-bounded connection has room for: a WebTransport receiver ends over it, a WebSocket receiver does not. |
| `ProxyOversize.OnlyOversizeEndsReceiver` | src/webtransport/client.rs:124-125 | Over a whole run, a bound session whose connection is up leaves over a message only if it is a WebTransport session and, at an earlier step, a bound client sent to the port it then held, or a socket of its own translation task received, a payload that with its header is larger than the connection has room for. Payloads up to that size end nobody. |
| `ProxyPossible.OversizeHappens` | src/webtransport/client.rs:124-125 | That input is real: there is a run in which a 65535-byte payload waits for a WebTransport session, which ends whenever it reads it over a connection that a UDP datagram bounds. |
| `ProxyPossible.NewClientCanBind` | src/service/commands.rs:86-110 | From every reachable state, given a free address and passcode, a new client over either transport can get that address and come to hold a port on it, without any change to other sessions, leases or tasks. |
| `ProxyLives.ReadsInQueueOrder` | src/websocket/client.rs:95-125 | Over a whole run a session reads the messages on its relay in the order they were put there, each once and none passed over. |
| `ProxyHistory.ResolvesForADay` | src/service/net/network.rs:24-27 | A passcode still resolves to its address if the assignment was touched less than 24 hours ago, whatever happened in between. |
| `ProxyHistory.ResolvesForADayAfterRelease` | src/service/net/network.rs:148-171 | Binding or releasing a port starts the 24 hours of its address afresh. |
| `ProxyHistory.ResolvesWhileBound` | src/service/net/network.rs:50-66 | A passcode resolves to its address for as long as a port on it stays bound, however long that is. |
| `ProxyHistory.TableBounded` | src/service/net/network.rs:50-66 | Right after an address is handed out the table has at most as many entries as there are addresses with a bound port plus assigns, binds and unbinds in the last 24 hours. |
| `ProxyHistory.TableIsFresh` | src/service/net/network.rs:93-115 | Right after an address is handed out every table entry has a bound port or was touched within 24 hours. |
| `ProxyCommands.NewAddressThenBind` | src/service/commands.rs:86-119 | Within 24 hours of a NEWADDR, a well-formed BIND with the passcode from its reply, for a nonzero port that is not taken, claims that port on the address in the reply, whichever session sends it. |
| `ProxyCommands.RouteWasEarned` | src/service/net/network.rs:90-160 | Over a whole run, whatever port is routed, the session that holds it has claimed it with a BIND, for a passcode that a still earlier NEWADDR handed out with that very address. |
| `ProxyCommands.BindCompletes` | src/service/commands.rs:104-110 | A claimed port becomes a lease owned by the session, which gives up its relay sender, and the client is told BIND OK; a session that cannot tell its client leaves with the lease. |
| `ProxyCommands.ProxyReachesServices` | src/service/service.rs:127-141 | A well-formed PROXY for fd00::1 starts the CONNECT service at port 8080 and the resolver at port 53, under a new lease; for any other address or port it ends the session without a lease. |
| `ProxyCommands.PingIsEchoed` | src/service/commands.rs:43-50 | A PING is answered with PONG and whatever came behind it, and nothing else changes; the session leaves only if the answer cannot be written. |
| `ProxyCommands.NewAddressGives` | src/service/commands.rs:86-92 | NEWADDR forgets the stale assignments, records the pair drawn, which is free by then, and tells the client ADDR, the address and the passcode. |
| `ProxyCommands.RefusedBindCanRetry` | src/service/commands.rs:111-119 | A BIND for port 0, an unknown passcode or a taken port is answered BIND FAILED and changes nothing else; the session still has its relay sender. |
| `ProxyCommands.OtherLinesEnd` | src/service/commands.rs:36-124 | Any other line, and any line under a lease, ends the session and has no other effect. |
| `NetworkState.BindOutcome` | src/service/net/network.rs:122-160 | In consistent tables a bind succeeds exactly when the port is nonzero, the passcode known and the port free, and is refused for the first of these that fails; it adds one route, counts it on its own assignment, touches that one and changes nothing else. |
| `NetworkState.BindConsistent` | src/service/net/network.rs:131-151 | A bind keeps the bijection and the count of routes on every address. |
| `NetworkState.UnbindOutcome` | src/service/net/network.rs:162-172 | Releasing a bound port finds a count of at least one, takes away that one route and one from that count, touches that assignment and changes nothing else. |
| `NetworkState.UnbindConsistent` | src/service/net/network.rs:162-172 | A release keeps the bijection and the count of routes on every address. |
| `NetworkState.ExpiredConsistent` | src/service/net/network.rs:53-66 | Expiry keeps the tables consistent and strands no route. |
| `NetworkState.ExpiredForgetsExactlyStale` | src/service/net/network.rs:50-66 | A passcode resolves after expiry exactly if it did before and its address has a bound port or was touched less than 24 hours ago. |
| `NetworkState.ExpiredKeepsTheRest` | src/service/net/network.rs:53-66 | What expiry does not forget stays as it was, and so does every route. |
| `NetworkState.IssuedConsistent` | src/service/net/network.rs:103-111 | Handing out a free pair keeps the tables consistent. |
| `NetworkState.IssuedIsFresh` | src/service/net/network.rs:90-115 | A new address is in fd00::/16, is not the proxy's own, has nothing bound on it and shares its passcode with no other. |
| `NetworkState.RejectionsBounded` | src/service/net/network.rs:96-102 | If no address and no passcode is drawn twice, `assign` rejects at most two draws for each table entry before it succeeds. |
| `NetworkState.AsManyPasscodes` | src/service/net/network.rs:43-47 | The two address tables have the same size. |
| `Network.Network.Expire` | src/service/net/network.rs:53-66 | Removes exactly the stale assignments from both maps and leaves the routes alone. |
| `Network.Network.CollectStale` | src/service/net/network.rs:54-60 | Lists every stale assignment with its passcode and nothing else. |
| `Network.Network.DrawFree` | src/service/net/network.rs:96-102 | Finds the first drawn pair that is free in both maps. |
| `Network.Network.Assign` | src/service/net/network.rs:93-115 | Expires, then hands out the first free pair drawn and records it under both names, with nothing bound on it. |
| `Network.Network.BindPort` | src/service/net/network.rs:122-151 | The locked part of `bind`: the route, the count and the time of the new claim, or the error and no change. |
| `Network.Network.UnbindPort` | src/service/net/network.rs:162-172 | Removes a route and takes it off its address's count; no change if there is none. |
| `Network.Network.Deliver` | src/service/net/network.rs:177-186 | Queues one frame with the sender's key on the relay bound to the destination, and succeeds whether or not there is one. |
| `Network.BindHandler.Send` | src/service/net/network.rs:273-285 | Sends a datagram inward or outward as its frame says and touches no other channel; fails exactly for a bad frame and for an outward one with the translation task gone. |
| `Network.BindHandler.Close` | src/service/net/network.rs:287-290 | Releases the handler's own port. |
| `Network.DispatchDecides` | src/service/net/network.rs:273-285 | Every frame that decodes goes exactly one way, chosen by its address alone: inward, re-encoded with the sender's key and the same payload, or out to the peer it names. Re-encoding never fails. |
| `Network.ReplyComesBack` | src/service/net/network.rs:273-285 | Reusing the address of a delivered frame as a destination is dispatched to the key that sent it. |
| `Network.OutsideStaysOutside` | src/service/net/network.rs:240-285 | A frame for a peer outside the private network is always dispatched outward. |
| `Translate.RelayReplyFrames` | src/service/net/network.rs:242-262 | A datagram that fits the receive buffer always becomes one frame that decodes to its peer and payload; the task stops over it exactly when the session no longer reads its relay. |
| `Translate.OneSocketPerFamily` | src/service/net/network.rs:189-225 | Over a whole run all datagrams to one family leave through one socket. |
| `Translate.RunIsExact` | src/service/net/network.rs:205-225 | From the events alone: the socket of a family is the first that a datagram to it has opened; the task runs until its lease is dropped or a datagram from outside finds its session gone; and what goes out is exactly each datagram handed over while it runs whose family has a socket by then and that the system takes, through that socket, to its peer, unchanged, once and in order. |
| `Translate.RelayedIsExact` | src/service/net/network.rs:226-262 | Over a whole run the task relays exactly the datagrams that the sockets opened so far have received while it runs and the session reads its relay, each as one frame that decodes to its peer and payload, in order. |
| `Translate.TranslateTask.Turn` | src/service/net/network.rs:203-237 | One turn of the loop on its own variables does what the step function says, branch by branch; `Translate.RunIsExact` says what that comes to. |
| `Translate.TranslateTask.RunLoop` | src/service/net/network.rs:194-238 | The whole loop ends up with exactly the datagrams sent out, and running or not, that its events say by themselves; and its other variables and what it relays are those of the step function run over them. |
| `Packet.CodecBijection` | src/service/net/packet.rs:57-88 | `decode` inverts `encode` for every payload of up to 65535 bytes, `encode` inverts `decode`, and `decode` accepts exactly what `encode` produces; longer payloads are refused. |
| `Packet.EncodeIsWireForm` | src/service/net/packet.rs:10-19 | `encode` produces the documented header, byte by byte, and nothing else has that form. |
| `Packet.DecodeIsWireForm` | src/service/net/packet.rs:72-87 | `decode` accepts exactly the documented form and reads back its fields. |
| `Packet.EncodeFrame` | src/service/net/packet.rs:57-70 | The growing buffer ends up as the encoding. |
| `Packet.DecodeFrame` | src/service/net/packet.rs:72-87 | The advancing cursor reads what the decoding says, with its three checks. |
| `Packet.PeerRoundTrip` | src/service/net/packet.rs:38-55 | A peer survives the address field exactly if it is not an IPv4-mapped IPv6 address, which comes back as the IPv4 it stands for (section 2.5.5.2 of RFC 4291). |
| `Packet.ToPeerIs` | src/service/net/packet.rs:38-46 | The address field of an IPv4 peer is ten zero bytes, two of 0xff and the address; that of an IPv6 peer is its address. |
| `Packet.UnmappingKeepsNetworkAddresses` | src/service/net/packet.rs:48-55 | Unmapping neither produces nor hides an address in fd00::/16. |
| `Code.PasscodeRoundTrip` | src/service/net/code.rs:57-82 | Every passcode prints as one word of 16 letters and digits, `parse` maps that text back to it, and no other text. |
| `Code.PasscodesAre` | src/service/net/code.rs:66-75 | `parse` accepts exactly the texts of 16 ASCII letters and digits. |
| `Code.NewPasscodeIs` | src/service/net/code.rs:57-64 | Each draw gives its own character: A to Z, then a to z, then 0 to 9. |
| `Code.ClientAddressRange` | src/service/net/code.rs:12-46 | The addresses a client can be given are exactly fd00 followed by six zero bytes and a 64-bit number of at least 256; all are in fd00::/16 and none is the proxy's own fd00::1. |
| `Code.ClientAddressIs` | src/service/net/code.rs:34-46 | An address carries 64 random bits exactly if it is fd00, six zero bytes and those bits with the most significant first. |
| `Code.AddressesCarryDraws` | src/service/net/code.rs:34-46 | The address handed out carries the first draw that is 256 or more; draws below 256 are passed over. |
| `Code.ClientAddressInjective` | src/service/net/code.rs:41-44 | Different random bits give different addresses. |
| `Code.Rng.RandomAddress` | src/service/net/code.rs:34-46 | Skips the reserved draws and lays the first other one out as an address. |
| `Code.Rng.RandomPasscode` | src/service/net/code.rs:58-64 | Makes 16 characters of the alphabet out of 16 draws. |
| `Commands.CommandProcessor.HandleCommand` | src/service/commands.rs:30-130 | Branch by branch on the caller's relay option: the same answer, the same effect on the service and the same relay afterwards as `Commands.Execute`, whose outcome for every line is stated outright in the rows below. |
| `Commands.PingAnswered` | src/service/commands.rs:43-50 | A line that begins with PING is answered PONG and the rest of the line, without touching the service or the relay. |
| `Commands.NewAddressAnswered` | src/service/commands.rs:86-92 | A line with the one word NEWADDR is answered ADDR, the address and the passcode that the service hands out. |
| `Commands.BindAnswered` | src/service/commands.rs:93-119 | A BIND line asks the service for that port and passcode; with a lease it is answered BIND OK and the relay is gone, without one it is answered BIND FAILED and the relay stays. |
| `Commands.ProxyAnswered` | src/service/commands.rs:59-85 | A PROXY line gives the relay away; it is answered PROXY OK if the service has such an address and fails if not. |
| `Commands.OtherLinesFail` | src/service/commands.rs:36-124 | A command fails exactly if it is none of these lines: longer than 255 bytes, not ASCII, other words, or a BIND or PROXY without a relay. |
| `Commands.OthersRefused` | src/service/commands.rs:36-124 | Such a line has no effect on the service or the relay. |
| `Commands.PingReads` | src/service/commands.rs:43-50 | Those and only those lines are answered without the service. |
| `Commands.RelayExchangedForLease` | src/service/commands.rs:80-119 | A command that is answered takes the relay exactly when it makes a lease and makes none without a relay; in particular a refused BIND leaves the relay in place. |
| `Commands.NewAddressReplyReads` | src/service/commands.rs:86-92 | The reply to NEWADDR is made of the words ADDR, the printed address and the passcode. |
| `Commands.NewAddressLineReads` | src/service/commands.rs:86-92 | A command asks for an address exactly if it is the word NEWADDR with any run of the six white space characters before and after it, in at most 255 bytes of ASCII. |
| `Commands.BindLineReads` | src/service/commands.rs:93-104 | A command claims a given passcode and port on the session's relay exactly if it is made of the words BIND, that passcode, UDP and a way to write that port, with any runs of the six white space characters around and at least one between them, in at most 255 bytes of ASCII. |
| `Commands.ProxyLineReads` | src/service/commands.rs:59-83 | A command asks for a link to a given address on the session's relay exactly if it is made, in the same way, of the words PROXY, the family of that address, TCP, a text that parses as its IP address and a way to write its port. |
| `Text.ParseU16Reads` | src/service/commands.rs:102 | The texts that parse as a 16-bit port are its decimal digits with any number of zeros and at most one plus sign in front, and no others. |
| `Text.ParseShowU16` | src/service/commands.rs:102 | In particular a printed port parses back, with or without a leading plus sign. |
| `Text.WordsAre` | src/service/commands.rs:51 | A text splits into given words exactly if it is made of them, with runs of the six white space characters (space and U+0009 to U+000D) between them and any run in front and behind. |
| `Text.HttpWordsAre` | src/service/connectproxy.rs:70 | The words of a request line are found in the same way, except that U+000B does not separate them. |
| `WebTransport.ChunksDoNotMatter` | src/webtransport/client.rs:135-189 | However the bytes of the client's stream are cut into chunks, and whichever response is the first that cannot be written, the responses, the effect on the service, the lease, what is left buffered, success or failure, and the concatenation of what is passed on to the lease are the same. How that is divided into messages is the cutting itself. |
| `WebTransport.ChunksAreMessages` | src/webtransport/client.rs:139-141 | Under a stream lease that takes data, every nonempty chunk is handed over as one message, in order. |
| `WebTransport.OneWriteEach` | src/webtransport/client.rs:158-164 | Over any run of chunks, responses written and writes left add up: a session never answers more commands than its connection takes. |
| `DnsStreams.AnsweredIffWhole` | src/service/dnsproxy.rs:75-84 | A query sent over a WebTransport stream to the resolver, in nonempty chunks, gets its answer and nothing else exactly if it comes in one chunk. |
| `DnsStreams.CuttingDecidesAnswers` | src/service/dnsproxy.rs:75-99 | The input for which cutting matters: the query "h A" in one chunk is answered with the address found, cut behind the h it is answered with two empty record lists. |
| `DnsStreams.EachChunkIsAQuery` | src/service/dnsproxy.rs:75-84 | Every chunk is answered as a query of its own, in order. |
| `WebTransport.FeedIsWhole` | src/webtransport/client.rs:135-175 | Any run of chunks has the outcome of the whole stream in one piece, but for how the bytes passed on to the lease are divided into messages. |
| `WebTransport.DrainAppend` | src/webtransport/client.rs:144-174 | Bytes that arrive after the command loop has run may as well have been in the buffer before, but for how the bytes passed on are divided into messages. |
| `WebTransport.ChunksMatterBelowTheLimit` | src/service/commands.rs:12 | `MAX_COMMAND_SIZE` has to exceed the command limit of 255: under any smaller size there is a PING that is answered in one chunk and ends the session in two. |
| `WebTransport.DrainLine` | src/webtransport/client.rs:145-164 | The loop takes exactly the first line off the buffer, whatever follows it. |
| `WebTransport.DrainSound` | src/webtransport/client.rs:138-175 | The loop exchanges the relay for a lease at most once, never replaces a lease, and leaves nothing to be read as a command once there is one. |
| `WebTransport.WebTransportClient.DrainBuffer` | src/webtransport/client.rs:144-174 | The command loop over the buffer in place: each line taken off and run, the rest passed on once there is a lease, and failure for an unfinished command beyond the limit, a command that fails or a response that cannot be written, exactly as specified. |
| `WebTransport.WebTransportClient.HandleChunk` | src/webtransport/client.rs:138-175 | The loop over the runner's own fields has the specified outcome, keeps the session invariant and leaves no complete command behind. |
| `WebTransport.WebTransportClient.HandleRelay` | src/webtransport/client.rs:112-133 | Writes stream data, or a datagram if the connection has room for it, ignores an empty message under a live lease, and fails for the end of the lease, a closed relay, a datagram that is too large or a connection that is down. |
| `WebTransport.WebTransportClient.HandleDatagram` | src/webtransport/client.rs:191-199 | Drops a datagram without a lease, refuses it on a stream lease and hands it to a bound one. |
| `WebTransport.WebTransportClient.AcceptStream` | src/webtransport/client.rs:74-82 | Accepts one stream and fails for a second. |
| `WebSocket.WebSocketClient.HandleMessage` | src/websocket/client.rs:130-190 | A text message is a command, and fatal once there is a lease; a binary one goes to the lease, and is fatal without one; relay and lease are exchanged at most once, and a lease whose response cannot be written is not kept; a write that fails is an error; only a close message that can be answered ends the session cleanly. |
| `WebSocket.WebSocketClient.HandleRelay` | src/websocket/client.rs:95-125 | Closes for an empty message of an ended lease or a closed relay and writes everything else; a write that fails, of data or of the close frame, is an error. |
| `ConnectProxy.LoopRefinesOneShot` | src/service/connectproxy.rs:84-148 | Over any run of chunks, remote data, errors and disconnects, with the network behaving in any way: nothing upstream and nothing relayed before an acceptable header is complete; after it exactly the bytes behind the header upstream, in order, cut short only by a failed write, and exactly one success reply before any remote data. |
| `ConnectProxy.StepRefines` | src/service/connectproxy.rs:94-147 | Each turn of the loop keeps to the one-shot view of the bytes read so far. |
| `ConnectProxy.ChunksDoNotMatter` | src/service/connectproxy.rs:94-140 | When connecting and writing succeed and the session reads its relay, where the loop stands and what it has sent upstream depend on the client's whole stream alone, however that is cut and whenever the remote end sends, and what it has relayed is the success reply followed by the remote end's data. |
| `ConnectProxy.HeaderCompleteFindsBlankLine` | src/service/connectproxy.rs:43-54 | `header_complete` is true exactly when there is a first blank line, so after it the "Invalid header" error cannot occur. |
| `ConnectProxy.JudgeAppend` | src/service/connectproxy.rs:107-131 | Bytes behind a complete header change neither its acceptance nor where the data begins. |
| `ConnectProxy.RequestLineReads` | src/service/connectproxy.rs:70-79 | A request line is accepted for a host and a port exactly if it is made of the words CONNECT, the host, a colon and a way to write the port, and HTTP/1.1, with blanks around and between them and no further colon. |
| `ConnectProxy.RequestReads` | src/service/connectproxy.rs:48-82 | A header is read, as a host and a port with given bytes behind it, exactly if the stream is ASCII text whose first line is such a request line, then the first blank line, then those bytes (section 9.3.6 of RFC 9110). |
| `ConnectProxy.JudgeReads` | src/service/connectproxy.rs:107-131 | A stream is incomplete exactly while it has no blank line, and is accepted exactly if it is such a request for an allowed host. |
| `ConnectProxy.RunIsAccounted` | src/service/connectproxy.rs:84-148 | From the events alone, over every run: the loop finishes exactly when the remote end closes an established connection; it fails exactly on a client that is gone, a remote error, remote data or a success reply that the relay does not take, a rejected header, a failed connect or a write cut short; until then it runs; and what it has read, sent upstream and relayed is exactly what those events call for. |
| `ConnectProxy.SuccessReplyReads` | src/service/connectproxy.rs:19-20 | The success reply is its status line, its one header line and an empty line. |
| `ConnectProxy.ConnectLoop.Turn` | src/service/connectproxy.rs:94-147 | One turn on the loop's own variables does what the step function says, branch by branch; `ConnectProxy.RunIsAccounted` says what that comes to. |
| `ConnectProxy.ConnectLoop.RunLoop` | src/service/connectproxy.rs:84-148 | The whole loop ends with the status, the bytes upstream and the messages relayed that its events call for, and its other variables are those of the step function run over them. |
| `DnsChoice.AnswerIsCorrect` | src/service/dnsproxy.rs:86-165 | A client that sends a host name and the type A, AAAA or ANY, with any white space around them, decodes from the answer at most four of the addresses found, each once, of IPv4 for A, of IPv6 for AAAA, of both for ANY, IPv6 first and otherwise in the order found; one of a wanted family is left out only if four preferred ones were taken; and after a failed lookup it gets none. |
| `DnsChoice.BadQueryGetsNothing` | src/service/dnsproxy.rs:89-99 | Any other data is answered with an empty list. |
| `DnsChoice.GoodChoiceIsUnique` | src/service/dnsproxy.rs:137-149 | That description leaves no choice: only one list of addresses meets it. |
| `DnsChoice.DistinctKeepsOrder` | src/service/dnsproxy.rs:127-134 | De-duplication does not change which of two addresses comes first. |
| `DnsChoice.SelectedIsGood` | src/service/dnsproxy.rs:140-149 | Filtering, chaining and taking four make the good choice for the type that the filter stands for. |
| `DnsProxy.ReplyDecodes` | src/service/dnsproxy.rs:137-165 | Every reply decodes to exactly the selected addresses, and is between 1 and 69 bytes long, so the count byte loses nothing. |
| `DnsProxy.DistinctIsSet` | src/service/dnsproxy.rs:127-134 | De-duplication keeps every address, once. |
| `DnsProxy.QueryReads` | src/service/dnsproxy.rs:101-116 | Data reads as a query for a host name and a filter exactly if it is ASCII and made of that name and the type of that filter, with any runs of the six white space characters around and at least one between them. |
| `DnsProxy.Lookup` | src/service/dnsproxy.rs:119-135 | The loop over what was found yields the addresses without duplicates, none for a failed lookup. |
| `DnsProxy.EncodeReply` | src/service/dnsproxy.rs:137-165 | The buffer ends up as the count and the records of the selected addresses. |
| `DnsProxy.AnswerQuery` | src/service/dnsproxy.rs:89-99 | A bad query and a failed lookup are answered with an empty record list. |
| `DnsProxy.Serve` | src/service/dnsproxy.rs:75-84 | One reply for each query, in the order of the queries, for as long as the session reads its relay. |

## Left out

- TLS, certificates, settings, listeners, accept loops and `main` (`src/main.rs`, `src/settings.rs` and the accept code of both transports).
- The WebSocket, QUIC and WebTransport libraries: their messages, chunks and datagrams are arbitrary inputs, an error or the end of a connection may come whenever a session waits for something, and writes append to what the session has written. A write either succeeds or fails; how much of a failed one reached the client is not modelled.
- `UdpSocket`, `TcpStream::connect`, partial TCP writes and `lookup_host`: arbitrary results. A CONNECT turn, with its connect and its writes, is one step, so a session cannot leave in the middle of one; it can leave just before or just after.
- Parsing and printing of IP addresses by the standard library: an arbitrary partial function from text to addresses and an arbitrary printer; only `Commands.NewAddressReplyReads` asks that printing yields one word.
- The registry of clients, the client ids and the outer lock of `src/service/service.rs`, which only serialises what is serialised already.
- Logging, error texts and close codes: results are told apart only as far as the code goes on differently.
- How good the random draws are. Termination of the retry loops is proved only for draws that repeat neither an address nor a passcode.
- Fairness and timing of `select!`: any ready branch may be taken, and nothing is proved about what must happen eventually.
- The panic on a raw WebSocket frame (`src/websocket/client.rs:175`), which reading never yields.
- A unidirectional WebTransport stream (`src/webtransport/client.rs:83-86`) and failed reads are the `Disconnect` step of `Proxy`; a client that closes its command stream merely sends no more chunks.
- A WebSocket session that cannot write the response to a command drops the lease it has just been given before it drops its relay's receiver; `Proxy` lets it do both in the other order, as a WebTransport session does.
- `ProxyOversize.DatagramFate`: of the ways in which the transport can refuse a datagram, size is told apart; that datagrams are switched off altogether is a connection that is not up.
- `Packet.PeerRoundTrip`: the scope id and the flow label of an IPv6 socket address are not modelled; the frame has no place for them, so a link-local peer comes back without its scope.
- `DnsProxy.Lookup`: the result of a lookup is reduced to its IP addresses, in the order found; the port, always 0, is not modelled.
- `WebTransport.ChunksDoNotMatter`: says whether a lease takes data once for all the chunks compared, because a task that stops in the middle of them stops at a moment the stream does not decide; `ProxyTraffic.GivenIsHanded` covers leases that end at any time.
- `ConnectProxy.ChunksDoNotMatter`: assumes that connecting and writing succeed, because a failed connect or write comes at a moment the stream does not decide; `ConnectProxy.LoopRefinesOneShot` covers every failure.
- `Network.Network.Expire`: the hash map's order of iteration is any order; nothing depends on it.
- `Translate.RunIsExact`: says nothing about datagrams the network loses after `send_to`.
