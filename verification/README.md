# nport: a verified model

nport makes local HTTP hosts and TCP ports reachable through a public server. A client
program, np, keeps one websocket open to the server. The server claims hostnames and opens
TCP ports for it, and everything that arrives there travels down the websocket to np, which
forwards it to local addresses.

This project models the parts in which many things happen at once, and the names and
addresses they depend on, and proves their properties with Dafny. `dafny verify
dfyconfig.toml` checks everything.

**TCP tunnels.** Every connection has a task on either side, all of them share the websocket,
and one receive loop per side feeds the tasks through bounded channels. `PortTask` is one
task, step by step; `PortScript` tells from the events alone what a task sends and writes and
why it ends; `PortLoop` has the two loops as they are written, with their buffer, and proves
them equal to the one and faithful to the other. `Session` is the whole system: tasks, channels, writer tables,
receive loops, accept loops, both directions of the websocket, every failure. Its theorems
(`SessionTheorems`) hold in every state that any interleaving reaches: streams arrive in
order and without gaps, a close is a promise of complete delivery, buffers are bounded, np
dials the right address. The invariant behind them is in `SessionInv`, `Lanes`,
`SessionSteps` and `SessionHandshake`; `SessionReplies` shows that every reply to a handshake
is expected and heard as it was given, and `SessionRuns` that any conversation can take
place. `NpClient` and `ServerClient` are the two `Client`
objects with the tables they update in place; handling a message is proved to be a legal
sequence of steps of `Session`.

**Hostnames.** Who owns a hostname is stored twice and guarded by several locks, and no
operation is atomic. `RegistryOps` takes each operation apart into its steps, with fair
queues for the locks. `RegistryInv` and `RegistryTheorems` show that under all interleavings
no name ever has two owners, that lookup is linearizable, and that operations never block each
other for good; `RegistryFair` shows that none starves, whatever others begin.
`RegistryBooks` says what each operation does when it is alone; the class in `Registry`
does that, and so do the interleaved operations when nothing comes between (`RegistryAlone`).
`HttpTunnels` follows a hostname to np's own table, `HttpRequests` matches responses to
requests, and `HttpHandlers` has the two handlers that connect the registry, the client's
record and the websocket.

**Names and addresses.** `Addr` (module `Addresses`) parses and prints addresses, `Hostname`
validates hostnames, `Subdomain` has what a client may ask for and where a request is routed.
`AddressLaws` and `SubdomainLaws` say of the strings themselves what all of this comes to.
`Text` has splitting, joining and decimal numbers.

**Certificates.** `CertExpiration`, `CertRenewal` and `CertStore` have the expiry of a chain
and renewals around one lock.

## What is assumed

- Uuids are fresh. The websocket is FIFO in each direction, and once a send has failed all
  later sends in that direction fail; the failed message itself may or may not arrive. Without
  this the server, which only logs a failed send of data, could leave a gap in a stream.
- One session that starts from empty tables; np's main loop and the server's session loop each
  end at most once.
- `str::to_lowercase`, the text of IPv6 addresses (section 4 of RFC 5952) and X.509 parsing are
  parameters. Only these laws are used: lowering is the usual one on ASCII, leaves no upper
  case ASCII letter, and neither adds nor removes dots (`Subdomain.LawsAreMet`: the laws can be
  met); printing an IPv6 address and parsing it gives it back, and no string that
  parses has `]` or `%` or lacks a colon; a certificate takes at least one byte.
- Strings are sequences of characters. Lengths in `IsValid` are compared in characters, which
  are bytes for every accepted string since only ASCII is accepted.

## Where the code and its documentation disagree

The example configuration in the repository's README (line 38) asks for the TCP address
`tcp.nport.io:9999`. `validate_open` strips the domain from the requested host before it
compares it with the full TCP hostname, so with a TCP subdomain configured it refuses exactly
this host. The model follows the code: `Subdomain.OwnTcpHostnameIff` says when the server's own
TCP hostname is accepted (a port that may be asked for, no TCP subdomain, and a domain in lower
case), and `Subdomain.ReadmeAddressRefused` is the example.

Two more promises hold only under a condition, which is stated exactly. Printing and parsing
give an address back if and only if it is in normal form (`Addresses.RoundTrip`); every parsed
address is. The full form of a label is accepted as that label if and only if lowering leaves it
as it is (`Subdomain.FullFormIff`); for an ASCII domain: if and only if the domain has no upper
case letter (`Subdomain.LowercaseFullForm`).

A status that np sends is truncated to 16 bits, and one that is then no status makes the handler
panic. `HttpRequests.StatusIsTheAnswer` says when the visitor gets np's status: exactly when it
is from 100 to 999.

## Model

| member | source | states |
|---|---|---|
| SessionTheorems.StreamsArePrefixes | nport-server/src/server/port_server.rs:92-170 | In every reachable state, for every connection and in both directions, the bytes written to the far socket are a prefix of those read from the near one, whatever fails. |
| SessionTheorems.NothingInFlightIsLost | np/src/client.rs:250-269 | While both tasks forward and the direction is alive, bytes read are written, being written, in the channel, held by the receive loop, on the wire or being sent, in this order and nowhere else. |
| SessionTheorems.CompleteNow | np/src/client/port.rs:32-43 | A task on either side that dequeued Close has written everything the other side read; that side saw end of file and is no longer running. |
| SessionTheorems.CloseMeansDeliveredToNp | np/src/client/port.rs:39-43 | Told to close by the server, np's side stays complete: no further step of the system changes either amount. |
| SessionTheorems.CloseMeansDeliveredToServer | nport-server/src/server/port_server.rs:109-112 | The same for a close that reaches the server's task. |
| SessionTheorems.ServerTrace | nport-server/src/server/port_server.rs:55-142 | All that the server ever puts on the wire about a uuid is nothing, or one PortConnect, then data, then at most one close. |
| SessionTheorems.DataFindsItsWriter | np/src/dispatch/port.rs:10-27 | When data for a uuid is in np's hand its task was started, and its writer is registered unless that task is over. |
| SessionTheorems.SendHasReceiver | nport-server/src/server/client.rs:172-182 | A receive loop that waits for room in a channel waits for a task that still holds the receiver, on either side. |
| SessionTheorems.DataOnlyWhenConfirmed | nport-server/src/server/port_server.rs:71-88 | No data is sent for a uuid before the server handled a positive PortConnected for it. |
| SessionTheorems.DialledAsAsked | np/src/client.rs:234-248 | np's task for a uuid is connected to the local address of the PortOpen that created the listener which accepted it. |
| SessionTheorems.DialsIffAnnounced | np/src/client/port.rs:101-107 | On a PortConnect np dials if and only if it handled that listener's PortOpened before, and then the address which that PortOpen named. |
| SessionTheorems.HandshakeBound | nport-server/src/server/port_server.rs:193-218 | A client's connection requests never hold two entries of one listener, so never more than it has listeners. |
| SessionTheorems.BufferBound | nport-server/src/server/port_server.rs:53 | Data past the websocket and not yet taken by a task: at most 512*(4n+1) bytes on the server and 512*(n+1) in np, n being the registered channels. |
| SessionTheorems.WritersHaveReceivers | np/src/client/port.rs:94-98 | On either side a registered writer belongs to a task that has not dropped its receiver. |
| SessionReplies.ReplyFindsWhoAsked | nport-server/src/server/client.rs:119-133 | A PortConnected that the server receives always finds its entry, so it never ends the session; its accept loop waits for it, or gave up when sending PortConnect failed. |
| SessionReplies.ToldTheTruth | nport-server/src/server/port_server.rs:71-82 | In every reachable state an accept loop that has its reply was told yes if and only if a positive reply was handled. |
| SessionReplies.HandshakeCompletes | nport-server/src/server/port_server.rs:71-92 | A reply whose accept loop waits can be handled and the loop resumed at once; then the server has a task and a writer for the connection if and only if the reply was positive, and no other task, writer or listener has changed. |
| SessionReplies.OnlyUnknownDataEnds | nport-server/src/server/handlers/websockets.rs:63-84 | The session loop is ended only by a failed receive, a failed answer, or data for a connection without a writer. |
| SessionReplies.RunExpected | nport-server/src/server/port_server.rs:55-69 | Over every run a connection's handshake (its PortConnect or the reply) is in one place at most, and while it is anywhere its connection request is kept. |
| SessionHandshake.RunKeeps | nport-server/src/server/handlers/websockets.rs:63-84 | The invariant behind these theorems survives every schedule of any length. |
| SessionRuns.Conversation | nport-server/src/server/port_server.rs:45-170 | For any chunks said by the two ends in any order there is a run from empty tables in which np dials its local address, each socket is written exactly what the other end said, one task reads the end and the other is told to close. |
| SessionRuns.OpensPort | nport-server/src/server/msghandlers/port.rs:36-78 | From any quiet state a free port can be opened, and what that changes. |
| SessionRuns.MakesConnection | nport-server/src/server/port_server.rs:55-92 | From any quiet state a listener that np knows can take a new connection to two waiting tasks. |
| SessionRuns.Carries | np/src/client/port.rs:24-98 | A chunk, or the end, can go from either side to the other, and what that changes on both. |
| SessionRuns.BreaksDown | nport-server/src/server/port_server.rs:153-170 | When the session loop fails and the client is let go, an idle connection can notice, unregister and end as released, and its accept loop can stop. |
| SessionRuns.TaskCanFail | np/src/client/port.rs:32-92 | Reading, writing and sending can fail whenever a task does so. |
| SessionRuns.LoopCanFail | nport-server/src/server/handlers/websockets.rs:63-84 | So can receiving, binding, dialling and whatever the loops send. |
| PortTask.RunGood | nport-server/src/server/port_server.rs:92-170 | Over any run of a task on either side, what it sends carries what it read and what it writes is what it took, in order. |
| PortTask.LeftForGood | np/src/client/port.rs:94-98 | A task that has left its loop reads, sends, takes and writes nothing more. |
| PortLoop.WriteAll | np/src/client/port.rs:35 | Writing in pieces until done or failed is the task's Write steps, whatever the pieces. |
| PortLoop.ServeSocket | nport-server/src/server/port_server.rs:92-170 | For every script of events the server's loop, with its reused buffer, has sent exactly the messages the script's reads and sends give, has written exactly as many of the bytes it took as the script says, and is out of its loop if and only if an event ended it: a close, a failed write, a released client, a failed read, or the sending of a close, failed or not; with that cause. |
| PortLoop.ClientPort | np/src/client/port.rs:16-98 | The same for np's loop, which goes on after a failed read and ends on any failed send. |
| PortScript.RunFaithful | np/src/client/port.rs:24-98 | The task of either side is, after any script, where the events alone say, and has sent and written what they say. |
| PortScript.NextEvents | nport-server/src/server/port_server.rs:96-165 | Which event can come next, said by the events so far: reads of at most 512 bytes and dequeues only with nothing left to write or send, writes only of what is left, sends only after a read, unregistering only once after the end. |
| NpClient.Client.ConnectTo | np/src/client.rs:112-130 | Once connected, empty tables are those of the session's first state. |
| NpClient.Client.Disconnect | np/src/client.rs:132-138 | The connection and all tables are gone. |
| NpClient.Client.HttpRegister | np/src/client.rs:148-161 | The first successful HttpOpened for a name sets its address, later ones are errors and change nothing. |
| NpClient.Client.HttpDeregister | np/src/client.rs:163-170 | A name is removed if it was there; otherwise an error. |
| NpClient.Client.PortRegister | np/src/client.rs:195-210 | The first announcement of an origin stays; an error or a repeated origin changes nothing. |
| NpClient.Client.PortWriterRegister | np/src/client.rs:212-226 | A writer is added exactly if its uuid has none. |
| NpClient.Client.PortWriterRemove | np/src/client.rs:228-232 | Removing a leaving task's writer is that task's Unregister step. |
| NpClient.Client.PortMessage | np/src/client.rs:250-260 | A message goes to the end of its own channel and to no other, waits if the channel is full, and is refused for an unknown uuid or a receiver that is gone. |
| NpClient.Client.Start | np/src/client/port.rs:101-107 | A fresh channel is registered only after a successful connection, and only for a uuid without one. |
| NpClient.Client.Send | np/src/client.rs:271-282 | Without a connection an error; otherwise the message is added to the wire or the wire breaks, or both. |
| NpClient.Client.Connect | np/src/dispatch/port.rs:10-27 | Answering PortConnect is a legal sequence of session steps from any state it shows: look up, dial, register, then reply, positively if and only if a task was started. |
| NpClient.Client.StartFor | np/src/client.rs:234-248 | A task starts if and only if the origin is known, the connection succeeds and the uuid has no writer. |
| NpClient.Client.Receive | np/src/client.rs:262-269 | In a reachable session data goes to its channel or waits for room there; for an unknown uuid it is only logged. |
| NpClient.Client.Message | np/src/dispatch/mod.rs:12-64 | From any reachable state it shows, handling a tunnel message leaves a reachable state that legal session steps lead to, with the loop free, or waiting on a full channel. |
| ServerClient.Client.AddHttpHostname | nport-server/src/server/client.rs:68-70 | Adds the name and tells whether it is new. |
| ServerClient.Client.RemoveHttpHostname | nport-server/src/server/client.rs:72-74 | Removes the name and tells whether it was there. |
| ServerClient.Client.RegisterHttpRequest | nport-server/src/server/client.rs:85-92 | A fresh oneshot is kept under a fresh id: the Enqueue step of the request matching. |
| ServerClient.Client.SendHttpResponse | nport-server/src/server/client.rs:94-105 | Completes the oneshot of this id if somebody still waits, and no other; without an entry it is an error. The new state is the one of the Responds step. |
| ServerClient.Client.RegisterConnectRequest | nport-server/src/server/client.rs:107-117 | A fresh oneshot is kept under the uuid. |
| ServerClient.Client.SendConnectedResponse | nport-server/src/server/client.rs:119-133 | The reply goes to the one who asked and the entry goes; without an entry it is an error. |
| ServerClient.Client.PortWriterRegister | nport-server/src/server/client.rs:150-164 | A writer is added exactly if its uuid has none. |
| ServerClient.Client.PortWriterRemove | nport-server/src/server/client.rs:166-170 | Removing a leaving task's writer is that task's Unregister step. |
| ServerClient.Client.PortMessage | nport-server/src/server/client.rs:172-182 | As np's, with room for four messages: to its own channel, or waiting, or refused for an unknown uuid or a receiver that is gone. |
| ServerClient.Client.ServeSocket | nport-server/src/server/port_server.rs:45-69 | Accepting a connection registers the request before PortConnect is sent: the steps Accept and AskNp. After a failed send the listener is over. |
| ServerClient.Client.ServeReply | nport-server/src/server/port_server.rs:71-90 | Only a positive reply registers the writer and starts the task. |
| ServerClient.Client.Open | nport-server/src/server/msghandlers/port.rs:36-78 | PortOpen: a port from 1 to 1023 or a host that does not name the TCP hostname is refused and opens nothing, whatever binding would give; otherwise the bound port, the requested one unless 0, is recorded and announced under the TCP hostname. A failed answer ends the session. |
| ServerClient.Client.Connected | nport-server/src/server/msghandlers/port.rs:80-87 | A reply reaches who asked and nobody else, and the accept loop that waits for it hears what the oneshot holds; without an entry it would end the session. |
| ServerClient.Client.AnswerOpen | nport-server/src/server/msghandlers/port.rs:66-77 | A port that was bound is recorded and announced, without one the answer is a refusal. |
| ServerClient.Client.Receive | nport-server/src/server/msghandlers/port.rs:89-105 | Data or a close for an unknown uuid ends the session. |
| ServerClient.Client.Message | nport-server/src/server/handlers/websockets.rs:63-84 | From any reachable state it shows, handling a tunnel message leaves a reachable state that legal session steps lead to, with the loop free, waiting, or over; a reply always reaches who asked. |
| Session.PortLegal | np/src/client.rs:250-260 | Looking a writer up and sending to it are legal steps, and what they come to, on either side. |
| RegistryTheorems.ClaimedIsHeldOnce | nport-server/src/server/registry.rs:22-59 | At every instant a name is claimed if and only if it has a holder (a client not yet freed, a half-done claim or a half-done release), and it has only one. |
| RegistryTheorems.VisibleDisjoint | nport-server/src/server/registry.rs:40-70 | At every instant the names of registered clients are claimed and pairwise disjoint. |
| RegistryTheorems.HalfClaimed | nport-server/src/server/registry.rs:40-51 | Between the halves of a claim the name is taken, yet no registered client has it. |
| RegistryTheorems.DeregisterFrees | nport-server/src/server/registry.rs:22-38 | When deregister finishes its client is off the list and all its names are claimable. |
| RegistryTheorems.DeregisterSucceeds | nport-server/src/server/registry.rs:26-37 | A registered client is always found in the list. |
| RegistryTheorems.LookupNobody | nport-server/src/server/registry.rs:61-70 | A lookup without result: at an instant of its scan no registered client had the name. |
| RegistryTheorems.LookupSomebody | nport-server/src/server/registry.rs:61-70 | A lookup with a result: when it answers, that client is registered and is the only one with the name. |
| RegistryTheorems.NoHandover | nport-server/src/server/registry.rs:40-70 | During a scan no step passes a visible name from one client to another; in between nobody has it. |
| RegistryTheorems.LookupsShare | nport-server/src/server/registry.rs:61-70 | A lookup first in the queue proceeds if and only if nobody changes the list, however many others read it. |
| RegistryTheorems.NeverStuck | nport-server/src/server/registry.rs:22-70 | While an operation is unfinished some operation can take a step. |
| RegistryTheorems.StepsRunOut | nport-server/src/server/registry.rs:22-70 | Each step lowers the steps that the operations in progress have left. |
| RegistryTheorems.RunsOut | nport-server/src/server/registry.rs:22-70 | Once no operation begins any more, those in progress take no more steps than that number. |
| RegistryFair.EveryOperationFinishes | nport-server/src/server/registry.rs:22-70 | In every fair run without end each operation that begins finishes, whatever others begin meanwhile: nobody starves. |
| RegistryFair.StepsDelayNobody | nport-server/src/server/registry.rs:22-70 | No step takes an unfinished operation further from its end, and a step of one that helps brings it nearer. |
| RegistryFair.BeginsDelayNobody | nport-server/src/server/registry.rs:22-70 | An operation that begins leaves the delay of every other as it is. |
| RegistryFair.HelperExists | nport-server/src/server/registry.rs:22-70 | For an unfinished operation somebody can take a step that brings it nearer its end. |
| RegistryFair.HelperStays | nport-server/src/server/registry.rs:22-70 | Who can help can still help after any step of another. |
| RegistryAlone.CanBegin | nport-server/src/server/handlers/websockets.rs:56-87 | A new client can register, one with nothing in progress can claim, release and deregister, and a name can be looked up at any time. |
| RegistryBooks.ReleaseUndoesClaim | nport-server/src/server/registry.rs:40-59 | Releasing what was just claimed restores the books. |
| RegistryInv.RunKeeps | nport-server/src/server/registry.rs:14-71 | The invariant of jobs, locks, members and owners holds at every instant of every run. |
| RegistryBooks.ClaimedSound | nport-server/src/server/registry.rs:40-51 | A claim keeps each claimed name with exactly one client, and a successful one makes the claimer the one found. |
| RegistryBooks.ReleasedSound | nport-server/src/server/registry.rs:53-59 | So does a release; after it nobody is found and the name is free. |
| RegistryBooks.LeftSound | nport-server/src/server/registry.rs:22-38 | So does deregister; it frees all names of its client and none of any other. |
| RegistryBooks.FirstWithIffClaimed | nport-server/src/server/registry.rs:61-70 | Among sound books a name is found if and only if it is claimed, at its only holder. |
| RegistryAlone.RegisterAlone | nport-server/src/server/registry.rs:15-20 | The interleaved operation, undisturbed, adds one client without names. |
| RegistryAlone.ClaimAlone | nport-server/src/server/registry.rs:40-51 | The interleaved claim, undisturbed, has the result and the effect of the specification. |
| RegistryAlone.ReleaseAlone | nport-server/src/server/registry.rs:53-59 | The same for release. |
| RegistryAlone.DeregisterAlone | nport-server/src/server/registry.rs:22-38 | The same for deregister, including the order that `swap_remove` leaves. |
| RegistryAlone.LookupAlone | nport-server/src/server/registry.rs:61-70 | The same for lookup, which changes nothing and finds the first client with the name. |
| HostRegistry.Registry.Register | nport-server/src/server/registry.rs:15-20 | A new client without names at the end of the list. |
| HostRegistry.Registry.Deregister | nport-server/src/server/registry.rs:22-38 | Removes the client by `swap_remove` and frees exactly its names; false and no change if it is not there. |
| HostRegistry.Registry.Position | nport-server/src/server/registry.rs:27 | The first place of the client in the list, or its length if it is not there. |
| HostRegistry.Registry.FreeNames | nport-server/src/server/registry.rs:29-33 | Exactly the client's names stop being claimed. |
| HostRegistry.Registry.Claim | nport-server/src/server/registry.rs:40-51 | Succeeds if and only if the name was free; then it is claimed and the client's. |
| HostRegistry.Registry.Release | nport-server/src/server/registry.rs:53-59 | Succeeds if and only if the client had the name; then it is free. |
| HostRegistry.Registry.GetByHttpHostname | nport-server/src/server/registry.rs:61-70 | Finds a client if and only if the name is claimed, and then its only holder. |
| HttpTunnels.TableFollows | nport-server/src/server/msghandlers/http.rs:45-90 | Whenever no handler is at work, applying the messages on the wire to np's table gives exactly the server's names for it, each with the address of its HttpOpen. |
| HttpTunnels.RequestFindsItsNames | np/src/dispatch/http.rs:48-55 | Whenever a request is sent, np's table when it handles it agrees with the server's names at sending on every name but the one a handler was at work on. |
| HttpTunnels.CatchesUp | np/src/client.rs:148-170 | With no handler at work np can handle message after message until the wire is empty, and then has exactly the server's names. |
| HttpTunnels.OthersCan | nport-server/src/server/registry.rs:40-59 | Other clients can claim whatever is free and free whatever is not this client's. |
| HttpTunnels.CanSend | nport-server/src/server/msghandlers/http.rs:59-67 | While the websocket lives an answer can be sent, which frees the handler, and so can a request at any time. |
| HttpTunnels.RequestFindsItsTable | np/src/dispatch/http.rs:48-55 | With no handler at work, exactly those names. |
| HttpTunnels.RunKeeps | np/src/client.rs:148-170 | The correspondence holds over every run, also while a handler is between its halves. |
| HttpHandlers.Open | nport-server/src/server/msghandlers/http.rs:14-67 | A request for nothing gets the generated name; one for a label (short or full form) that is a free lower case label gets that label under the domain, whatever was generated; it is the client's exactly if nobody had it, and any other request changes nothing. The error says which: taken, invalid or disallowed. |
| HttpHandlers.OpenFree | nport-server/src/server/msghandlers/http.rs:45-67 | A hostname becomes the client's unless somebody has it, and the answer says which. |
| HttpHandlers.HostnameForIff | nport-server/src/server/msghandlers/http.rs:19-44 | Which hostname a request gets, said of the strings. |
| HttpHandlers.WhyRejected | nport-server/src/server/msghandlers/http.rs:20-33 | A request is disallowed if and only if it asks for a label that is not free, invalid if and only if it asks for no label. |
| HttpHandlers.Close | nport-server/src/server/msghandlers/http.rs:69-91 | A client gives up a name only if it is its own, and is told so. |
| HttpHandlers.OpenLegal | nport-server/src/server/msghandlers/http.rs:45-67 | Opening is the steps of a claim followed by an answer: the name is taken, or new for this client. |
| HttpHandlers.CloseLegal | nport-server/src/server/msghandlers/http.rs:69-91 | Closing is the steps of a release followed by an answer. |
| HttpRequests.ResponsesMatch | nport-server/src/server/client.rs:85-105 | Over any run a client's pending ids are exactly those sent to it and not yet answered, and a request is completed only by a response with its id from its client. |
| HttpRequests.StatusIsTheAnswer | nport-server/src/server/handlers/websockets.rs:149-246 | A visitor waits exactly while the outcome is open, gets np's status if and only if it is from 100 to 999, and the handler panics if and only if the truncated one is not; a status other than 404, 500, 502 and 504 comes from np, by this request and from the client it was sent to. |
| HttpRequests.DecidedAs | nport-server/src/server/handlers/websockets.rs:149-184 | After a timeout the visitor has 504, after a failed send 404, after the client's drop 500, after its client's response 502 for an error, 500 for an empty one and np's truncated status (or a panic) for data; whatever follows. Nothing else decides a request. |
| HttpRequests.CanBeDecided | nport-server/src/server/handlers/websockets.rs:161-169 | A waiting request can be decided in each of these ways. |
| HttpRequests.Connected | nport-server/src/server/client.rs:50-62 | A new client connects with nothing pending. |
| HttpRequests.Enqueued | nport-server/src/server/handlers/websockets.rs:279-322 | A request for a connected client waits, under its id and for that client; without a client the visitor has 404. |
| HttpRequests.DecidedOnce | nport-server/src/server/handlers/websockets.rs:161-184 | The outcome of a request never changes once it is decided. |
| HttpRequests.ResponseTouchesOne | nport-server/src/server/client.rs:94-105 | A response changes no other request, and nobody's outcome if its own no longer waits; the session ends if and only if there was no entry. |
| Addresses.ParseNormal | libnp/src/lib.rs:51-62 | Every parsed address is in normal form: no empty, localhost or loopback host, IPv6 in canonical text. |
| Addresses.RoundTrip | libnp/src/lib.rs:108-141 | Printing and parsing give an address back if and only if it is in normal form. |
| Addresses.ParseThenPrint | libnp/src/lib.rs:123-141 | What a string parses to prints to a string that parses to the same. |
| Addresses.SameText | libnp/src/lib.rs:131-141 | Two addresses print alike if and only if their hosts, with the default one filled in, and ports agree. |
| Addresses.ParsedPrintApart | libnp/src/lib.rs:123-141 | Two parsed addresses print alike if and only if they are equal. |
| Addresses.SameOrigin | libnp/src/lib.rs:236-246 | The key of a port forwarding tells addresses apart exactly as their text does. |
| AddressLaws.ParseIff | libnp/src/lib.rs:108-129 | A string parses, to this address, exactly if it is a host without colon or a bracketed IPv6 address (a scope allowed), a colon and a port below 65536; hosts that stand for this machine are dropped, other IPv6 addresses come out in canonical text. |
| AddressLaws.HereIff | libnp/src/lib.rs:32-58 | Dropped are exactly the empty host, localhost, 127.0.0.0 to 127.255.255.255 and the IPv6 address 1. |
| AddressLaws.Ip4Iff | libnp/src/lib.rs:32-37 | IPv4 text is four decimal octets with dots between them, in one spelling. |
| AddressLaws.PortTextIff | libnp/src/lib.rs:113-120 | A port is a decimal numeral, leading zeros allowed; after a plus sign only where no socket address parses. |
| AddressLaws.BaseTen | libnp/src/lib.rs:139 | Ports are written in base ten. |
| AddressLaws.PrintText | libnp/src/lib.rs:131-141 | The text of an address and the key of a forwarding, letter by letter. |
| AddressLaws.AddressSurvives | libnp/src/lib.rs:64-106 | An address survives the websocket; only ports of more than 16 bits are cut. |
| Hostname.ValidIff | nport-server/src/server/hostname.rs:1-12 | Accepted are exactly the dot-joins, up to 253 characters, of non-empty labels of at most 63 letters, digits and hyphens with no hyphen at an edge. |
| Hostname.ValidLower | nport-server/src/server/hostname.rs:5-12 | Lowering keeps validity. |
| Hostname.ValidJoin | nport-server/src/server/hostname.rs:5-12 | Two valid names joined by a dot are valid if the length allows. |
| SubdomainLaws.SubdomainIff | nport-server/src/server/msghandlers/common.rs:20-42 | A name is granted if and only if it is one lower case label, is asked for in the short or the full form, and is neither the API nor the TCP label nor blocked; disallowed if and only if such a label is not free; invalid if and only if no label is asked for. |
| SubdomainLaws.AnyIff | nport-server/src/server/msghandlers/common.rs:24-27 | A generated name is used if and only if none is requested. |
| SubdomainLaws.LowerExample | nport-server/src/server/msghandlers/common.rs:12 | How ASCII is lowered, letter by letter. |
| SubdomainLaws.Configured | nport-server/src/server/config.rs:285-317 | The server's labels, hostnames and blocklist, from its configuration. |
| SubdomainLaws.ValidateOpenIff | nport-server/src/server/msghandlers/port.rs:18-34 | A port from 1 to 1023 is never allowed, whatever the host; a host is allowed if and only if, lowered and stripped of the domain, it is the TCP hostname. |
| SubdomainLaws.RouteIff | nport-server/src/server/implementation.rs:150-167 | A request goes to the API if and only if its Host header names the API hostname, with or without a port, and the path is np's; to the main site if and only if it names the apex domain otherwise; else to forwarding. |
| Subdomain.AcceptedIsCanonical | nport-server/src/server/msghandlers/common.rs:10-42 | An accepted subdomain is one valid lower case label, and asking for it gives it again. |
| Subdomain.FullFormIff | nport-server/src/server/msghandlers/common.rs:10-18 | The full form asks for the same label if and only if lowering leaves it as it is, for every configured domain. |
| Subdomain.LowercaseFullForm | nport-server/src/server/msghandlers/common.rs:10-18 | For an ASCII domain that is so if and only if the domain has no upper case letter. |
| Subdomain.HostnamesApart | nport-server/src/server/msghandlers/http.rs:39-44 | Two labels claim the same hostname if and only if they are equal. |
| Subdomain.ClaimedIsNotReserved | nport-server/src/server/config.rs:285-357 | An accepted label never claims the main, API or TCP hostname. |
| Subdomain.ClaimedIsForwarded | nport-server/src/server/implementation.rs:150-167 | A request for a claimed hostname, without port, is routed to forwarding, for every configured domain and every path. |
| Subdomain.OwnTcpHostnameIff | nport-server/src/server/msghandlers/port.rs:18-34 | The server's own TCP hostname is accepted if and only if the port may be asked for, there is no TCP subdomain and lowering leaves the domain as it is. |
| Subdomain.ReadmeAddressRefused | nport-server/src/server/msghandlers/port.rs:26-31 | The address in the README's example is refused. |
| Expiration.CertExpiration | nport-server/src/cert/store.rs:222-238 | Fails if and only if the bytes are not certificates one after the other; otherwise the earliest of 9999-12-31 and all their expiries. |
| Expiration.MaximumDate | nport-server/src/cert/store.rs:224-226 | The fixed maximum is the first second of 9999-12-31. |
| CertRenewal.OneRequest | nport-server/src/cert/store.rs:172-184 | However many renewals run, at most one requests a certificate. |
| CertRenewal.RequestedWhenStale | nport-server/src/cert/store.rs:165-184 | Each request is made by the holder of the lock, for a certificate that was missing, unreadable or within 30 days of expiry at that check. |
| CertRenewal.OkMeansSettled | nport-server/src/cert/store.rs:172-184 | During a renewal that returns Ok each of the two certificates was fresh at some instant, or it renewed it. |
| CertRenewal.CertsChange | nport-server/src/cert/store.rs:165-170 | Renewing changes the certificates only by storing what was issued to a call that asked, for the domain it asked for. |
| CertRenewal.FreshIff | nport-server/src/cert/store.rs:116-135 | Fresh is a readable certificate with at least 30 days left. |
| CertRenewal.RenewAlone | nport-server/src/cert/store.rs:172-184 | A call with nobody else around can go through: it asks for each stale certificate, the root first, until one is not issued, stores what was issued, succeeds if and only if all were, and gives the lock back. |
| CertStore.Store.ShouldRenewCert | nport-server/src/cert/store.rs:116-135 | True exactly if there is no certificate, none that can be read, or one that expires within 30 days. |
| CertStore.Store.Renew | nport-server/src/cert/store.rs:172-184 | A renewal by itself requests the stale certificates, the root first, until one is not issued, stores those issued and changes nothing else. |
| CertStore.Store.RenewDomain | nport-server/src/cert/store.rs:176-180 | One turn of the loop: a fresh certificate is left alone. |

## Left out

- Liveness of the tunnel: it does not hold. A receive loop keeps its writer table locked while it waits for room, and an ending task needs that table; `serve_socket` keeps its client alive while it waits for a reply. The model has both and proves safety only.
- That every ended session is deregistered: a failed welcome message makes the session loop return without it (nport-server/src/server/handlers/websockets.rs:58-61). A client may stay in the registry's list forever in `RegistryOps`, where nothing forces a Deregister.
- Messages of HTTP tunnels and of TCP tunnels share the websocket; `Session` and `HttpTunnels` each have their own.
- RegistryTheorems.NeverStuck: the lock of a client's own hostname set has no queue of its own, nor in `RegistryFair`; it is held for a single set operation, without awaiting anything, so an access to it is part of a step.
- RegistryFair.EveryOperationFinishes: fairness of the scheduler (who can go on for ever does so at last) is assumed, and lookups are not cancelled.
- HttpTunnels.RequestFindsItsNames: says nothing about the name a handler is at work on; a request for it may meet the older table.
- HttpTunnels.TableFollows: one client; that its names are disjoint from those of others is proved in `RegistryTheorems`.
- NpClient.Client.Message: takes the outcome of connecting and of sending as arguments, and does not cover HTTP messages and Print.
- ServerClient.Client.Message: takes the outcome of binding as an argument; binding itself, gauges and the HTTP messages are not part of it.
- `rx.await` failing in `serve_socket` needs the pending map to go while its client is held; it is not modelled.
- Cancelled lookups: a scan that is dropped half-way only gives its lock back.
- Operations on one client that overlap each other; its requests are handled one at a time.
- CertRenewal.OkMeansSettled: the certificates in memory; files, and what `load` finds in them, are any cached certificate at any time.
- CertStore.Store.Renew: time stands still during the call; in `CertRenewal` it passes at any step.
- `cert_filename`, `resolve`, storing certificates in files: simple members.
- `split_origin`: depends on a URL library. Only the key itself and its injectivity are modelled.
- Ports above 65535 on the wire: `from_address` truncates them and so does `FromAddress`; the session only carries what `to_address` makes.
- Generated names: the output of a library, not checked against the blocklist; the handler takes one as an argument.
- Reconnection, retries, and tables that survive a reconnect.
- Header handling of forwarded requests, Protobuf encoding, TLS, ACME, DNS, telemetry, templates, command line and settings.
