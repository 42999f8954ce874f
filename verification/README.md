# gortcd: verified model

gortcd is a STUN and TURN server. This project models the parts of it that hold state under
concurrency, and proves what they keep over whole runs:

- **The allocation table** (`internal/allocator`): a list of allocations, each with a list of
  permissions, each with a list of channel bindings. `Table.dfy` gives every lock hold as a
  function on lists, `Allocator.dfy` the mutable list with its loops and in-place compaction,
  proved equal to those functions. `TableMap.dfy` proves that the lists behave as nested maps;
  `TableLaws.dfy` the structural invariant and non-interference between clients;
  `TableExpiry.dfy` the laws of pruning and of channels; `TableGaps.dfy` where the table does
  less than it seems to, with exact conditions.
- **Relayed sockets**: `NetAllocator.dfy` is the list of open ports with its scratch buffer,
  `RelayRuns.dfy` runs of table and sockets together, with the freeing that follows each drop.
- **Nonces** (`Nonce.dfy`) and **filters** (`Filter.dfy`).
- **The worker pool** (`internal/server/worker_pool.go`): `WorkerPool.dfy` is the protocol, one
  action per lock hold, channel operation, clock read or pool access. `WorkerOwnership.dfy`,
  `WorkerDelivery.dfy`, `WorkerShutdown.dfy` and `WorkerCleaning.dfy` prove ownership of
  channels, exactly-once delivery, accounting, termination of Stop, and what the cleaner stops;
  `WorkerService.dfy` what callers get: whom Serve refuses and which worker serves.
- **The request path** (`internal/server`): `Requests.dfy` gives gate, handlers and response as
  functions, and `RequestLaws.dfy` says from outside what each kind of request does and is told.
  `Contexts.dfy` is the mutable, pooled context with the handlers that fill it, proved equal to
  those functions; `ServerRuns.dfy` and `ServerLimits.dfy` are runs in which requests of many
  workers interleave.

`Keyed.dfy` holds the shared theory of lists with distinct keys, `Turn.dfy` addresses and
5-tuples. `dafny verify dfyconfig.toml` checks the whole project.

## Reading the model

- An IP is in canonical form, so `net.IP.Equal` is equality. Time is an integer; the zero
  `time.Time` is 0. A nonce whose issue time plus duration is exactly 0 never expires, as in the
  code, and the theorems say so.
- Clock readings, random nonces, the port allocator's answers and decoded messages are inputs of
  the steps that use them. The authenticator is any function of the whole message, which carries
  its raw bytes, so that the verdict on a forged copy need not be that on the genuine message.
- `New` is two steps with anything in between. A commit step need not follow a reservation, so
  the theorems about runs cover more than the code can do.
- A job of the worker pool is one call of `Serve`. `Stop` holds the lock while it sends, one
  action per send, and other actions that need no lock come between.
- Channel numbers are unique per permission, not per allocation as section 11.2 of RFC 5766 asks;
  `TableGaps.StepShares` and `TableGaps.RunUnshared` say exactly when that is violated.
- The comment on `Remove` says that it de-allocates, but it frees the server's own address;
  the model follows the code, and `RelayRuns` says which sockets are closed and which leak.

## Model

| member | source | states |
|---|---|---|
| `Allocators.Allocator.Reserve` | internal/allocator/allocator.go:263-290 | the first lock hold of New: a UDP 5-tuple not in use is claimed without socket or permissions; one in use is a mismatch, another protocol is refused |
| `Allocators.Allocator.Commit` | internal/allocator/allocator.go:304-316 | the second lock hold of New: the entry of the 5-tuple, if it is still there, is replaced by the one built at reservation, with its socket |
| `Allocators.Allocator.Remove` | internal/allocator/allocator.go:181-206 | the in-place compaction is the order-preserving filter on the 5-tuple; mismatch exactly if nothing matched; returns what is to be freed |
| `Allocators.Allocator.KeepBindings` | internal/allocator/allocator.go:219-224 | the inner loop of Prune keeps, in order, exactly the bindings that outlive the time |
| `Allocators.Allocator.KeepPermissions` | internal/allocator/allocator.go:217-232 | the middle loop keeps, in order, the live permissions, each with only its live bindings |
| `Allocators.Allocator.Prune` | internal/allocator/allocator.go:209-249 | the three-level in-place compaction equals the nested filter "times out after t", and returns the dropped allocations |
| `Allocators.Allocator.CreatePermission` | internal/allocator/allocator.go:323-364 | sets the timeout of the peer IP's permission or appends one; mismatch exactly if there is no allocation |
| `Allocators.Allocator.Conflicting` | internal/allocator/allocation.go:50-63 | a conflict is a binding of the peer's own port to another channel, nothing else |
| `Allocators.Allocator.BindUnder` | internal/allocator/allocator.go:398-430 | refreshes the first binding of the channel whatever its port, or adds one; the permission's timeout only grows |
| `Allocators.Allocator.BindEntry` | internal/allocator/allocator.go:384-452 | under one allocation: bind under the permission of the peer's IP, or under a new one; a conflict changes nothing |
| `Allocators.Allocator.ChannelBind` | internal/allocator/allocator.go:370-460 | invalid channel, missing allocation, conflict, refresh, new binding and new permission, each with its whole new table |
| `Allocators.Allocator.Refresh` | internal/allocator/allocator.go:485-497 | sets the allocation's timeout; an unknown 5-tuple changes nothing and is no error |
| `Allocators.Allocator.Bound` | internal/allocator/allocator.go:463-482 | the first-match search by IP and port gives the channel, or mismatch |
| `Allocators.Allocator.Send` | internal/allocator/allocator.go:145-178 | writes from the client's socket to the peer exactly if there is a permission for its IP and the socket is committed |
| `Allocators.Allocator.SendBound` | internal/allocator/allocator.go:91-140 | the last-match loops choose the newest permission that binds the channel |
| `Allocators.Allocator.Stats` | internal/allocator/allocator.go:510-523 | the counting loops give the three totals of the table |
| `TableLaws.StepEntries` | internal/allocator/allocator.go:181-497 | every operation on the table acts on each client's entry by itself, and keeps 5-tuples distinct |
| `TableLaws.StepResult` | internal/allocator/allocator.go:91-497 | every answer is a function of the asking client's entry alone |
| `TableLaws.StepWellFormed` | internal/allocator/allocator.go:181-497 | every step keeps 5-tuples, permission IPs, and per permission ports and channels distinct, and channels valid |
| `TableLaws.RunWellFormed` | internal/allocator/allocator.go:263-460 | that invariant holds after every interleaving, with both halves of New as separate steps |
| `TableLaws.BindingsBounded` | internal/allocator/allocation.go:50-63 | hence at most 16384 bindings under any permission of any reachable table |
| `TableGaps.FullPermission` | internal/allocator/allocator.go:370-452 | and a run from the empty table reaches that bound |
| `TableLaws.NonInterference` | internal/allocator/allocator.go:181-497 | in any interleaved run a client's entry and all its answers equal those of the run that keeps only its own steps and the prunes |
| `TableMap.StatsCounted` | internal/allocator/allocator.go:510-523 | Stats counts the keys of the three levels of maps |
| `TableMap.StepRefines` | internal/allocator/allocator.go:91-523 | one step on the lists is the same step on nested maps, with the same answer |
| `TableMap.RunRefines` | internal/allocator/allocator.go:91-523 | in every run the list table and the nested maps stay equal, and every answer is the one read off the maps |
| `TableExpiry.PruneTwice` | internal/allocator/allocator.go:209-249 | Prune(t1) then Prune(t2) is Prune(max(t1, t2)), for all tables and times |
| `TableExpiry.PrunePresent` | internal/allocator/allocator.go:215-241 | a binding survives a prune exactly if it, its permission and its allocation all outlive the time |
| `TableExpiry.NothingLiveLost` | internal/allocator/allocator.go:209-249 | no prune drops a live binding of a live allocation, exactly if every permission outlives the earlier of its allocation and each binding |
| `TableExpiry.StepWithin` | internal/allocator/allocator.go:323-460 | a step keeps every binding within its permission's timeout, exactly if it is not a CreatePermission that cuts one short |
| `TableExpiry.CarefulRunLosesNothing` | internal/allocator/allocator.go:209-460 | in any run without such a CreatePermission, Prune drops a binding of a surviving allocation only if that binding expired |
| `TableExpiry.Echo` | internal/allocator/allocator.go:91-140 | in every reachable table, if SendBound on a channel sends to an address, Bound of that address is that channel |
| `TableExpiry.EchoBack` | internal/allocator/allocator.go:463-482 | conversely, where Bound gives the channel, SendBound sends there exactly if the socket is committed and no newer permission binds the channel |
| `TableGaps.SuccessBinds` | internal/allocator/allocator.go:398-430 | a successful ChannelBind binds the peer to the channel, exactly if the channel did not belong to another port of the same IP |
| `TableGaps.RefreshOnlyRun` | internal/allocator/allocator.go:398-413 | a run from the empty table where every step succeeds, yet the last ChannelBind binds nothing and only refreshes the old port |
| `TableGaps.SharedChannelIps` | internal/allocator/allocation.go:50-63 | peers of one client that share a channel always differ in IP |
| `TableGaps.NewlyBound` | internal/allocator/allocator.go:181-497 | no step binds a peer to a channel but a successful ChannelBind of that very peer and channel |
| `TableGaps.StepShares` | internal/allocator/allocation.go:50-63 | a step makes two peers of a client share a channel exactly if it is a successful ChannelBind of that channel while the channel belongs to a peer at another IP |
| `TableGaps.RunUnshared` | internal/allocator/allocator.go:370-460 | in any run no channel is ever shared, as section 11.2 of RFC 5766 asks, exactly if no successful ChannelBind named a channel of a peer at another IP |
| `TableGaps.SharedChannelRun` | internal/allocator/allocator.go:383-452 | a run from the empty table in which one client's channel is bound to two peers, every step succeeds, and data goes to the second |
| `TableGaps.ShortenedPermissionLoses` | internal/allocator/allocator.go:343-343 | a run from the empty table in which a CreatePermission shortens a permission and a prune then drops a live binding |
| `TableGaps.CommitForgets` | internal/allocator/allocator.go:304-316 | whatever steps came since the reservation, a commit that still finds the entry leaves it as if none had: permissions granted and refreshes made in between are gone |
| `TableGaps.ReservedCannotSend` | internal/allocator/allocator.go:293-299 | in any run without a commit of its own a client sends nothing, whatever permissions it gets; so for good after a failed port allocation |
| `NetAllocators.NetAllocator.New` | internal/allocator/port.go:46-55 | a port that could be opened is appended to the list; the scratch buffer stays empty and unaliased |
| `NetAllocators.NetAllocator.Scan` | internal/allocator/port.go:63-74 | the scan splits the list into what stays, in the scratch buffer, and what goes |
| `NetAllocators.NetAllocator.Remove` | internal/allocator/port.go:58-91 | the list keeps exactly the sockets of other addresses or protocols, the rest are closed, and the scratch buffer is empty again |
| `NetAllocators.RunConserves` | internal/allocator/port.go:46-91 | over any run, sockets opened are sockets listed plus sockets closed, as multisets |
| `NetAllocators.ClosedOnce` | internal/allocator/port.go:46-91 | a socket opened once is closed at most once and never both listed and closed |
| `NetAllocators.LeavesOnlyWhenClosed` | internal/allocator/port.go:63-89 | a socket leaves the list exactly on a Remove with its own address and protocol, which closes it |
| `NetAllocators.DropClosesRelayed` | internal/allocator/allocator.go:197-204 | dropping an allocation closes its relayed socket exactly if the relayed address is the server's own |
| `RelayRuns.TableRuns` | internal/allocator/allocator.go:181-316 | seen from the table, a run of table and sockets together is one of the table's own runs |
| `RelayRuns.NewGetsSocket` | internal/allocator/allocator.go:263-320 | a New that nothing disturbs leaves its client with the opened socket, which is listed |
| `RelayRuns.LeavesAreDropped` | internal/allocator/allocator.go:181-249 | an event drops a client's allocation, and hands it on to be freed, exactly if its entry leaves the table |
| `RelayRuns.DroppedSocketFate` | internal/allocator/allocator.go:197-248 | with the one server address the server has, in any run of table and sockets together, once all freeing is done, the socket of an allocation that Remove or Prune dropped is closed exactly if its relayed address is the server's own; otherwise it stays listed |
| `RelayRuns.RelayedSocketsStayOpen` | internal/allocator/allocator.go:244-248 | while opened addresses differ from server addresses, no run closes any relayed socket, before or after its allocation is dropped |
| `Nonces.NonceAuth.Check` | internal/auth/nonce.go:59-91 | the scan, the rotation in place and the append, with the verdict of each branch |
| `Nonces.HistoryRecords` | internal/auth/nonce.go:59-91 | after any history there is one entry per 5-tuple, and it records the nonce last issued and its expiry |
| `Nonces.LastReturnedIsIssued` | internal/auth/nonce.go:59-91 | the value most recently returned to a client is the one last issued to it |
| `Nonces.AcceptsIff` | internal/auth/nonce.go:33-91 | a check accepts a value exactly if it is the one most recently returned to that 5-tuple and is unexpired; else it returns the live or a new nonce |
| `Nonces.IssuedAlone` | internal/auth/nonce.go:59-91 | checks of other clients change nothing |
| `Filtering.SubnetIsBlock` | internal/filter/filter.go:35-41 | a subnet rule applies to exactly the block of addresses of its prefix |
| `Filtering.SubnetRuleActs` | internal/filter/filter.go:35-65 | a subnet rule applies its action to exactly the addresses of its family in the block of 2^(32 - prefix), or 2^(128 - prefix), around its base and passes all others; AllowAll allows all |
| `Filtering.FirstDecides` | internal/filter/filter.go:85-94 | a list acts as its first rule that does not pass, or as its default |
| `Filtering.AllowedIff` | internal/filter/filter.go:81-94 | an address is allowed exactly if the first deciding rule allows it, or none decides and the default does |
| `WorkerOwnership.NextOwned` | internal/server/worker_pool.go:66-225 | every action moves at most one send token: each channel keeps exactly one holder |
| `WorkerOwnership.ReachableOwned` | internal/server/worker_pool.go:66-225 | in every interleaving each channel is held by exactly one of ready list, caller, cleaner, queued message, worker or pool |
| `WorkerOwnership.SendsNeverBlock` | internal/server/worker_pool.go:76-136 | every pending send of a caller, the cleaner or Stop finds the channel empty and its worker at the receive |
| `WorkerOwnership.OneMessage` | internal/server/worker_pool.go:138-150 | no channel ever carries two messages |
| `WorkerOwnership.ReadyOnce` | internal/server/worker_pool.go:152-200 | no channel is twice in the ready list, or there and anywhere else; while Stop drains, of the entries not yet nilled |
| `WorkerOwnership.RecycledIsClean` | internal/server/worker_pool.go:175-185 | a recycled channel is empty, has no worker, and nobody may send on it |
| `WorkerDelivery.NextTracked` | internal/server/worker_pool.go:129-225 | every action keeps every job in exactly one place |
| `WorkerDelivery.ExactlyOnce` | internal/server/worker_pool.go:129-136 | a context for which Serve returned true is processed once and given back once; any other neither |
| `WorkerDelivery.NothingAfterQuit` | internal/server/worker_pool.go:202-225 | a worker receives nothing after its stop message, and nothing is even queued for it |
| `WorkerShutdown.ReachableCounted` | internal/server/worker_pool.go:156-169 | workersCount equals live plus about-to-start workers and never exceeds its maximum |
| `WorkerShutdown.StaysDrained` | internal/server/worker_pool.go:76-84 | once mustStop is set the ready list is empty in every continuation |
| `WorkerShutdown.NextWinds` | internal/server/worker_pool.go:190-225 | after Stop every action but a new call or a tick lowers a measure |
| `WorkerShutdown.ShutdownFinite` | internal/server/worker_pool.go:66-85 | so in every run after Stop, with late Serve calls and passing time, the pool's own actions are bounded by that measure and 11 for each late call |
| `WorkerShutdown.ShutdownComplete` | internal/server/worker_pool.go:66-85 | and where it can go no further no worker is left and every accepted context was processed and given back |
| `WorkerShutdown.ShutdownTerminates` | internal/server/worker_pool.go:66-85 | from every stopped state a run of the pool's own actions reaches workersCount 0 |
| `WorkerCleaning.Pool.GetCh` | internal/server/worker_pool.go:156-169 | the most recently released worker is taken and its slot nilled, or a worker is counted if there is room |
| `WorkerCleaning.Pool.Release` | internal/server/worker_pool.go:192-199 | appends to the ready list unless stopping |
| `WorkerCleaning.Pool.Clean` | internal/server/worker_pool.go:101-116 | splits the list in place into the longest over-idle prefix and the intact rest, with no nil inside and nothing stale behind |
| `WorkerCleaning.Pool.Stop` | internal/server/worker_pool.go:76-84 | notifies every ready worker in order, empties the list, sets mustStop |
| `WorkerCleaning.SplitTakesAll` | internal/server/worker_pool.go:102-108 | the split takes every over-idle worker exactly if none stands behind a fresher one |
| `WorkerCleaning.CleanStopsExactlyIdle` | internal/server/worker_pool.go:94-127 | where release's clock read and append are one step, a clean stops exactly the over-idle workers |
| `WorkerCleaning.CleanCanMissIdle` | internal/server/worker_pool.go:190-200 | where they are two, a reachable state hides an over-idle worker from the cleaner |
| `WorkerService.RefusedIff` | internal/server/worker_pool.go:152-173 | Serve refuses a job exactly if its caller finds no ready worker and the maximum of workers reached |
| `WorkerService.RunRefusedIff` | internal/server/worker_pool.go:129-136 | over any run the refused jobs are exactly those |
| `WorkerService.RefusedWhenFull` | internal/server/worker_pool.go:156-173 | when a job is refused exactly the maximum of workers is live or about to start, and none is ready |
| `WorkerService.TakesNewest` | internal/server/worker_pool.go:156-167 | with workers ready, a caller gets the last of the list, which loses just that one; nobody is counted or refused |
| `WorkerService.IdleWorkerServes` | internal/server/worker_pool.go:129-220 | from any reachable state with a ready worker, a caller's job can go to the one released last, which processes it and gives the context back |
| `WorkerService.NewWorkerServes` | internal/server/worker_pool.go:159-186 | with none ready but room for more, a worker is counted and started, and does so |
| `WorkerService.ServedIsReadyAgain` | internal/server/worker_pool.go:190-200 | a worker that has served is last in the ready list, stamped with the time; after Stop it leaves instead |
| `WorkerService.LeaverIsRecycled` | internal/server/worker_pool.go:181-225 | a worker that leaves is uncounted and its channel goes back for reuse |
| `WorkerService.StopGetsThrough` | internal/server/worker_pool.go:66-85 | from every reachable state Stop gets through alone: every ready worker is sent its stop message and mustStop is set |
| `WorkerService.CleanRound` | internal/server/worker_pool.go:94-127 | where release is one step, a clean takes out exactly the ready workers whose last use is longer ago than the limit, by the clock it reads, and leaves the rest |
| `WorkerService.CleanerGetsThrough` | internal/server/worker_pool.go:54-127 | from every reachable state the cleaner gets through its round alone: every worker it took out is sent its stop message, and it starts again, or ends if the pool is being stopped |
| `RequestLaws.GateDecides` | internal/server/server_handlers.go:247-286 | after any history of nonce checks: a request is let in, with which key, exactly if it needs no authentication or has integrity, the live nonce last issued to its 5-tuple and accepted credentials; 400, 401 and 438 each exactly when; and the nonce handed out |
| `RequestLaws.ResponseCarries` | internal/server/context.go:104-133 | every response has one NONCE, the value the check returned, the realm, SOFTWARE exactly if set, the handler's attributes, MESSAGE-INTEGRITY exactly with the granted key, and FINGERPRINT, in this order; a refusal has its code and changes no table |
| `RequestLaws.ChallengeAnswered` | internal/server/server_handlers.go:249-286 | a client that copies the nonce of the response to its last checked request, while it is live, and has accepted credentials is let in |
| `RequestLaws.AllocateServed` | internal/server/server_handlers.go:80-100 | an admitted Allocate of a free UDP 5-tuple leaves an entry with the opened socket for the default lifetime and all others alone, and is told client and relayed address; 400, 437 and 500 exactly when; without a port the entry stays reserved |
| `RequestLaws.RefreshServed` | internal/server/server_handlers.go:102-126 | an admitted Refresh with lifetime L > 0 sets the entry's timeout to now + L, is told L and changes nothing else; zero or no lifetime removes the entry, with success exactly if there was one, else 437 |
| `RequestLaws.CreatePermissionServed` | internal/server/server_handlers.go:128-164 | an admitted CreatePermission permits the IP for the lifetime asked for, at most the maximum, or the default, and is told it; 403 and 437 exactly when; other permissions and all bindings stay |
| `RequestLaws.SendServed` | internal/server/server_handlers.go:166-180 | an admitted Send indication sends its data to its peer from the client's socket exactly if the peer's IP is permitted, and is never answered |
| `RequestLaws.ChannelBindServed` | internal/server/server_handlers.go:182-208 | an admitted ChannelBind binds for the default lifetime and is told channel and lifetime; 400, 403, 437 and silence exactly when |
| `RequestLaws.OthersServed` | internal/server/server_handlers.go:288-293 | an admitted Binding request is told its own address; other kinds of request get 400, other indications nothing |
| `ServerRuns.UndisturbedIsProcess` | internal/server/server_handlers.go:236-294 | the interleaved steps of one request, when nothing comes between them, have the state, response and relayed datagram of the whole request function |
| `ServerRuns.RunAnswers` | internal/server/server.go:233-271 | however requests interleave, each is finished at most once, with at most one response, to its own transaction and method; indications get none |
| `ServerRuns.AuthenticatedChanges` | internal/server/server_handlers.go:223-294 | with an authenticator, every change to the table in any run is a prune or comes from a request whose own nonce check found it had the live nonce last issued to its 5-tuple, and whose integrity was accepted |
| `ServerRuns.GatekeepDecides` | internal/server/server_handlers.go:236-286 | in every run the gate admits a request exactly so, by the checks before its own, refuses it with exactly that code, and hands out the nonce due |
| `ServerRuns.AuthorizedCarriesNonce` | internal/auth/nonce.go:49-56 | and such a request did carry a NONCE attribute, since drawn nonces are never empty |
| `ServerLimits.FilterNeverBypassed` | internal/server/server_handlers.go:152-200 | while the peer rule is not reloaded, every permitted IP, every address data was ever sent to and every address that can be sent to is one the rule allows |
| `ServerLimits.PeersWereAskedFor` | internal/server/server_handlers.go:128-208 | with any reloads, every permission and every datagram sent to a peer goes back to a request of the same 5-tuple for that IP, which the rule then in force allowed |
| `ServerLimits.LifetimesBounded` | internal/server/server_handlers.go:128-208 | whatever is reloaded, no permission outlives the latest request by more than an hour, no binding by more than a minute |
| `ServerLimits.QuietHourSilences` | internal/server/server.go:194-194 | whatever is reloaded, a collection an hour after the last request leaves every Send and SendBound without permission |
| `Contexts.DatagramAnswered` | internal/server/server.go:233-271 | a datagram gets at most one response, and only from an allowed client, with its own transaction ID and method; indications, undecodable input and ChannelData get none |
| `Contexts.DatagramServed` | internal/server/server.go:216-271 | STUN of an allowed UDP client is processed for its 5-tuple, other ChannelData is relayed as the table binds its channel, and everything else does nothing |
| `Contexts.ServedInOrder` | internal/server/server.go:276-318 | in a sequence each datagram is served once, in the state its predecessors left |
| `Contexts.Context.Reset` | internal/server/context.go:66-85 | whatever the context held, address, configuration, time, tuple, raw messages, response, nonce, realm and integrity are as in a new one and the buffer is zero |
| `Contexts.Context.Prepare` | internal/server/server.go:297-305 | the context holds exactly the bytes of this datagram, whatever its buffer held |
| `Contexts.Context.Build` | internal/server/context.go:104-133 | over whatever was there, the response carries the request's method and transaction ID, nonce, realm, software, content, integrity and fingerprint in this order; for an indication it is left alone |
| `Contexts.TurnServer.ProcessAllocateRequest` | internal/server/server_handlers.go:80-100 | reserve, open a port, commit; with the reply of each failure |
| `Contexts.TurnServer.ProcessRefreshRequest` | internal/server/server_handlers.go:102-126 | lifetime zero or absent removes, any other refreshes uncapped |
| `Contexts.TurnServer.ProcessCreatePermissionRequest` | internal/server/server_handlers.go:128-164 | the lifetime is capped or defaulted, the peer filtered, then the permission created |
| `Contexts.TurnServer.ProcessSendIndication` | internal/server/server_handlers.go:166-180 | relays the data to the peer if there is a permission, and never replies |
| `Contexts.TurnServer.ProcessChannelBinding` | internal/server/server_handlers.go:182-208 | the peer is filtered, the channel bound for the default lifetime, with the reply of each failure |
| `Contexts.TurnServer.Authenticate` | internal/server/server_handlers.go:247-286 | fingerprint, need for authentication, nonce, integrity attribute, staleness and credentials, in this order, each with its error |
| `Contexts.TurnServer.ProcessMessage` | internal/server/server_handlers.go:236-294 | gate, then handler, equal to the function of the message and the server's state |
| `Contexts.TurnServer.Demultiplex` | internal/server/server.go:216-231 | STUN is processed, ChannelData relayed without a response, anything else ignored |
| `Contexts.TurnServer.ServeConn` | internal/server/server.go:233-271 | the outcome depends on the datagram, configuration and server state, and on nothing else the context holds |
| `Contexts.TurnServer.ServePooled` | internal/server/context.go:29-32 | over any sequence of datagrams one context, reset in between, gives every response and relayed datagram a fresh one would |

## Left out

- Decoding and encoding of STUN, TURN and ChannelData, HMAC and fingerprints: they are in libraries outside the repository; the model takes their results as inputs. Attribute setters are taken never to fail.
- The static credential store (`internal/auth/auth.go`): any function from messages, raw bytes included, to an optional key stands for it.
- Socket reads and writes, deadlines, port reuse, `ReadUntilClosed`: operating-system I/O.
- HandlePeerData: only the search for the bound channel is modelled (Bound); it sends peer data on whether or not a permission exists, and its framing is encoding.
- Storage sharing of IP and nonce byte slices: they are values here.
- Unbuffered worker channels, used with one processor: a rendezvous is a send and a receive at once, both of which the model has; that every send finds its worker at the receive is proved.
- The retries of the reader when no worker is free, and the context it then drops; a second Start or Stop of the pool, which panics or starts a second cleaner.
- Overflow of times and counters.
- `internal/allocator/port_sys_pool.go`: not wired into the server.
- Configuration, command line, HTTP management, reload signals, metrics and logging: no state the properties depend on; the configuration of a request is the one it was received with.

