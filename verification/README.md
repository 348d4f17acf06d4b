# Verification of the console's protocols

This project models the protocols between the server (Rust) and the browser (TypeScript) of the web console for
KubeVirt, and proves what they keep over whole runs. Each model takes the form its source has: objects whose methods
change their fields are classes, loops are loops, and protocols are state machines over their steps. Where a class
and a step function stand side by side, each method of the class is proved to be the step of the same name, and
the invariants and run theorems are proved about the steps.

| files | what they model |
|---|---|
| `NetagentPlan`, `NetagentPod`, `NetagentConverge`, `Reconcile`, `NetagentAgent` | the plan that brings a pod's SNAT rules, routes and neighbours to what is wanted; what each command does; convergence, resuming, repeated passes |
| `NetagentTraffic` | what the rules, routes and neighbours do to a packet, read off the pod |
| `NetagentRules`, `NetagentStatus` | reading the agent's rules back from iptables; the rows and counters it reports |
| `Ipv4` | canonical CIDRs and the allow list's prefix test |
| `Framer` | cutting a byte stream into lines, and stderr into status lines |
| `WatchReplica`, `WatchLoop` | list-then-watch: the server's loop against an append-only log, and the browser's map |
| `WatchCache` | the reference-counted cache of subscriptions above it |
| `Upload` | the stop-and-wait upload: chunk loop, upload proxy and the channels between them |
| `GatewaySession` | the session over the one WebSocket: calls, subscriptions, reconnecting |
| `Tasks` | the task manager, its lossy broadcast and the browser's replica |
| `JsonPatch`, `VmUpdate` | merge patches (section 2 of RFC 7396) and optimistic edits of one VM by many callers |
| `ShellQuote` | quoting for a POSIX shell (section 2.2 of POSIX.1-2017 XCU), nested three deep |
| `Import`, `Mapping` | importing a VM from Proxmox: the copies, the guard that removes a half-imported VM, and the VM that is built |
| `PluginRegistry` | plugins following what the cluster serves |
| `Migration` | figures of a live migration, read from metrics |
| `Text`, `Orders` | the string and ordering operations of the standard libraries that these lean on |

Verify with `dafny verify dfyconfig.toml`.

## What is taken as given

- Concurrency is interleaving of the steps named in each state machine. Channels are FIFO; timers, user actions,
  failures and the other side's answers are steps that may happen whenever they are enabled.
- Watching: the server's log is append-only and its versions number its prefixes; every page of a list is of one
  version; a stream reports each change after the version asked for, once and in order, until it breaks or reports an
  error; a bookmark passes over nothing of the collection. An object's uid stays with its name and is never shared.
- Uploading: CDI's proxy answers 2xx only to a body of the declared length.
- The session: the socket does not close while `onOpen` is pending, nobody signs in or out during a run, and aborting
  a handler takes effect at once.
- Tasks: an operation of a task's handle (change and broadcast) is one step, and so is taking a snapshot of a task; the
  calls of a lost connection are lost with it; an answer to `tasks.detail` that comes after the call has timed out, which
  the browser drops, counts as never sent; the browser's store is not stopped.
- Editing: what a screen shows is a version of the VM the server has had, with its own resource version.
  A failure with a status from 1 to 499 is somebody's word that nothing was stored. A caller that gave
  up counts as told when its patch is handled or refused, which may be later.
- Reading back a canonical CIDR from iptables or ip gives the same text, as `src/netagent/plan.rs` lines 75 to 76 say.

## Where the code does less than its text promises

- `trim_end_matches("List")` in `src/cluster/watch.rs` line 103 strips the suffix as often as it is there, so listed
  objects of a kind that ends in "List" get another kind than watched ones. `WatchLoop.KindPutBack` says exactly when,
  and `WatchLoop.ListKindIsLost` shows one. For such kinds the replication theorems hold up to the kind of what was
  listed, for all others exactly.
- Two entries of one annotation that claim the same client range for different gateways (or different MACs for one
  gateway on one bridge) never converge. `NetagentAgent.Converges` says exactly when the plan does, and
  `NetagentAgent.SharedRangeNeverConverges` shows such a pair.
- A boot order with a repeated key numbers it by its last place. `Mapping.LastPlaceDecides` says so for every list,
  `Mapping.BootOrderKept` exactly when Proxmox's order is kept all the same, and `Mapping.RepeatsReorder` shows a VM for
  which it is not.
- A call that is queued while the socket is down stays in the queue after its promise was rejected, and is sent on the
  next connection: `GatewaySession.RejectedYetSent` shows one, and `GatewaySession.SentAfter` and
  `GatewaySession.SentAfterAll` say exactly which calls are sent late.
- `loadLog` upserts the task that `tasks.detail` answers with. If the task finishes while it is answered, the answer can
  reach the browser after the news, which then has the task running until the next SYNC. `Tasks.DrainedAgrees` says
  exactly when the replica agrees, and `Tasks.LoadedTooLate` leads there from every run with a running task.
- An edit that failed may have been stored all the same: an answer of the API server that is lost on the way to the
  console comes back as status 502 (`src/cluster/mod.rs` lines 53 to 55, where line 36 promises 0 for a server that was
  never reached), one that is lost on the way to the browser as 0, and `updateVm` retries neither. `VmUpdate.OnceAndThrice`
  and `VmUpdate.FailedYetStored` say exactly which statuses leave it open, and `VmUpdate.BadGatewayYetStored` shows such
  a run.
- The guard of an import is made after the answer to the VM's creation. If the VM is created and the answer is lost, or
  the import is stopped before it comes, nobody deletes the VM. `Import.ImportVm` says that this is the one way, and
  `Import.ImportOrphaned` takes it.
- A plugin's contribution takes the place of another plugin's with the same id (and kind), which is not given back when
  the later one goes. `PluginRegistry.ActiveIsOffered` says that plugins with nothing in common always have all they
  contribute offered, and `PluginRegistry.ReplacedIsLost` that any two others do not.

## Model

| member | source | states |
|---|---|---|
| `NetagentPlan.Commands` | src/netagent/plan.rs:157-213 | The pushing loops build exactly the plan that is made of six sorted groups: surplus owned rules, stale routes, stray neighbours, then the neighbours, routes and rules that are missing. What comes of running it is in the rows below, what that does to a packet in those of `NetagentTraffic`. |
| `NetagentConverge.WantedRuleIsOwned` | src/netagent/plan.rs:119-132 | Every rule the agent makes is one it recognises as its own, and splits back into the words it was made of. |
| `NetagentConverge.StepGroups` | src/netagent/plan.rs:167-212 | Carrying out the first command of a plan leaves exactly the rest of its six groups to do, and changes nothing foreign. |
| `NetagentConverge.NoSurplus` | src/netagent/plan.rs:173-182 | No rule is surplus exactly if the owned rules are distinct and all wanted. |
| `NetagentAgent.PlanDrains` | src/netagent/plan.rs:157-213 | From every reachable pod, each command of the plan runs and the plan of what results is the plan without it. |
| `NetagentAgent.Resumable` | src/netagent/plan.rs:167-212 | A plan stopped after any k commands and made again is exactly its own tail, and until no stale rule is left none has been added. |
| `NetagentAgent.EmptyIffMatches` | src/netagent/plan.rs:157-213 | Nothing is planned if and only if rules (each once), routes and neighbours are already as wanted. |
| `NetagentAgent.Converges` | src/netagent/plan.rs:157-213 | For desired entries with clean names: the whole plan runs and leaves nothing to do, each wanted rule once and everything foreign as it was, if and only if no two entries want different gateways for one range or different MACs for one neighbour. |
| `NetagentAgent.SharedRangeNeverConverges` | src/netagent/plan.rs:162-166 | Two entries that share a client range with different gateways: no pod matches them, so there is always something left to do. |
| `NetagentAgent.Converge` | src/netagent/mod.rs:307-315 | Whatever is desired, a pass carries out a prefix of the plan, up to the first command that fails or goes unanswered, the latter perhaps included; if no two entries conflict, none fails of itself, the rest of the plan is left, and a pass to the end leaves the pod as desired. |
| `NetagentAgent.PassLeaves` | src/netagent/mod.rs:307-315 | A pass that got through k commands leaves exactly the rest of its plan. |
| `NetagentAgent.PassesTerminate` | src/netagent/mod.rs:307-315 | However far each pass reaches, once the commands applied add up to the length of the first plan the pod matches. |
| `NetagentTraffic.RuleRewrites` | src/netagent/plan.rs:119-124 | Read word by word, a rule of the agent gives the gateway as source to exactly the packets from its client range to its guest's address. |
| `NetagentTraffic.OneAddress` | src/netagent/plan.rs:121-122 | An address with "/32" after it is a range of that one address, and no range if it is none. |
| `NetagentTraffic.TrafficTranslated` | src/netagent/plan.rs:158-159 | On a pod that matches, for every source and destination: the first of the agent's lines that rewrites the packet makes it come from the gateway of an entry whose clients and guest it is between; if none does, no entry is about it. |
| `NetagentTraffic.TrafficRouted` | src/netagent/plan.rs:160-165 | And every client range is routed through its entry's gateway and bridge with protocol 252, with no other such route; and every gateway is on its bridge with the MAC asked for, with no other permanent neighbour there. |
| `NetagentTraffic.TrafficConverges` | src/netagent/plan.rs:157-213 | So it is on every pod once the passes over it have run as many commands as its first plan had, wherever it started and however they were cut short. |
| `Reconcile.Resume` | src/netagent/mod.rs:307-315 | For any planner whose plan loses its first command when that runs: after k commands the plan is its own tail. |
| `Reconcile.PassesDrain` | src/netagent/mod.rs:307-315 | For such a planner, repeated passes of any reach drain the plan. |
| `Reconcile.Machine.RunAll` | src/netagent/mod.rs:310-314 | Commands run one by one up to the first that fails or goes unanswered, which may have been carried out all the same; what was done is what running that prefix does. |
| `NetagentRules.RulesReadBack` | src/netagent/plan.rs:130-146 | From a listing of agent rules, comments quoted or not, among foreign lines, exactly the rules the agent wrote are read back, in order and with duplicates. |
| `NetagentRules.ReadIsObserved` | src/netagent/plan.rs:126-146 | What is read from a listing is what the planner takes the pod to hold. |
| `NetagentStatus.MergeRows` | src/netagent/mod.rs:199-223 | One row per interface, in the order they came up, each the first of the interface's worst outcomes over all pods. |
| `NetagentStatus.WorstIs` | src/netagent/mod.rs:199-223 | That row is an outcome of the interface which none is worse than, and none before it as bad. |
| `NetagentStatus.FirstSeenOrder` | src/netagent/mod.rs:215-223 | Of two rows, the interface of the first came up before that of the second did. |
| `NetagentStatus.Summary` | src/netagent/mod.rs:224-225 | The state of the whole is a row's, and no row's is worse. |
| `NetagentStatus.PacketCounts` | src/netagent/plan.rs:224-238 | Of a listing, each interface is tallied once, in the order they come up, with the packets of all lines that carry its mark. |
| `NetagentStatus.CountReadsBack` | src/netagent/plan.rs:227-230 | A printed counter line is read back as its interface and packets, and a line without the mark as nothing. |
| `NetagentStatus.ListingReadsBack` | src/netagent/plan.rs:224-238 | What is counted of a printed listing, foreign lines among it, is what its counters say. |
| `Ipv4.AddressRoundTrip` | src/netagent/plan.rs:77-88 | A printed IPv4 address parses to itself. |
| `Ipv4.AddressIsShown` | src/netagent/plan.rs:77-82 | A text is read as an address if and only if it is what that address is printed as. |
| `Ipv4.LengthCounts` | src/netagent/plan.rs:77-87 | A prefix length is accepted up to 32, and an address is in the range exactly if it has that many first bits in common. |
| `Ipv4.BareIsOne` | src/netagent/plan.rs:75-80 | An address without a length is the range of itself alone. |
| `Ipv4.CidrIdempotent` | src/netagent/plan.rs:75-88 | The canonical form of a canonical form is itself. |
| `Ipv4.CidrCanonical` | src/netagent/plan.rs:75-88 | Two accepted texts have the same canonical form exactly if they denote the same addresses. |
| `Ipv4.MaskComparesPrefix` | src/proxmox/mod.rs:33-37 | Two words agree under a prefix mask exactly if they agree in every bit of the prefix. |
| `Ipv4.InNetworkIsCidr` | src/proxmox/mod.rs:31-37 | For IPv4, the test holds exactly if address and network, written with that prefix length, have the same canonical form. |
| `Ipv4.InNetworkIsPrefix` | src/proxmox/mod.rs:31-48 | For every pair of addresses, IPv4-mapped ones included: the test holds exactly if the two agree in the prefix's bits. |
| `Framer.SplitIsUnique` | src/cluster/mod.rs:319-321 | Splitting at separators is the one way to cut a text into pieces without them. |
| `Framer.MoreArrives` | src/cluster/mod.rs:317-346 | What was left over and what arrives next, split together, complete the pieces of the whole. |
| `Framer.TrimAsciiIs` | src/cluster/mod.rs:322-324 | Trimming takes away white space at both ends and nothing else. |
| `Framer.VisibleAre` | src/cluster/mod.rs:322-328 | Each line with something to see in it is one item, in order; a blank line is none. |
| `Framer.Next` | src/cluster/mod.rs:314-351 | One step yields the first thing the stream still has to yield, and leaves the rest; it ends exactly when nothing is left. |
| `Framer.ReadAll` | src/cluster/mod.rs:314-351 | However a response is cut into chunks, its items are the trimmed, non-empty lines of the whole, the unterminated last one included; if it breaks, the complete lines and the error. |
| `Framer.StatusLines.Feed` | src/extensions/proxmox.rs:814-817 | A piece of stderr completes exactly the lines it completes in the whole text. |
| `Framer.FeedAll` | src/extensions/proxmox.rs:814-817 | However stderr is cut up, its status lines are those of the whole text, at carriage returns and newlines. |
| `WatchReplica.WatchEntry.OnEvent` | web/src/stores/watch.ts:38-59 | A frame changes the map as it should: a SYNC replaces it, and an error leaves it. |
| `WatchReplica.AfterStanding` | web/src/stores/watch.ts:38-59 | The map is the last list with the deltas since applied to it; nothing before it leaves a trace. |
| `WatchLoop.KindPutBack` | src/cluster/watch.rs:103 | The kind put back into a listed object is the collection's, if and only if that kind does not itself end in "List". |
| `WatchLoop.ListKindIsLost` | src/cluster/watch.rs:103 | A kind for which it is not: AllowList comes back as Allow. |
| `WatchLoop.List` | src/cluster/watch.rs:80-119 | Through any paging: what is returned is the whole of one listing at one version, slimmed, with the API version and the trimmed kind put back; or the status with which a page was refused; and nothing only once there is no time left. |
| `WatchLoop.Follow` | src/cluster/watch.rs:156-190 | Of one stream, every change before its first break or error is emitted, in order, cut only by what the subscriber takes; it ends with the subscriber gone exactly if that was less, and with an error exactly if the stream reports one. |
| `WatchLoop.Watch` | src/cluster/watch.rs:123-192 | Through any breaks, bookmarks and errors: what is emitted is everything the streams had to say, in order, cut only by what the subscriber takes; each stream is asked for from the version where the last one got to; it leads to a new list only by an error or a refusal, and gives up exactly on 403 and 404. |
| `WatchLoop.Run` | src/cluster/watch.rs:35-74 | Over a whole run, for collections of any kind: what is sent is one SYNC for each completed listing, one error for each refusal that is retried and the changes of each stream, in the order of the answers, cut only where the subscriber went away; after every frame, nothing came before the first list, and since the last one every change was reported once and in order; it gives up exactly on 400, 403 and 404 of a list and 403 and 404 of a watch. |
| `WatchLoop.ReplicaMirrors` | src/cluster/watch.rs:123-192 | Frames like that bring the browser's map to the collection as of the version reached, bookmarks included: up to the kind of what was listed, and exactly if the collection's kind does not end in "List". |
| `WatchLoop.InStepThroughout` | src/cluster/watch.rs:49-73 | After every frame of a run: only errors so far, or a map that is the collection, slimmed, at the version last reported; exactly so unless the kind ends in "List". |
| `WatchCache.Watches.Acquire` | web/src/stores/watch.ts:71-94 | Acquiring is the acquiring step. |
| `WatchCache.Watches.Release` | web/src/stores/watch.ts:96-105 | Releasing is the releasing step: the last holder sets the timer. |
| `WatchCache.Watches.OnTimer` | web/src/stores/watch.ts:99-104 | A timer's firing is the collecting step. |
| `WatchCache.Watches.OnEvent` | web/src/stores/watch.ts:41-58 | A frame is the hearing step: a SYNC syncs the entry and clears its error, an ERROR is noted. |
| `WatchCache.Watches.OnEnd` | web/src/stores/watch.ts:61-67 | The server's ending a subscription is the ending step. |
| `WatchCache.Watches.Retry` | web/src/stores/watch.ts:157-164 | Retrying closes what is open and opens anew. |
| `WatchCache.Watches.Follow` | web/src/stores/watch.ts:128-145 | Changing parameters takes the new watch before it lets the old one go. |
| `WatchCache.FollowOk` | web/src/stores/watch.ts:128-140 | Following another watch, or none, keeps the invariant. |
| `WatchCache.FollowHolds` | web/src/stores/watch.ts:128-140 | What is held afterwards is what was held, with the new entry and without the old one. |
| `WatchCache.StepOk` | web/src/stores/watch.ts:71-105 | Every step keeps the invariant that ties entries, holders, subscriptions and timers. |
| `WatchCache.ReleaseOk` | web/src/stores/watch.ts:96-105 | Letting go takes one reference away, closes nothing, and sets a timer if it was the last. |
| `WatchCache.RetryOk` | web/src/stores/watch.ts:157-164 | A retry leaves the entry with a new subscription, not the old one, and neither in error nor synced. |
| `WatchCache.EndOk` | web/src/stores/watch.ts:61-67 | A subscription that ends is gone, alone; with an error, its entry is in error and synced. |
| `WatchCache.HearOk` | web/src/stores/watch.ts:41-58 | Only a list syncs an entry and clears its error, only an error frame sets it. |
| `WatchCache.EveryRun` | web/src/stores/watch.ts:71-105 | Over all runs: at most one open subscription per key, and a held entry is the cached one and counts exactly its holders. |
| `WatchCache.ClosedOnlyUnheld` | web/src/stores/watch.ts:96-105 | A subscription goes away only by the server, by a retry of a holder that opens another, or when nobody holds its entry. |
| `WatchCache.AcquireShares` | web/src/stores/watch.ts:71-94 | Whoever acquires has an open watch or a failed one; an open one is shared, not opened again; one reference more is held, and no timer is set for it. |
| `WatchCache.FireOk` | web/src/stores/watch.ts:99-104 | A timer that fires finds its entry cached and not held, takes it out, and closes its subscription and no other. |
| `WatchCache.SameWatchStaysOpen` | web/src/stores/watch.ts:128-140 | Following the same watch again neither opens nor closes anything. |
| `Upload.ProxyConnection.Handle` | src/gateway/upload.rs:517-569 | The handler is the server's step, branch by branch: a chunk is forwarded and acknowledged exactly if the body is open and taken and it fits, and after an error the session has ended. |
| `Upload.ProxyConnection.OnPrepared` | src/gateway/upload.rs:486-512 | The preparing step: ready once the upload request is open, or a failure. |
| `Upload.ProxyConnection.OnClose` | src/gateway/upload.rs:571-585 | The closing step: an unfinished upload fails, and whatever happened before, the session has ended. |
| `Upload.ProxyConnection.End` | src/gateway/upload.rs:447-458 | The finishing step: the body ends, and the proxy's answer decides. |
| `Upload.ServerSafe` | src/gateway/upload.rs:486-585 | In every run of the server with any client, preparing, closing and failing included: no more than was declared is forwarded, acks count what was and only grow, Done comes once, last, exactly if the session is finished, and only with all of it forwarded; and once the upload is over or the socket closed, the session has ended. |
| `Upload.Job.Receive` | web/src/plugins/core/create/uploads.ts:113-161 | The browser's handler is the client's step: an ack lets the loop go on, an error ends the wait and the job, and Done ends it well exactly if the processing does. |
| `Upload.StepGood` | web/src/plugins/core/create/uploads.ts:143-155 | Every step of the two ends and their channels keeps the invariant. |
| `Upload.EveryRun` | web/src/plugins/core/create/uploads.ts:138-158 | In every run: a prefix of the file was forwarded, at most one chunk is unacknowledged, no oversize, early or short data is reported, to the session or to the browser, and nobody calls it finished before the whole file was forwarded. |
| `Upload.EachAckAdvances` | src/gateway/upload.rs:540-543 | Each ack is of everything received, and leaves less to send. |
| `Upload.Transfer` | web/src/plugins/core/create/uploads.ts:143-155 | Undisturbed, the loop delivers the whole file, unless the proxy stops taking it, and both ends agree how it ended. |
| `GatewaySession.Gateway.CallMethod` | web/src/api/gateway.ts:226-242 | A call is the calling step of the system, whatever the rest of it is. |
| `GatewaySession.Gateway.SubscribeTo` | web/src/api/gateway.ts:249-254 | A subscription is the subscribing step. |
| `GatewaySession.Gateway.CloseSubscription` | web/src/api/gateway.ts:255-263 | Closing is the closing step; afterwards the subscription is not among the open ones. |
| `GatewaySession.Gateway.OnResponse` | web/src/api/gateway.ts:135-205 | Each frame received is the receiving step: `OnlyUnansweredPend`, `AnswerSettles` and `EveryEventHeard` say what comes of it. |
| `GatewaySession.Gateway.OnReady` | web/src/api/gateway.ts:157-160 | After `onOpen`, the queue is flushed and every open subscription made again, once. |
| `GatewaySession.Gateway.OnSocketClose` | web/src/api/gateway.ts:104-116 | A closed socket rejects every pending call, once. |
| `GatewaySession.Gateway.OnTimeout` | web/src/api/gateway.ts:229-232 | A call that times out is settled and forgotten. |
| `GatewaySession.Handler.Receive` | src/gateway/mod.rs:106-188 | The server's handler is the server's step, with the race of a handler that ends before its handle is stored. |
| `GatewaySession.Handler.Return` | src/gateway/mod.rs:160-169 | A handler that returns is the ending step: its handle goes, and the browser is told. |
| `GatewaySession.Handler.Close` | src/gateway/mod.rs:190-194 | When a connection closes, none of its handlers is left running. |
| `GatewaySession.DoLinked` | src/gateway/mod.rs:154-182 | Every step keeps the invariant that ties the open subscriptions, the frames on their way and the running handlers. |
| `GatewaySession.SettledSession` | web/src/api/gateway.ts:144-190 | Open, ready and drained: the handlers running on the server are exactly the open subscriptions, one each, after any subscribing, closing, ending, disconnecting and reconnecting. |
| `GatewaySession.DoTold` | web/src/api/gateway.ts:164-199 | Every step keeps: nothing happens to a promise after it settled or to a subscription after it ended or was closed. |
| `GatewaySession.OnceOnly` | web/src/api/gateway.ts:164-199 | Over any run: of one id, nothing but events comes before anything else, so a promise settles at most once and no callback runs after an end or a close. |
| `GatewaySession.NothingIsLost` | web/src/api/gateway.ts:226-272 | Over any run: every id ever given out is pending, open, settled, ended or closed. |
| `GatewaySession.PlayCalls` | web/src/api/gateway.ts:226-242 | Over any run: a call is in one place at most, queued, sent, at work or answered, and in one while its promise is pending and the server has not closed. |
| `GatewaySession.OnlyUnansweredPend` | web/src/api/gateway.ts:164-175 | Open, ready and drained: every promise that is pending is one of a call the server still works on. |
| `GatewaySession.AnswerSettles` | web/src/api/gateway.ts:164-175 | Once the server has answered a call, its promise is not pending in any later state that is open, ready and drained. |
| `GatewaySession.EveryEventHeard` | web/src/api/gateway.ts:177-181 | Over any run: the callback of an open subscription has run once for each event its handlers emitted, but for those on their way and those that were on a connection when it was given up. |
| `GatewaySession.SentAtMostOnce` | web/src/api/gateway.ts:157-158 | Over any run, all connections taken together: the frame of a call is sent at most once, and waits in the queue if the call is pending and it was not. |
| `GatewaySession.SentAfter` | web/src/api/gateway.ts:220-234 | From any point of a run on, the frame of a call made before, settled or not, is sent if and only if it is still queued then and the session opens afterwards. |
| `GatewaySession.SentAfterAll` | web/src/api/gateway.ts:220-242 | The same seen from the call: if and only if the session was not open for it when it was made, did not open until that point, and opens after it. |
| `GatewaySession.RejectedYetSent` | web/src/api/gateway.ts:111-115 | A call that is rejected when the socket closes, and sent on the next connection. |
| `Tasks.TaskManager.SpawnTask` | src/tasks.rs:221-277 | Spawning is the spawning step: the oldest of 1000 is forgotten, and the new one broadcast. |
| `Tasks.TaskManager.FinishTask` | src/tasks.rs:196-208 | Finishing is the finishing step: only a running task finishes. |
| `Tasks.TaskManager.ReportProgress` | src/tasks.rs:164-181 | Progress is the reporting step: kept always, broadcast when due or complete. |
| `Tasks.TaskManager.ClearBar` | src/tasks.rs:185-194 | Clearing the bar is the clearing step, broadcast if there was one. |
| `Tasks.TaskManager.Detail` | src/tasks.rs:308-326 | A snapshot of a kept task of this user. |
| `Tasks.TaskManager.StopTask` | src/tasks.rs:329-338 | Stopping finds a kept task of this user, and leaves it finished, as stopped if it was running; otherwise nothing changes. |
| `Tasks.TaskManager.ListTasks` | src/tasks.rs:296-306 | Going back through the tasks and taking the user's gives, as they stand, the user's kept tasks, newest first: as many as there are up to the limit, and none left out that is newer than one that is not. |
| `Tasks.ListIs` | src/tasks.rs:296-306 | The list a SYNC is made of is that, and a task is in it exactly if it is a kept one of the user that fewer kept ones than the limit are newer than. |
| `Tasks.Topic.Turn` | src/extensions/core.rs:517-541 | One turn of the topic's loop: a due SYNC, the next event, or the news that events were overwritten. |
| `Tasks.TaskStore.OnFrame` | web/src/stores/tasks.ts:22-36 | A frame is upserted task by task. |
| `Tasks.TaskStore.WaitFor` | web/src/stores/tasks.ts:60-68 | Waiting for a finished task answers at once. |
| `Tasks.SpawnNewest` | src/tasks.rs:269-306 | A spawn, the forgetting of the oldest included, makes no task recent that was not, but the new one. |
| `Tasks.ResyncAgrees` | src/extensions/core.rs:533-538 | A SYNC lists every recent task, and what is on its way to the browser then ends, for each, with what the server holds. |
| `Tasks.DoGood` | src/extensions/core.rs:517-541 | Every step keeps: what is on its way leads to agreement on the newest 200, or to the overtaken answer that has the last word. |
| `Tasks.DrainedAgrees` | src/extensions/core.rs:517-541 | However many events were lost to lag, however often it reconnected and whatever logs were loaded: once drained, the browser has the server's status, message and end time for each kept task of the user that fewer than 200 are newer than if and only if the last thing it was sent about the task is not an answer to `tasks.detail` overtaken by its finishing; only for such a task may somebody wait that has finished. |
| `Tasks.NothingLoadedNothingLate` | web/src/stores/tasks.ts:51-57 | Without `loadLog`, no answer is ever overtaken. |
| `Tasks.LoadedTooLate` | web/src/stores/tasks.ts:51-57 | From every run with a running task: a way on, after which the stream is drained and the browser has the finished task running. |
| `Tasks.WaitersGetTheOutcome` | web/src/stores/tasks.ts:14-20 | Whoever waits is given the task finished, as it is on the server and will stay. |
| `Tasks.NobodyIsForgotten` | web/src/stores/tasks.ts:60-68 | Over any run: who has waited for a task still waits, or has been given one of that id. |
| `Tasks.WaitersAreAnswered` | web/src/stores/tasks.ts:60-68 | Drained, and without an overtaken answer: who waited for a recent task that has finished has been given its outcome. |
| `Tasks.FinishedStays` | src/tasks.rs:196-208 | However a run goes on, a finished task keeps status, message and end time. |
| `Tasks.FirstOutcomeShown` | src/tasks.rs:196-208 | The status, message and end time with which a running task first finishes are what its user's browser ends up with, whatever is tried afterwards. |
| `JsonPatch.SilentKeeps` | web/src/plugins/core/vm/spec.ts:6-8 | Where a merge patch says nothing, the target is as it was. |
| `JsonPatch.SaysIsSet` | web/src/plugins/core/vm/spec.ts:6-8 | Where it has a value other than an object or null, that is what results. |
| `JsonPatch.NullRemoves` | web/src/plugins/core/vm/spec.ts:6-8 | Where it has null, nothing is left. |
| `JsonPatch.ObjectStays` | web/src/plugins/core/vm/spec.ts:6-8 | Where it has an object, an object results. |
| `JsonPatch.MergeTwice` | web/src/plugins/core/vm/spec.ts:6-8 | Merging the same patch again changes nothing. |
| `JsonPatch.DevicesReplaced` | web/src/plugins/core/vm/spec.ts:57-70 | Each list given is replaced whole, each other one left alone, and so is everything not on the way to a given list. |
| `JsonPatch.TemplateOnly` | web/src/plugins/core/vm/spec.ts:32-35 | A template edit reaches nothing outside `spec.template.spec`. |
| `JsonPatch.TemplateSet` | web/src/plugins/core/vm/spec.ts:32-35 | And what it says, by a value other than an object or null, is what is there. |
| `JsonPatch.VersionAdded` | web/src/plugins/core/vm/spec.ts:23-30 | What is sent is the patch itself but for the version. |
| `JsonPatch.CarriesVersion` | web/src/plugins/core/vm/spec.ts:23-30 | Whatever the patch, the merged object has the version of the VM the patch was built from. |
| `VmUpdate.AcceptsOnlyCurrent` | web/src/plugins/core/vm/spec.ts:23-30 | The server accepts a patch exactly if it was built from the current version, and then it was built from the current VM. |
| `VmUpdate.BuiltFromCurrent` | web/src/plugins/core/vm/update.ts:18-32 | An accepted patch is stored as the edit of exactly the version it was built from; any other changes nothing. |
| `VmUpdate.DoGood` | web/src/plugins/core/vm/update.ts:18-32 | Every step of any callers and other writers, with answers heard, lost to the browser or lost to the console, and refusals, keeps the invariant. |
| `VmUpdate.FinalIsSequential` | web/src/plugins/core/vm/update.ts:18-32 | The VM is what the committed edits, and whatever else was written, make of it one after the other in commit order. |
| `VmUpdate.OnceAndThrice` | web/src/plugins/core/vm/update.ts:18-32 | Each caller commits at most once, exactly once if told so, sends at most three patches, and committed nothing if told of a failure with any status from 1 to 499, a conflict among them. |
| `VmUpdate.ConflictsAreRetried` | web/src/plugins/core/vm/update.ts:22-29 | Over any run: a caller throws a conflict only after three patches, or if a fetch met with one. |
| `VmUpdate.FailedYetStored` | web/src/plugins/core/vm/update.ts:22-29 | For each other status and any setup: a run in which a caller is told that its edit failed, and it is stored. |
| `VmUpdate.BadGatewayYetStored` | src/cluster/mod.rs:234-253 | One of them: status 502, the console having lost the answer of the API server. |
| `VmUpdate.ApiServer.Patch` | web/src/plugins/core/vm/spec.ts:23-30 | A patch is stored as the edit of the current VM exactly if it carries its version, or refused with nothing changed. |
| `VmUpdate.UpdateVm` | web/src/plugins/core/vm/update.ts:18-32 | The retry loop, against any writers, failing fetches, refusals and lost answers: it tries again after a conflict and after nothing else, three times at most, and gives what its last turn came to; each turn stores the edit exactly if nothing fails before the patch is handled and what it was built from is still current then; one edit at the end if it returns, none if it throws a status from 1 to 499. |
| `ShellQuote.QuoteReadsBack` | src/proxmox/ssh.rs:198-201 | Wherever a shell reads words, a quoted text adds exactly itself to the word, no character of it with a meaning. |
| `ShellQuote.QuoteIsOneWord` | src/proxmox/ssh.rs:198-201 | For every text, the quoted form is read as the one word it is. |
| `ShellQuote.ScriptTokens` | src/extensions/proxmox.rs:388-396 | For every volume id, it is one argument of the script, twice, and the rest of the script reads the same. |
| `ShellQuote.LocalTokens` | src/extensions/proxmox.rs:397 | The shell hands bash the script unchanged, as its argument after -c. |
| `ShellQuote.HopArrives` | src/extensions/proxmox.rs:400-409 | For a valid node name, ssh is handed the target and, as its one command, the local command unchanged. |
| `ShellQuote.HopReads` | src/extensions/proxmox.rs:400-407 | Before the target, the shell reads: the node's file of host keys, tested for and given to ssh as one option, and the node's name as the alias to look up. |
| `ShellQuote.VolumeArrives` | src/extensions/proxmox.rs:388-411 | Shell by shell, over any fixed text of that form: what each is handed is what the next one reads. |
| `ShellQuote.ExportArrives` | src/extensions/proxmox.rs:388-411 | Through all three shells, with the hop or without: the script that `export_command` leads to has the volume id as one argument, exactly as it is, twice, and is the same for every volume apart from that. |
| `ShellQuote.ProxmoxIsWellMade` | src/extensions/proxmox.rs:388-396 | The command's own text is of the form those results need. |
| `Import.DdRoundTrip` | src/extensions/proxmox.rs:414-421 | What dd prints of a byte count is read back. |
| `Import.Listen` | src/extensions/proxmox.rs:793-848 | The loop over the channel ends as the first message that breaks it off says, or by itself if none does, with the last count on a complete status line and the last exit status. |
| `Import.Pump` | src/extensions/proxmox.rs:762-898 | A copy succeeds if and only if it exited with 0, counted every byte of a known size, never saw the source running, and the proxy took and accepted it all; the proxy's verdict is asked exactly for a copy read to its good end or a proxy that took no more, the upload is dropped exactly if the import was stopped, and aborted otherwise. |
| `Import.CopyDisk` | src/extensions/proxmox.rs:702-760 | A disk is filled exactly if every step before the copy, the copy and CDI's processing succeed. |
| `Import.FillDisks` | src/extensions/proxmox.rs:646-669 | Disk after disk, up to the first that is not filled; how it ends is how that one did. |
| `Import.Cleanup.Drop` | src/extensions/proxmox.rs:453-467 | Dropped while armed, the guard has the VM deleted. |
| `Import.InScope` | src/extensions/proxmox.rs:633-679 | The guard is armed at the end exactly if the VM was created, the import knew it, and the watching connection, a disk or a close failed; the import succeeds exactly if all of its steps did, and otherwise ends as the first step that did not. |
| `Import.ImportVm` | src/extensions/proxmox.rs:633-679 | The import succeeds exactly if every step did, the start only if asked for, and then leaves the VM with every disk filled; the VM's deletion is requested, once, exactly if it was created, the import knew it and something before the end of the last copy failed; and every disk was filled and the VM kept, or its deletion was requested, or it never was, if and only if it is not the case that the VM was created and the import did not learn of it. |
| `Import.OrphanIsNeither` | src/extensions/proxmox.rs:453-467 | A VM that was created and nothing more, though it has disks to fill, is neither kept well nor deleted. |
| `Import.ImportOrphaned` | src/extensions/proxmox.rs:636-637 | An import that leaves one behind. |
| `Mapping.BuildImport` | web/src/plugins/core/proxmox/mapping.ts:233-284 | The loops build, for each disk that is copied and each NIC attached, the entries of every list at the same place. |
| `Mapping.DisksAsChosen` | web/src/plugins/core/proxmox/mapping.ts:248-270 | A disk is built, with the bus, I/O thread, volume, template and mapping that go with the choice, if and only if it was chosen, can be imported and has a size. |
| `Mapping.NicsAsChosen` | web/src/plugins/core/proxmox/mapping.ts:274-284 | A NIC is attached, to the network chosen and with the MAC if it is to be kept, if and only if it was not left detached. |
| `Mapping.NumberBootOrder` | web/src/plugins/core/proxmox/mapping.ts:241-242 | The boot order is numbered over the devices included. |
| `Mapping.OneToOne` | web/src/plugins/core/proxmox/mapping.ts:249-284 | With distinct keys, disks, volumes, upload templates and the mapping are one to one, by place and by name, and so are interfaces and networks. |
| `Mapping.BootOrderKept` | web/src/plugins/core/proxmox/mapping.ts:242-284 | The numbered devices are in the order of their first places in Proxmox's list if and only if, among the VM's devices, the last places are in the same order; without repeats they are. |
| `Mapping.LastPlaceDecides` | web/src/plugins/core/proxmox/mapping.ts:242-263 | For every list, boot orders of disks and interfaces are distinct, and compare exactly as the last places of their keys do. |
| `Mapping.PlaceIs` | web/src/plugins/core/proxmox/mapping.ts:242-263 | A device that is built is numbered exactly if Proxmox boots from it. |
| `Mapping.RepeatsReorder` | web/src/plugins/core/proxmox/mapping.ts:242 | A VM with two disks, booted from the first, the second and the first again: the first is numbered after the second. |
| `Mapping.CheckPairing` | src/extensions/proxmox.rs:514-541 | The server's loops accept exactly valid names, distinct keys, and disks and upload DataVolumes that pair up. |
| `Mapping.BuiltIsPaired` | src/extensions/proxmox.rs:514-541 | With distinct disk keys, what is built passes those checks exactly if the DataVolume names it makes are valid. |
| `Mapping.NameIsValid` | web/src/plugins/core/proxmox/mapping.ts:228-230 | A fit VM name and a fit disk key make a valid DataVolume name, if it is not too long. |
| `PluginRegistry.Plugins.InstallPlugin` | web/src/plugins/registry.ts:252-258 | Installing is the installing step, and leaves the registry at rest. |
| `PluginRegistry.Plugins.ActivateAt` | web/src/plugins/registry.ts:221-238 | Activating is the activating step: what a failing setup contributed is withdrawn. |
| `PluginRegistry.Plugins.SyncPlugins` | web/src/plugins/registry.ts:265-276 | The loop over the plugins is the syncing step. |
| `PluginRegistry.InstallRests` | web/src/plugins/registry.ts:252-258 | Installing keeps: unique plugins, unique contributions, all of active plugins. |
| `PluginRegistry.SyncInLine` | web/src/plugins/registry.ts:265-276 | After a sync, an active plugin has all its requirements served, and an inactive one has an error, and is one whose setup threw if its requirements are served. |
| `PluginRegistry.OfferedOnce` | web/src/plugins/registry.ts:178-219 | After any installs and syncs, every contribution is an active plugin's, and each panel and action of a kind and id, and each of the rest of an id, is there once. |
| `PluginRegistry.ActivateOffers` | web/src/plugins/registry.ts:221-238 | Activating a plugin that has nothing in common with the others offers what it contributes if its setup completes, and takes nothing from them. |
| `PluginRegistry.ActiveIsOffered` | web/src/plugins/registry.ts:252-276 | Over any installs and syncs of plugins that have nothing in common: all that an active plugin contributes is offered, as its own. |
| `PluginRegistry.ReplacedIsLost` | web/src/plugins/registry.ts:178-205 | Of any two that have something in common, the one installed first is active afterwards with a contribution that is not offered. |
| `Migration.FindLabel` | src/extensions/migration.rs:101-113 | The loop finds what the first label of that name has. |
| `Migration.LabelReadsBack` | src/extensions/migration.rs:100-113 | Any label is read back from a printed label set, wherever in it it stands. |
| `Migration.SampleReadsBack` | src/extensions/migration.rs:63-81 | A printed sample is read as it is if and only if its labels, in any order, carry the VMI's namespace and name. |
| `Migration.MetricNames` | src/extensions/migration.rs:85-91 | Each figure is read from the metrics of its name, and from no other. |
| `Migration.ParseTransfer` | src/extensions/migration.rs:59-98 | The loop over the lines of the text takes the samples of this VMI one by one. |
| `Migration.TransferReadsBack` | src/extensions/migration.rs:59-98 | From any printed metrics, foreign lines and other VMIs among them: each figure is that of this VMI's newest sample, the total that of the later of its two metrics', and the time the greatest positive one. |
| `Migration.FiguresAreNewest` | src/extensions/migration.rs:82-97 | Processed and remaining bytes and the two rates are those of the newest sample of each metric. |
| `Migration.TotalIsLatest` | src/extensions/migration.rs:86-88 | The total is the value on the later line of the newest samples of its two metrics. |
| `Migration.NewestIs` | src/extensions/migration.rs:82-85 | The newest sample is the last line among those with the greatest time. |
| `Migration.SampledAtIsGreatest` | src/extensions/migration.rs:94-96 | The sample time is the greatest positive one of a recognised metric. |

## Left out

- HTTP, TLS, WebSocket, SSH and port-forward plumbing, JSON and YAML decoding: channels, steps or parsed values here.
- Tickets, tokens, host keys and certificates: cryptography and remote calls.
- Vue components, dialogs, menus and formatting: user interface.
- Floating-point code (quantities, rates, sizes): `Migration` takes the parsing of floats as a parameter.
- Durations: backoff, throttling and linger times only decide when a step happens. The growing backoff after failures is not modelled.
- `resetWatches`: after it a stale holder can delete a newer entry of the same key, so it has no place in the runs of `WatchCache`.
- `closeAllSubscriptions` and signing in or out: outside the runs of `GatewaySession`.
- Frames the gateway refuses for their size or form: this client's are well-formed; a call lost so ends by its timeout.
- Log lines of tasks, and the browser's copies of them: agreement is about status, message and end time; progress is throttled.
- The browser's `stop()` of the task store, which clears the replica but keeps the waiters.
- Decoding stderr chunk by chunk: `Import` and `Framer` take the text already decoded, so a character cut between two chunks is not modelled.
- The checks an import makes of its source before it creates anything (stopped, same digest, not locked): steps that succeed or fail in `Import.ImportRun`.
- The rest of `buildImport` (CPU, memory, firmware, Windows settings, serial numbers, storage classes) and the wizard's `warnings` and `problems`: independent fields and messages.
- A plugin that calls its registry API after its `setup` has returned.
- The annotation's parser, `bridge_for` and resolving `auto` fields of an entry: single look-ups.
- Lower-casing is ASCII only in `Text.Lower`, which is all a MAC address needs.
- Counters are unbounded: adding up packets past 64 bits is not modelled.
- GatewaySession.Gateway.OnSocketClose: does not model a socket that closes while `onOpen` is pending, which is taken as given above; the hello that is then resumed would go on with another socket.
- NetagentAgent.Converges: for names with spaces or quotes in them nothing is claimed; such a name would be split into other words.
