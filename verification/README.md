# MeowFRP server: a verified model of its distributed core

MeowFRP separates a *controller*, which owns users, tokens, policies and grants in MySQL, from
*edge nodes*, which run the forwarding server and keep a local cache of the identities they are
authorised to serve. This project models the parts where several operations, two machines or a
crash have to agree, and proves what they guarantee over every run.

`dafny verify dfyconfig.toml` checks everything.

## Components

**Identity synchronisation (cache protocol 3).** `SyncProtocol` is a transition system: the
controller's database and outbox, its sessions, one FIFO queue per direction of every stream, the
edge's durable cache and the volatile state of its connection. Each message handler, worker job
and administrator mutation is one step, because the controller's consistency lock makes them
exclusive. Streams break at any time and old streams live on beside new ones; queues can be full;
the controller's SQL transactions for pages and acknowledgements commit, roll back, or commit while
reporting an error; the edge's apply worker can commit while the connection goes down. Mutations
interleave everywhere.
`SyncInvariant` states what every reachable state satisfies, `SyncFlow`, `SyncData`, `SyncSteps`,
`SyncReplies` and `SyncEdge` prove it step by step, `SyncBlacklist` follows the blacklist through
every run, and `SyncTheorems` draws the conclusions.
`SyncRecovery` proves that no reachable state is a dead end: a reconnect, or a full refresh on a
stream that is up, and then smooth steps always lead to the authorised records and to admission.
`SyncIntake` says what the edge makes of whatever a controller sends. `SyncExample` contains a concrete run. `SyncPaging` relates
the pages of a baseline to the one-shot snapshot, `TablePaging` does so on the edge's five tables.
`SyncHandlers` holds the handlers as objects that update their fields, each
proved to perform the protocol's step; `Outbox` does the same for the controller's tables and
`EdgeTables`, `EdgeState` and `EdgeStore` for the edge's. `ControllerSnapshot` builds a snapshot
from the controller's tables and follows it to the edge's records.

**Leases and ports.** `EdgeState` also carries the runtime leases and proves that none outlives the
credential it was issued under. `Proxies` contains both request validators, `Ports` proves port
exclusivity over runs in which checking and creating are separate steps.

**Admission.** `Admission` is the read/write fence around proxy registration, its counters and the
draining of clients.

**Commands and events.** `Commands` executes configuration commands on the edge, `Catalog` completes
them on the controller, `Disconnects` replays a disconnect after crashes, `Events` ingests events
over a network that loses and repeats messages.

**Server names and faults.** `Sni` parses and reassembles TLS ClientHello records; `NodeFault` is the
ten-second rule for database outages.

## Where a promise does not hold

Four promises turn out to depend on a condition. In each case the code is modelled as it is, a
lemma exhibits a failing run, and another states exactly when the promise is kept.

- *A blacklist that differs from the edge's copy is always going to be delivered.* A change that is
  committed but answered with an error is not announced, and can be lost
  (`SyncExample.BlacklistCanDriftSilently`). In every reachable state the promise is kept if and only
  if no change was lost (`SyncTheorems.MirroredIffNothingLost`). A change is not lost exactly when it
  is announced, when the list is going to be read again anyway (a flag is up, or the last page of the
  baseline is still to be read), or when it is the list the edge is about to hold
  (`SyncTheorems.ChangeIsMirroredIff`). Going back to the list the edge holds now does not help while a
  difference is in flight. Once the outbox is drained, the edge's list equals the database's if and
  only if nothing was lost (`SyncRecovery.ChangesCatchUp`).
- *A registered client has one active lease.* The edge finds the client by the trimmed id and writes
  the lease with the id as sent (`Ports.SpellingsKeepTwoLeases`); creating a lease keeps the promise
  exactly when the client's other active leases carry the same spelling
  (`Ports.OneLeaseIffSameSpelling`). The controller trims first and always keeps it
  (`Ports.ControllerKeepsOneLease`).
- *Settings never roll back.* Handling a command keeps the settings those of the newest executed one
  exactly unless it executes a configuration older than the settings it replaces
  (`Commands.HandleKeepsPromiseIff`, over runs `Commands.RunKeepsPromiseIff`). The recorded revision
  lets such a command through when it lags behind, because the record of a newer execution was lost
  (`Commands.UnrecordedExecutionCanRollBack`), or when it is not positive, because the comparison is
  then skipped (`Commands.NegativeRevisionCanRollBack`). The controller stamps its commands with
  positive revisions, so only a foreign payload does the latter. Commands delivered in order never roll
  back, whatever records are lost (`Commands.OrderedDeliveriesNeverRollBack`).
- *The proxy counters are exact.* The manager does not compare the client of a lease it is told again.
  The counters stay exact if and only if the lease is new, keeps its client, or has no registered proxy
  (`Admission.RememberKeepsCountsIff`, with a failing run in `Admission.MovedLeaseBreaksCounters`).

## Model

| member | source | states |
|---|---|---|
| `Outbox.RetriedConfirmKeepsChanges` | internal/db/user_node_cache.go:193-225 | a confirmation retried after an ambiguous commit, with any changes of users in between, leaves every change that concerned the node still wanted: its desired revision survives above the applied one |
| `Outbox.ConfirmKeepsNewerRevision` | internal/db/user_node_cache.go:202-223 | confirming a revision never makes a row clean whose desired revision is newer |
| `Outbox.ConfirmIsIdempotent` | internal/db/user_node_cache.go:193-225 | a second confirmation without changes in between does nothing |
| `Outbox.ConfirmMeans` | internal/db/user_node_cache.go:193-225 | after a confirmation, a row the snapshot spoke of stays exactly if its user was sent or a newer revision is wanted, is cached exactly if sent, and dirty exactly if a newer revision is wanted; every other row is as before |
| `Outbox.AppliedNeverDecreases` | internal/db/user_node_cache.go:202-223 | a late confirmation of an older revision never takes a row back |
| `SyncTheorems.RevisionsNeverRepeat` | internal/db/user_node_cache.go:44-54 | in every run a revision number names one snapshot, over all epochs and sessions, also when the push that took it failed |
| `Outbox.Store.ResetNodeIdentityCache` | internal/db/user_node_cache.go:56-69 | the node's session is recorded and its rows are gone; other nodes are untouched |
| `Outbox.Store.MarkUserIdentityDirty` | internal/db/user_node_cache.go:103-146 | exactly the registered nodes that cache the user or are authorised for it get a newer desired revision, under each node's own session |
| `Outbox.Store.SaveUserNodeAccess` | internal/db/user_nodes.go:45-66 | the user's nodes are replaced, the user's leases on the controller are revoked unless it is among them, and nodes that gained or still cache the user are dirtied in the same transaction |
| `Outbox.Store.PrepareNodeIdentityCache` | internal/db/user_node_cache.go:165-191 | succeeds only for the recorded session, and raises the desired revision of every listed user and of nobody else |
| `Outbox.Store.ConfirmNodeIdentityCache` | internal/db/user_node_cache.go:165-225 | succeeds only for the recorded session; sent users become cached, removed users' rows go unless a newer change is wanted, a full snapshot settles the rest |
| `SyncHandlers.NodeSession.RequestCacheReset` | internal/cluster/identity_transfer.go:69-90 | performs the protocol's reset request: new epoch, not ready, welcome queued or the session failed |
| `SyncHandlers.NodeSession.AcceptCacheCleared` | internal/cluster/identity_transfer.go:92-129 | performs the protocol's answer to a cleared cache on session and store, in every branch and for every way the transaction ends |
| `SyncHandlers.NodeSession.AcceptIdentityProgress` | internal/cluster/identity_transfer.go:196-227 | performs the protocol's answer to a fragment receipt, in every branch |
| `SyncHandlers.NodeSession.SendIdentityChunk` | internal/cluster/identity_transfer.go:177-194 | queues exactly the next fragment of the payload, or reports a full queue |
| `SyncHandlers.NodeSession.EnqueueIdentity` | internal/cluster/push.go:191-232 | prepares the outbox rows of all ids of the snapshot, makes it pending and queues its first fragment, as the protocol does |
| `SyncHandlers.NodeSession.ConfirmIdentity` | internal/cluster/push.go:234-302 | performs the protocol's answer to an acknowledgement on session, mirror, cursor and store, in every branch |
| `SyncHandlers.NodeSession.BlockedIPMessage` | internal/cluster/identity_transfer.go:20-66 | the two loops compute the difference between mirror and database, or the whole list for old admission protocols, under a revision of its own |
| `SyncHandlers.NodeSession.IdentityPageMessage` | internal/cluster/identity_transfer.go:132-174 | reads the page above the cursor or the requested users, and builds exactly the protocol's snapshot under a revision of its own |
| `SyncHandlers.NodeSession.PushNodeIdentity` | internal/cluster/push.go:108-188 | one turn of the push worker takes the protocol's branch and leaves session, send queue, outbox and revision counter as the protocol says |
| `SyncHandlers.EdgeConnection.Receive` | internal/cluster/client.go:398-503 | one turn of the receive loop does what the protocol's edge does with a welcome, a fragment or a confirmation, and fails exactly when it fails |
| `SyncHandlers.EdgeConnection.QueueApply` | internal/cluster/client.go:388-397 | one job at a time waits; a second one is refused |
| `SyncFlow.FlowAfterChunk` | internal/cluster/client.go:419-454 | a fragment on the wire is always the one the edge expects, is accepted, and keeps the exchange in step |
| `SyncFlow.FlowAfterFinish` | internal/cluster/client.go:281-311 | the job being applied carries the pending snapshot, passes every check, and its commit is acknowledged |
| `SyncFlow.FlowAfterEmptying` | internal/cluster/client.go:260-275 | emptying the cache for an epoch and reporting it keeps the handshake in step, also for superseded epochs |
| `SyncData.MutationKeepsSync` | internal/db/user_node_cache.go:103-146 | a change of a user keeps every difference between edge and database accounted for, whatever is under way |
| `SyncData.BaselinePageIsFaithful` | internal/cluster/identity_transfer.go:132-174 | a baseline page carries the authorised records of an interval of ids and leaves no authorised user of that interval out |
| `SyncData.RequestedPageIsFaithful` | internal/cluster/identity_transfer.go:132-174 | an increment carries every requested user, as the database has it or as removed |
| `SyncData.ConfirmKeepsSync` | internal/cluster/push.go:262-291 | confirming the pending snapshot and advancing the session loses no difference |
| `SyncData.CommitKeepsSync` | internal/edgestate/edge_runtime.go:72-131 | the edge's commit of the pending snapshot loses no difference |
| `SyncData.DeltaEqualsReplacement` | internal/cluster/identity_transfer.go:37-57 | applying the blacklist difference gives the same list as replacing it |
| `SyncData.LegacyGetsTheWholeList` | internal/cluster/identity_transfer.go:20-66 | a node of an old admission protocol gets a list that is right whatever it holds |
| `SyncSteps.ConnectKeeps` | internal/cluster/server.go:383-568 | registering a stream beside older ones keeps the invariant |
| `SyncSteps.PushKeeps` | internal/cluster/push.go:108-188 | every branch of the push worker keeps the invariant, for every way its transaction ends |
| `SyncReplies.ReceiveKeeps` | internal/cluster/server.go:610-666 | routing a message of any stream, current or replaced, keeps the invariant |
| `SyncReplies.WorkKeeps` | internal/cluster/server.go:569-607 | handling a queued identity job of any stream, with retries, keeps the invariant |
| `SyncEdge.EdgeMessageKeeps` | internal/cluster/client.go:398-510 | whatever the edge receives keeps the invariant |
| `SyncEdge.FinishKeeps` | internal/cluster/client.go:250-313 | whatever the apply worker finishes, or fails to, keeps the invariant |
| `SyncEdge.DetachKeeps` | internal/cluster/client.go:376-387 | losing the connection, with the worker's last job committed or not and the cache discarded or not, keeps the invariant |
| `SyncEdge.RunKeeps` | internal/cluster/push.go:108-302 | the invariant holds in every state of every run |
| `SyncTheorems.NoLostUpdate` | internal/db/user_node_cache.go:103-225 | in a ready session, a user whose edge record differs from the authorised one lies beyond the baseline cursor, is in the uncommitted batch with its authorised record, or has a row of this session with desired above applied |
| `SyncTheorems.QuiescentMeansEqual` | internal/cluster/push.go:108-188 | when the push worker finds nothing to do and nothing is pending, the edge's records equal the authorised ones, the final page is confirmed, and the blacklists agree if and only if no change was lost |
| `SyncTheorems.RowsClaimOnlyCommits` | internal/db/user_node_cache.go:193-225 | a row is applied at r under its session only if the edge committed, in that epoch, exactly the snapshot prepared as r, and it is cached exactly if that snapshot carried the user |
| `SyncTheorems.HistoryGrows` | internal/cluster/push.go:191-302 | what was prepared, committed or confirmed under an epoch and revision is never rewritten |
| `SyncTheorems.StaleAnswersChangeNothing` | internal/cluster/push.go:234-261 | answers of replaced sessions, old epochs, old revisions and unfinished transfers change neither database nor sessions nor history |
| `SyncTheorems.StaleReceiptsPass` | internal/cluster/identity_transfer.go:196-227 | on the current stream, receipts of an earlier epoch, snapshot or fragment are passed over and do not end the session |
| `SyncTheorems.ReceivingChangesNothing` | internal/cluster/server.go:610-666 | reading the stream never touches the database |
| `SyncTheorems.AcceptedAckIsCommitted` | internal/cluster/push.go:234-274 | an acknowledgement that is accepted names the pending snapshot, and the edge has committed it |
| `SyncTheorems.FragmentsMakeThePayload` | internal/cluster/push.go:218-224 | fragments number ceil(n/512Ki), are non-empty and within the limit, all but the last are full, and joined they are the payload |
| `SyncTheorems.OneFragmentAtATime` | internal/cluster/identity_transfer.go:176-227 | at most one fragment or its receipt is under way |
| `SyncTheorems.JobsCarryThePreparedBytes` | internal/cluster/client.go:419-454 | every apply job the edge queues or runs carries the very bytes prepared for its epoch and revision |
| `SyncTheorems.EdgeNeverRejects` | internal/edgestate/edge_runtime.go:38-65 | no fragment, confirmation or executing snapshot is ever rejected |
| `SyncTheorems.AdmissionGate` | internal/cluster/client.go:467-503 | while the edge admits clients, the final page of its epoch is committed and confirmed, no reset is pending, and nothing is being received or applied |
| `SyncTheorems.AdmissionOpensOnlyByConfirmation` | internal/cluster/client.go:467-503 | whatever step is taken, admission opens only when the edge reads the complete confirmation of its own epoch and of the revision it committed last; a fence closes it |
| `SyncTheorems.DetachedIsShut` | internal/cluster/client.go:376-387 | in every reachable state an edge without a stream admits nobody and has its reset pending, and so does one whose reset failed |
| `SyncTheorems.RefreshIsAskedOnce` | internal/cluster/identity_transfer.go:69-90 | a new epoch queues its welcome and the worker then waits for the edge, or, without room, the session ends |
| `SyncIntake.JobsAreConsecutive` | internal/cluster/client.go:419-454 | whatever arrives, the buffer holds consecutive fragments of one epoch, revision and total, each of 1 to 512 Ki bytes, and only the fragment that completes them makes a job, of exactly their bytes |
| `SyncIntake.BufferIsConsecutive` | internal/cluster/client.go:398-454 | so it is after every sequence of messages that the receive loop survives |
| `SyncIntake.CommitsGoForward` | internal/edgestate/edge_runtime.go:38-65 | a job commits only the snapshot of its own revision; pages and increments are newer than what was committed, pages need a reset, increments a baseline |
| `SyncTheorems.BlacklistMirror` | internal/cluster/push.go:275-290 | with nothing in flight the session's copy is what the edge holds |
| `SyncTheorems.MirroredIffNothingLost` | internal/cluster/push.go:34-45 | in every reachable state of a ready session: what the edge will hold is the database's list, or the list is going to be read again, if and only if no change was lost |
| `SyncTheorems.ChangeIsMirroredIff` | internal/cluster/push.go:34-45 | a committed change keeps that promise exactly if it is announced, the list is going to be read again, or it is the list that the edge will hold once the pending snapshot is confirmed |
| `SyncTheorems.AnnouncedChangesAreMirrored` | internal/cluster/push.go:34-45 | in a run whose changes are all announced the promise holds in every state |
| `SyncBlacklist.PageReadsAtTheEnd` | internal/cluster/identity_transfer.go:159-165 | a page replaces the blacklist exactly when it ends the baseline, and an increment leaves it alone |
| `SyncBlacklist.RunIsTraced` | internal/cluster/push.go:275-290 | in every run, once the last page is read, what the session will hold is the list that was last read for it |
| `SyncTheorems.OutboxStaysWellFormed` | internal/db/user_node_cache.go:103-225 | in every run, each row carries the node's recorded session and applied never exceeds desired |
| `SyncRecovery.AlwaysRecoverable` | internal/cluster/client.go:398-510 | from every reachable state, whatever was lost before, a reconnect and then steps on that stream which succeed end with admission open, exactly the authorised records and the database's blacklist at the edge |
| `SyncRecovery.FullRefreshCompletes` | internal/cluster/push.go:25-32 | from every reachable state with the edge attached and nothing pending, in a handshake, in a baseline or at rest, a full refresh ends on the same stream with a newer epoch, admission open, exactly the authorised records and the blacklist |
| `SyncRecovery.HandshakeCompletes` | internal/cluster/identity_transfer.go:92-129 | a handshake whose welcome, reset or report is on its round trip completes, with whatever older ones in front of it, and starts a baseline over an empty outbox |
| `SyncRecovery.Renews` | internal/cluster/identity_transfer.go:69-90 | the push worker answers a refresh with a newer epoch whose welcome is on the wire |
| `SyncRecovery.ChangesCatchUp` | internal/cluster/push.go:142-188 | however many changes wait after the baseline, pushes on the same stream and epoch bring the edge to the authorised records, and to the database's blacklist if and only if no change of it was lost |
| `SyncRecovery.OneFragmentCrosses` | internal/cluster/identity_transfer.go:196-227 | a fragment on the wire and its receipt advance the transfer by exactly one fragment |
| `SyncRecovery.OnePage` | internal/cluster/push.go:155-183 | one push with its transfer, commit and confirmation advances the cursor to the page's last user and leaves nothing dirty |
| `SyncRecovery.OneIncrement` | internal/cluster/push.go:142-188 | each increment makes the backlog of dirty users and blacklist flags strictly smaller |
| `SyncExample.AdmissionOpens` | internal/cluster/client.go:467-476 | handshake, page, commit and confirmation lead to an admitting edge |
| `SyncExample.BlacklistCanDriftSilently` | internal/cluster/push.go:34-45 | a reachable state with nothing to push, no flag up, and different blacklists |
| `SyncPaging.ReadNodeIdentityPage` | internal/db/identity_page.go:23-71 | the page holds the lowest candidates, its last id and end mark follow from them, and removed is what was requested but not found; invalid requests are refused |
| `SyncPaging.PageAdvances` | internal/cluster/identity_transfer.go:132-174 | every page but the last leaves exactly 64 fewer users above the cursor |
| `SyncPaging.PagedBaselineIsOneShot` | internal/cluster/server.go:704-815 | on an emptied edge and without changes, the pages in order are accepted and leave the records, blacklist and reset flag of one full snapshot |
| `SyncPaging.PagesAreDisjoint` | internal/db/identity_page.go:27-57 | no user occurs in two pages |
| `SyncPaging.PageCount` | internal/db/identity_page.go:23-57 | one page per 64 authorised users, one for nobody |
| `ControllerSnapshot.IdentitySnapshotForUsers` | internal/cluster/server.go:704-815 | the five loops keep exactly the rows of the authorised requested users, and list the other requested users as removed |
| `ControllerSnapshot.SubIsRestriction` | internal/db/identity_page.go:75-146 | the rows of a set of users add up to exactly those users' records |
| `ControllerSnapshot.FullSnapshotDelivers` | internal/edgestate/edge_runtime.go:90-131 | after a full snapshot the edge's records are the authorised ones, whatever it held before |
| `ControllerSnapshot.IncrementDelivers` | internal/edgestate/edge_runtime.go:72-131 | after an increment the requested users' records are the authorised ones and all others are as before |
| `EdgeTables.WithoutIsRemoval` | internal/edgestate/edge_runtime.go:72-89 | the deletions of a user, grants before tokens, remove that user's record and no other |
| `EdgeTables.PlusIsUnion` | internal/edgestate/edge_runtime.go:97-131 | inserting rows without key clashes adds exactly the records they form |
| `EdgeTables.InsertRows` | internal/edgestate/edge_runtime.go:97-131 | an insert loop fails exactly on a repeated or present key, and otherwise adds all rows |
| `EdgeState.ApplyRefinesProtocol` | internal/edgestate/edge_runtime.go:15-184 | a snapshot that commits on the tables is one the protocol accepts, and leaves the records, blacklist, revision and reset flag of the protocol's step |
| `EdgeState.ResetRefinesProtocol` | internal/edgestate/identity_reset.go:20-54 | discarding the tables is the protocol's emptying; a failed transaction leaves only the flag |
| `EdgeState.AcceptedIncrementCommits` | internal/edgestate/edge_runtime.go:72-131 | an increment the protocol accepts meets no key or hash clash, because its own deletions make room, as long as tokens and grants never move between users |
| `TablePaging.AcceptedPageCommits` | internal/edgestate/edge_runtime.go:90-131 | a baseline page of users not yet cached meets no row that is there: no user, token, policy, grant or hash clashes, and it commits |
| `TablePaging.PagedTablesAreOneShot` | internal/cluster/server.go:704-815 | on an emptied edge and without changes, the messages of all pages commit and leave the five tables, the blacklist and the reset flag exactly as the message of the one-shot snapshot does |
| `EdgeState.ApplyRevokesExactly` | internal/edgestate/edge_runtime.go:66-155 | outside a reset and on its last page, a lease stays active exactly if the records show an active user of role user with an enabled policy, and among its tokens the lease's own, active, unexpired and with the issuing hash |
| `EdgeState.LockedOutLosesLeases` | internal/edgestate/edge_runtime.go:97-155 | after an increment that removes a user, bans it, changes its role or does not enforce access, the user has no active lease |
| `EdgeState.RotationEndsLeases` | internal/edgestate/edge_runtime.go:66-71 | a new hash for a cached token ends every lease of the token, also one without an issuing record |
| `EdgeState.LeasesSurviveReconnect` | internal/edgestate/edge_runtime.go:147-155 | after discarding the cache and applying all pages, a lease is active exactly if it was and its holder is still entitled, on whichever page the user arrived |
| `EdgeState.NoNewLeaseDuringReset` | internal/edgestate/edge_runtime.go:324-335 | while a reset is pending no step adds a lease |
| `EdgeState.RevokedForGood` | internal/edgestate/edge_runtime.go:66-155 | in every run without a boot reset a lease keeps owner, expiry and endpoints, and once revoked stays revoked; a reconnect changes no lease |
| `EdgeState.CreatedLeaseHolds` | internal/edgestate/edge_runtime.go:336-359 | a new lease is active for its client under the cached hash and holds exactly the requested endpoints |
| `EdgeState.CreatedLeaseReplaces` | internal/edgestate/edge_runtime.go:336-338 | it ends the client's other leases of the token and touches no other |
| `EdgeState.EdgeKeepsOnePerClient` | internal/edgestate/edge_runtime.go:336-341 | after a boot reset, in every run, no client has two active leases of one token |
| `EdgeState.LeasesKeepTheirCredential` | internal/edgestate/edge_runtime.go:147-155 | after a boot reset, in every run and whenever no reset is pending, every active lease was issued under the hash now cached for its token |
| `EdgeStore.Store.ApplyIdentitySnapshot` | internal/edgestate/edge_runtime.go:15-184 | the statements of the transaction, in order, perform the specified step or nothing, and succeed exactly when it does |
| `EdgeStore.Store.ResetIdentityCache` | internal/edgestate/identity_reset.go:20-54 | the reset flag is up even if the transaction fails; if it commits, identities are gone, and on boot the leases too |
| `EdgeStore.Store.CreateLease` | internal/edgestate/edge_runtime.go:324-359 | refused while a reset is pending, without a cached token, or on a repeated key; otherwise the client's other leases are revoked and the issuing hash is stored |
| `EdgeStore.Store.RevokeClient` | internal/edgestate/edge_runtime.go:391-394 | exactly the active leases of the token and client are revoked |
| `EdgeStore.Transaction.RevokeRotated` | internal/edgestate/edge_runtime.go:66-71 | exactly the leases of tokens whose cached hash differs from some row of the message are revoked |
| `EdgeStore.Transaction.DeleteUsers` | internal/edgestate/edge_runtime.go:72-89 | the loop of deletions removes the rows of all listed users, also when an id repeats |
| `EdgeStore.Transaction.MergeBlocked` | internal/edgestate/edge_runtime.go:132-146 | the list is cleared if asked, rows replace older ones, and removals come last |
| `EdgeStore.InsertBatch` | internal/edgestate/edge_runtime.go:97-131 | the five insert loops succeed exactly when no key or hash clashes, and then add all rows |
| `EdgeStore.InsertTokens` | internal/edgestate/edge_runtime.go:106-114 | fails exactly on a repeated id or a repeated hash |
| `Proxies.MatchesAnyGrant` | internal/httpapi/handlers_client.go:408-429 | some enabled grant of the protocol covers the proxy: by its ports for tcp and udp, by domain and subdomain for the web protocols |
| `Proxies.TrimStrips` | internal/httpapi/handlers_edge_client.go:159-163 | trimming gives the one text that is left when the surrounding white space is taken away |
| `Proxies.NormalIsNormalised` | internal/httpapi/handlers_edge_client.go:158-167 | the normalised proxy is the one with the same ports, stripped texts, the protocol its text spells and the local address for a missing one |
| `Proxies.CleanIsUnchanged` | internal/httpapi/handlers_edge_client.go:158-167 | a clean request stays as it is |
| `Proxies.PermittedIff` | internal/httpapi/handlers_edge_client.go:128-198 | the acceptable normalised requests are exactly those that obey every rule of user policy, node, token and leases, each stated on its own |
| `Proxies.ValidateEdgeProxies` | internal/httpapi/handlers_edge_client.go:128-198 | accepts exactly the requests that the rules permit as they were sent, and leaves their normalised form in place |
| `Proxies.ValidateBootstrapProxies` | internal/httpapi/handlers_client.go:245-324 | accepts exactly the same requests as the edge and returns the same normalised list |
| `Ports.PortsStayExclusive` | internal/httpapi/handlers_edge_client.go:85-198 | at every moment of every run no two live leases and no two proxies of one lease hold the same protocol and port, and each token and client id has at most one active lease |
| `Ports.CreateKeeps` | internal/db/store.go:745-772 | a lease created after its checks, with time, expiry and revocations in between, meets no live lease |
| `Ports.NewLeaseIsFree` | internal/db/store.go:614-624 | an endpoint found free stays free for the request until its lease is created |
| `Ports.SpellingsKeepTwoLeases` | internal/httpapi/handlers_edge_client.go:95-120 | two requests of one registered client, its id spelled with and without a space, end with two active leases |
| `Ports.OneLeaseIffSameSpelling` | internal/httpapi/handlers_edge_client.go:95-120 | creating a lease leaves one per registered client exactly if the client's other active leases carry the same spelling |
| `Ports.TrimmedIdsKeepOneLease` | internal/httpapi/handlers_edge_client.go:85-126 | when every request carries a trimmed id, registered clients have one active lease each in every run |
| `Ports.ControllerKeepsOneLease` | internal/httpapi/handlers_client.go:181-225 | on the controller, which trims first, registered clients have one active lease each in every run, however their ids are spelled |
| `Ports.AcceptedPassesChecks` | internal/httpapi/handlers_edge_client.go:157-196 | a request that the validators accept passes every one of its port checks |
| `Ports.AcceptedGetsItsLease` | internal/httpapi/handlers_edge_client.go:104-125 | and ends with a lease of its own client that holds, for every proxy as it was sent, its stripped name, its protocol and its remote port, and nothing else |
| `Admission.CountersAreExact` | internal/frpcore/admission.go:93-131 | in every run each client's and each lease's counter is the number of registered proxies it stands for and disappears at zero, and every registered proxy has its lease |
| `Admission.DrainKeepsReferencedLeases` | internal/frpcore/admission.go:47-62 | finishing a drain deletes no lease that a registered proxy refers to |
| `Admission.ClosedRegistersNothing` | internal/frpcore/admission.go:14-33 | while admission is closed, until it is reopened, nothing is in flight and nothing gets registered |
| `Admission.ClosedUntilReopened` | internal/frpcore/admission.go:14-33 | over every run that does not reopen admission, the registered proxies only become fewer |
| `Admission.InvalidatedStaysOut` | internal/frpcore/admission.go:133-145 | from its invalidation until it is told again, over every run, no registration under a lease is in flight and its registered proxies only become fewer |
| `Admission.OnlyInvalidationRevokes` | internal/frpcore/admission.go:133-145 | a known lease stays active unless it is invalidated by name or told again |
| `Admission.ReopenedAdmitsIff` | internal/frpcore/admission.go:81-92 | after reopening, a registration is admitted exactly for a known, active lease of a client that does not drain |
| `Admission.WritersGetThrough` | internal/frpcore/admission.go:12-16 | the registrations in flight can always end, and leave the lock to whoever waits |
| `Admission.DrainCompletes` | internal/frpcore/admission.go:47-62 | from every state, ending the calls in flight and closing the client's proxies lets its drain finish, which forgets its leases and nobody else's |
| `Admission.OnlyClosingDrains` | internal/frpcore/admission.go:12-33 | only closing makes a client drain, and only one with a known lease; pausing does not |
| `Admission.DrainingNeverGrows` | internal/frpcore/admission.go:81-105 | a draining client's count never grows, and only a finished drain without proxies ends the draining |
| `Admission.ZeroStaysZero` | internal/frpcore/admission.go:47-68 | a zero observed while draining stays zero until that drain is finished |
| `Admission.ClosingDrainsEveryone` | internal/frpcore/admission.go:14-25 | closing marks the client of every known lease |
| `Admission.Manager.SetAdmissionClosed` | internal/frpcore/admission.go:14-25 | the loop over the leases performs the closing step |
| `Admission.Manager.PauseAdmission` | internal/frpcore/admission.go:29-33 | closes admission and makes nobody drain |
| `Admission.Manager.RememberRuntimeLease` | internal/frpcore/admission.go:35-39 | the lease is known under its id, whatever was known before, and nothing else changes |
| `Admission.RememberKeepsCountsIff` | internal/frpcore/admission.go:35-39 | the counters stay exact if and only if the lease is new, keeps its client, or has no registered proxy |
| `Admission.MovedLeaseBreaksCounters` | internal/frpcore/admission.go:35-39 | a run after which telling a lease again for another client falsifies a counter |
| `Admission.Manager.FinishClientDrain` | internal/frpcore/admission.go:47-62 | the loop over the leases performs the drain step |
| `Admission.Manager.BeginRegistration` | internal/frpcore/admission.go:81-92 | admits exactly known, active, non-draining leases while open, and then holds the lock |
| `Admission.Manager.ProxyOpened` | internal/frpcore/admission.go:93-105 | registering, also over an older registration of the same key, performs the registration step |
| `Admission.Manager.ProxyClosed` | internal/frpcore/admission.go:106-114 | closing performs the removal step |
| `Admission.Manager.RemoveProxyCount` | internal/frpcore/admission.go:118-131 | both counters go down by one and vanish at zero |
| `Admission.Manager.InvalidateRuntime` | internal/frpcore/admission.go:134-145 | exactly the matching leases become inactive |
| `Commands.ConfigurationNeverRollsBack` | internal/httpapi/handlers_cluster.go:1006-1027 | over repeated and reordered deliveries in which every execution reaches its record, the settings of each kind are those of the greatest executed revision |
| `Commands.PerformIsCurrentIff` | internal/edgestate/configuration_revision.go:10-43 | a recorded execution keeps the settings current exactly unless it undercuts a recorded revision that is not positive |
| `Commands.HandleKeepsPromiseIff` | internal/httpapi/handlers_cluster.go:997-1261 | for every outcome, records lost or not, the settings stay those of the newest executed command exactly unless the handler executes a configuration older than the settings it replaces |
| `Commands.RunKeepsPromiseIff` | internal/httpapi/handlers_cluster.go:997-1261 | a run keeps them so throughout exactly if no delivery undercuts the settings at its turn |
| `Commands.UndercutsMeansRecordLags` | internal/edgestate/configuration_revision.go:10-29 | an older configuration gets through only past a record that is missing, not positive, or no newer than itself |
| `Commands.OrderedDeliveriesNeverRollBack` | internal/httpapi/handlers_cluster.go:1015-1027 | commands delivered in order of their revisions never roll back, however many records are lost |
| `Commands.NewestRetryRestores` | internal/httpapi/handlers_cluster.go:1249-1255 | after a rollback, executing the newest command again puts the settings right |
| `Commands.UnrecordedExecutionCanRollBack` | internal/httpapi/handlers_cluster.go:1249-1255 | a run in which a lost record lets an older command through |
| `Commands.NegativeRevisionCanRollBack` | internal/edgestate/configuration_revision.go:28-28 | a run in which a negative revision follows revision zero |
| `Commands.FinishedNeverExecutesAgain` | internal/edgestate/control.go:131-157 | once a command is finished in a run, its record stays and it never executes again, whatever is delivered |
| `Commands.StoredResultIff` | internal/httpapi/handlers_cluster.go:1006-1261 | a plain success is stored exactly for a confirmed execution, a superseded one exactly for an older configuration, a failure exactly for everything else that is due; what is stored is the answer |
| `Commands.AnswersAreHonest` | internal/httpapi/handlers_cluster.go:1006-1261 | each answer is given exactly under its condition; a success is never claimed without an execution |
| `Commands.StoredResultIsTheAnswer` | internal/edgestate/control.go:131-157 | in every run a stored plain success implies an execution of that id, and every later delivery of the id gets exactly the stored result |
| `Commands.SupersededIff` | internal/edgestate/configuration_revision.go:10-29 | with every record in place, a due command is answered as superseded exactly if a newer configuration of its kind was executed |
| `Commands.ExecutedIsOnRecord` | internal/edgestate/control.go:131-152 | in every run a command is on record before it executes, and one of an unknown kind never executes |
| `Commands.ExecutedAtMostOnce` | internal/httpapi/handlers_cluster.go:1249-1260 | unless the confirmation or the result of an execution is lost, no command executes twice |
| `Commands.Handler.BeginCommand` | internal/edgestate/control.go:131-152 | decides between executing, answering from the record, and retrying |
| `Commands.Handler.ConfigurationSuperseded` | internal/edgestate/configuration_revision.go:10-29 | reports exactly the superseded configuration commands |
| `Commands.Handler.ConfirmConfiguration` | internal/edgestate/configuration_revision.go:31-43 | the recorded revision of the kind becomes the maximum |
| `Commands.Handler.HandleEdgeCommand` | internal/httpapi/handlers_cluster.go:997-1261 | deduplicates, supersedes, executes, records and finishes as specified, with a failure possible at every durable write |
| `Catalog.GreatestCompletedConfigurationRevision` | internal/db/node_control.go:169-189 | the greatest parsed revision, at least zero, ignoring payloads that do not parse |
| `Catalog.Store.CompleteNodeCommand` | internal/db/node_control.go:99-165 | the directory is rewritten exactly by a first success that is neither superseded nor older than any completed command; unknown commands and unreadable payloads change nothing |
| `Catalog.CatalogNeverRollsBack` | internal/db/node_control.go:99-189 | over duplicated, reordered and late results the revisions written never decrease, each belongs to a settings command completed by a plain success, and the last one is the greatest completed revision exactly if a command of that revision was completed by a plain success |
| `Catalog.ReportSettles` | internal/db/node_control.go:99-165 | a success or failure settles an open command, a retry leaves it open, and no other command changes |
| `Catalog.SettledStays` | internal/db/node_control.go:99-115 | in every run a settled command stays as it is, whatever arrives later |
| `Disconnects.Store.DisconnectClientForCommand` | internal/edgestate/disconnect_command.go:13-70 | answers from the marker if there is one; otherwise revocation, reauth and marker happen together or not at all |
| `Disconnects.CommandRevokesOnce` | internal/edgestate/disconnect_command.go:13-70 | in every run, the marker of a command was written by one step, for a registered client, and lists exactly the leases then active for it, which that step revoked and no others; every other execution of the command changes nothing |
| `Disconnects.ReplayRevokesNothing` | internal/edgestate/disconnect_command.go:19-27 | in every run a replay returns the set of the first commit, revokes nothing, and the command has queued one reauth |
| `Events.PositionsAreDistinct` | internal/cluster/server.go:838-854 | sequence*1000+index stays within 64 bits and is injective on accepted batches |
| `Events.Store.RecordNodeEventDurably` | internal/db/node_event_ingest.go:12-47 | success means the event is stored, duplicates succeed without effect, a foreign event at the position is an error |
| `Events.Store.RecordEventBatch` | internal/cluster/server.go:838-874 | exactly the events whose storing succeeded are acknowledged; oversized batches are ignored |
| `Events.AcknowledgeEvents` | internal/edgestate/control.go:56-61 | every id of an acknowledgement becomes marked |
| `Events.AcknowledgedIsStored` | internal/edgestate/control.go:56-64 | over lost, repeated and late batches and acknowledgements, an acknowledged event is stored and each stored DPI event is in the view exactly once |
| `Events.AcknowledgedExactly` | internal/cluster/server.go:838-874 | a batch acknowledges exactly the stored ids that it carries in a readable event whose transaction commits, also when it is repeated |
| `Events.StoredUnlessForeign` | internal/db/node_event_ingest.go:12-47 | a committing transaction is refused only for an unreadable DPI event or a position held by another event, and stores the event under its own kind and position |
| `Events.StoredWasDelivered` | internal/db/node_event_ingest.go:12-47 | in every run each stored event was delivered in an accepted batch, at the position its sequence number and index give, and is filed under its own kind |
| `Events.RefusedIff` | internal/cluster/server.go:838-846 | exactly batches of more than 100 events or with positions outside 64 bits are ignored as a whole |
| `Events.RetrySucceeds` | internal/edgestate/control.go:56-61 | in every state of every run, a readable event whose position is not foreign is acknowledged once its batch commits and the answer arrives |
| `Sni.ParseSNIExtension` | internal/dpiengine/composite.go:304-324 | total on every input; returns the first entry of the list if it is a complete host name |
| `Sni.ParseClientHelloRecord` | internal/dpiengine/composite.go:252-302 | total on every input, never reads out of bounds |
| `Sni.ParseTLSClientHelloSNI` | internal/dpiengine/composite.go:224-250 | terminates on every buffer and returns the name of the first complete record that has one |
| `Sni.PrintedNameIsFound` | internal/dpiengine/composite.go:224-324 | parsing a printed hello gives back its host name |
| `Sni.PrefixHasNoName` | internal/dpiengine/composite.go:236-243 | no proper prefix of a hello yields a name |
| `Sni.NameIsHostEntry` | internal/dpiengine/composite.go:304-324 | an extension yields a name exactly if its first entry is a non-empty, complete host name within the declared list |
| `Sni.FoundNameIsThere` | internal/dpiengine/composite.go:224-250 | a name that is returned was read from a complete handshake record of version 0x0301 or later and at most 16384 bytes |
| `Sni.NamedRecordIsHello` | internal/dpiengine/composite.go:252-266 | only a whole ClientHello yields a name |
| `Sni.FoundBehindNoise` | internal/dpiengine/composite.go:226-235 | bytes that start no record are skipped and the hello behind them is found |
| `Sni.FoundBehindRecord` | internal/dpiengine/composite.go:236-249 | so is a complete record without a name |
| `Sni.Flow.FeedTLSClientHello` | internal/dpiengine/composite.go:205-222 | collects segments up to 8192 bytes and clears the buffer on a hit or an overflow |
| `Sni.SegmentationIsIrrelevant` | internal/dpiengine/composite.go:205-250 | however a hello of at most 8192 bytes is cut, only the last segment returns anything, and it returns the host name |
| `Sni.EveryHelloIsFound` | internal/dpiengine/composite.go:205-222 | hellos one after the other in one flow, each cut in its own way, are all found, each with its last segment |
| `Sni.FoundAfterOverflow` | internal/dpiengine/composite.go:212-215 | after an overflow the next hello is found all the same |
| `Sni.BufferStaysSmall` | internal/dpiengine/composite.go:205-222 | whatever arrives, the buffer stays within 8192 bytes, starts like a record and holds no name that was not returned |
| `NodeFault.Server.ObserveControllerDatabaseHealth` | internal/httpapi/node_fault.go:194-234 | performs the specified observation on timer, flags and clients |
| `NodeFault.Server.TransitionNodeFault` | internal/httpapi/node_fault.go:84-109 | closing marks every known client as draining, opening marks nobody |
| `NodeFault.TenSecondRule` | internal/httpapi/node_fault.go:194-234 | the fault is declared exactly while the last probe ends an unbroken run of failures of at least ten seconds |
| `NodeFault.ShortOutagesDrainNobody` | internal/httpapi/node_fault.go:84-117 | while no outage lasts ten seconds, nobody drains, also with heartbeats and rejected requests in between |
| `NodeFault.DrainStartsOnce` | internal/httpapi/node_fault.go:204-216 | each outage starts the drain once, with the probe that makes it long |
| `NodeFault.ClosedWhileFailing` | internal/httpapi/node_fault.go:194-234 | in every run admission is closed exactly from a failed probe or a rejected request until the next probe that succeeds |
| `NodeFault.DrainingExactly` | internal/httpapi/node_fault.go:39-109 | in every run a client drains exactly if it was known when a fault was declared, or sent a heartbeat during one, and has not logged in without open proxies at an open moment since |

## Left out

- Transport, mutual TLS, certificates, enrolment and FRP TLS identities: a stream is a FIFO queue each way that may break at any time.
- SQL text, drivers, schema migration and JSON: tables are maps, transactions are atomic steps that commit, fail, or commit and report failure; a snapshot's encoding is any function that its decoding inverts.
- The edge's transactions and the storing of events commit or roll back; a commit that is reported as failed is modelled for the controller's outbox only.
- SQL queries behind a push: the methods take the answers to the page and pending-user queries as arguments, with what the queries promise as their precondition.
- Opaque tokens (epochs, lease ids) are numbers or names that never repeat; revision counters are unbounded, so exhausting 64 bits is not modelled.
- Cache protocols 1 and 2 as live protocols: only the full snapshot is kept, as the reference for the paged baseline.
- Progress messages, heartbeats, reconnect delays and timeouts: that the protocol can always finish is proved, how soon it does is not.
- The field of a blacklist row that names who created it is dropped: it is neither compared nor sent on its own.
- Administrative deletion of nodes, log retention, and local edits of settings beside remote commands: these steps discard or override the tracked state on purpose.
- HTTP plumbing, administrator login, the setup wizard, IP discovery, configuration files, telemetry and the web front end.
- The HTTP, QUIC and encrypted-tunnel detectors: single-branch facts or floating-point thresholds.
- SyncTheorems.EdgeNeverRejects: registering a stream is one step. The code stores the epoch and queues its welcome under separate locks (internal/cluster/server.go:497-512), so a full refresh scheduled in between can queue its own welcome first; this window is not modelled. A clash of token ids, grant ids or token hashes between different users is outside the per-user records; `EdgeState.AcceptedIncrementCommits` and `TablePaging.AcceptedPageCommits` show on the tables that none arises while they do not move between users.
- Admission.CountersAreExact: holds for runs in which a lease id belongs to one client for good, as the random ids of the database make it; `Admission.RememberKeepsCountsIff` says exactly what happens otherwise.
- Ports.PortsStayExclusive: the clock never goes back, and requests are exclusive because the bootstrap lock is held from the first check to the creation of the lease.
- Proxies.ValidateEdgeProxies: error texts are not modelled, only acceptance and the normalised request; lower-casing is ASCII, which decides the same protocol names.
- Catalog.Store.CompleteNodeCommand: a payload either parses as a whole or not at all.
- NodeFault.DrainingExactly: clients that are forgotten after long silence are not modelled.
- Commands.Handler.HandleEdgeCommand: what a command does besides replacing the settings of its kind is not modelled.
