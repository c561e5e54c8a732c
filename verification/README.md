# Verified model of the browser plugin's protocols and state machines

This project models, in Dafny, the parts of the browser plugin whose correctness is hardest to see
in any one function, and proves what they promise for every input, run or reachable state.

- **Session CDP proxy** (`ProxyModel`, `ProxyWorld`, `ProxySocket`, and the proofs in `ProxyHolds`,
  `ProxyCounting`, `ProxyForest`, `ProxyForestRuns`, `ProxyDroppedTrees`, `ProxyTrees`,
  `ProxyProvenance`, `ProxyReceived`, `ProxyLineage`, and, for the foresight theorem,
  `ProxyForesight`, `ProxyReplay`, `ProxyWorldSim`, `ProxyWorldSteps` and `ProxyForesightRuns`):
  several client sockets share one ownership of Chromium's targets.
  Each handler is one atomic step. The two classes are proved, method by method, to do what the
  functions of `ProxyModel` and `ProxyWorld` say, and the theorems are about runs of those.
- **Activity delivery** (`ActivityRecords`, `ActivityCounts`, `ActivityRecordStore`,
  `ActivityOutbox`, `ActivitySync`, `ActivityDelivery`, `ActivityRuns`, `ActivityLongLists`,
  `ActivitySyncLoop`): a host outbox, the plugin's tables and the synchronization between them. Every
  transport call can fail before or after its effect, and other operations happen between any two
  steps.
- **Grants and requests** (`OriginScopes`, `GrantLog`, `GrantModel`, `GrantAgreement`, `GrantRuns`,
  `GrantStore`): the append-only request log, the grant table, tombstones, default access and
  auto-approval as one database.
- **Input pacer** (`InputPacer`, `InputPacerClass`), **control leases** (`ControlLeases`,
  `LeaseSteps`, `LeaseRuns`, `LeaseManager`, `Keys`), **download quarantine** (`DownloadNames`,
  `Downloads`, `DownloadAgreement`, `DownloadsManager`), **path containment** (`PathCollapse`),
  **process counting** (`ProcessTree`), **base32 seeds** (`Base32`) and the **tab strip**
  (`BrowserTabs`, `BrowserTabStrip`). `Wrappers`, `Strings` and `Numbers` hold what several parts use.

In each part a specification on values comes first, then the lemmas about its runs, then the class
whose fields change as the source's do and whose methods are proved equal to the specification.
Times are integers or reals in milliseconds. Clocks, random ids and outcomes of I/O are parameters.

## What the code does not do

Some promises of the comments and the documentation do not hold of the code as it is. Each is stated
as a lemma with the input that shows it, and the exact condition beside it.

- A held page loses its announcement when the browser-level session it was attached through is
  detached before the creation finishes (`ProxyReplay.DetachedViaLosesHeldPage`). Settling delivers
  a hold entry if and only if it is orderly and every browser-level session its messages came on is
  still attached (`ProxyReplay.DeliveredExactlyWhenOrderly`).
- Traffic of sessions nested in a held page is dropped (`ProxyReplay.NestedSessionOfHeldPageIsLost`),
  and so is the announcement of a download it begins (`ProxyReplay.DownloadOfHeldPageIsLost`). Each
  message of the page that is not held changes nothing, and is lost exactly when a session that
  foresees would not swallow it (`ProxyForesightRuns.UnheldTrafficIsDropped`); a whole run ends as
  with foresight exactly when nothing was lost
  (`ProxyForesightRuns.ForesightExactlyWhenNothingIsLost`).
- An activity event can be recorded twice when pruning deletes its row before the acknowledgement
  reaches the host (`ActivityRuns.PrunedEventIsRecordedAgain`); it happens exactly to pruned events.
- A host of which the plugin knows more than 10000 event ids, which two full streams of one host
  reach, has every sync refused at its first call, and nothing leaves its outbox as long as that is so
  (`ActivityLongLists`).
- Two streams whose cache keys are equal, which host ids with a NUL character can have, put one of
  them over the limit; the count cache is safe exactly for streams with different keys
  (`ActivityCounts.CacheIsSafeExactlyForDifferentKeys`).
- A chunk whose write fails part way, and whose file then cannot be removed, leaves a record with a
  longer file, and no other append does (`DownloadAgreement.AppendBreaksLengthsExactlyWhenTorn`). A
  start under a download id in use breaks the name index
  (`DownloadAgreement.StartAgreesExactlyForANewId`). A disposal forgets the record of a file whose
  removal fails and leaves the file (`DownloadAgreement.DisposalLeavesWhatIsStuck`).
- An environment root of `/` accepts no target but the root itself
  (`PathCollapse.SlashRootAcceptsOnlyTheTop`).
- An input pacer with more input pending than its cap, which takes a cap of one, never sends it from
  its timer (`InputPacer.StuckExactlyWhenTooMuchIsPending`).
- The lease manager itself does not keep agents off the owner's lane: a call that names it while the
  owner holds it waits on after the owner's release (`LeaseRuns.OwnersLaneLosesWakeUps`), and no other
  call does (`LeaseRuns.NoLostWakeUp`). The lanes of agents' sessions never are the owner's, so their
  calls lose no wake-up (`LeaseRuns.SessionsLoseNoWakeUp`).
- A tab cap of one drops a newly opened tab (`BrowserTabs.OpenedTabIsActive`). An inventory that names a
  page more than once can leave it in the strip twice, or without its tab: exactly when it names the
  active page again, or one that is left after the trim (`BrowserTabs.SyncAgreesExactly`).

## Model

| member | source | states |
|---|---|---|
| `ProxyForesightRuns.HoldAndReplayIsForesight` | src/browser/session-cdp-proxy.ts:428-444 | in every run, from any point at which a creation is pending and the page unseen, while commands, replies, other messages, traffic of the page that is not held, downloads, opened and closed connections, grants and other creations go on, until the reply that makes the page owned: outside the page the session ends as if the page had been owned all along, every client told the same in the same order; unless a message of the page was lost, so does the page's part, and a connection closed meanwhile costs at most children of its own hold entry |
| `ProxyForesightRuns.ForesightExactlyWhenNothingIsLost` | src/browser/session-cdp-proxy.ts:428-444 | while connections stay open the run ends as with foresight if and only if no message of the page was lost, given that a lost message is not also held |
| `ProxyForesightRuns.LostIsMissing` | src/browser/session-cdp-proxy.ts:632-661 | each message lost in the run reached the client of the foreseeing session more often at the end |
| `ProxyWorldSteps.StepSim` | src/browser/session-cdp-proxy.ts:331-354 | every such step, settlings by other creations included, keeps the holding session and the foreseeing one in step on all connections |
| `ProxyReplay.DeliveredExactlyWhenOrderly` | src/browser/session-cdp-proxy.ts:632-661 | for every hold entry of an owned page, whatever else the connection holds, settling tells the client each held message once and in arrival order if and only if each one's session was attached, and not detached, by the messages before it, and every browser-level session they came on is still attached |
| `ProxyReplay.DetachedViaLosesHeldPage` | src/browser/session-cdp-proxy.ts:428-444 | a page held on a browser-level session that is detached in the meantime is never announced, unlike with foresight |
| `ProxyReplay.NestedSessionOfHeldPageIsLost` | src/browser/session-cdp-proxy.ts:632-661 | traffic of a session nested in a held page is dropped, unlike with foresight |
| `ProxyReplay.DownloadOfHeldPageIsLost` | src/browser/session-cdp-proxy.ts:686-700 | a download that a held page begins is neither announced nor held, unlike with foresight |
| `ProxyForesightRuns.UnheldTrafficIsDropped` | src/browser/session-cdp-proxy.ts:632-661 | at every point of every run on which a page is held, however much was lost before: a message of the page is appended to its hold entry, or changes nothing and the foreseeing session forwards it exactly when it does not swallow it |
| `ProxyReplay.IgnoredExactlyWhenNotHeld` | src/browser/session-cdp-proxy.ts:632-727 | a message of a held page is ignored if and only if it is neither routed to the hold entry nor about an owned opener or a known frame or download |
| `ProxyForesight.AboutPage` | src/browser/session-cdp-proxy.ts:730-758 | a message about a known page changes only that page's part of the connection, whatever the rest is |
| `ProxyForesight.AboutTheRest` | src/browser/session-cdp-proxy.ts:760-843 | a message about anything else changes only the rest, whatever the page's part is |
| `ProxyCounting.PendingIsInFlight` | src/browser/session-cdp-proxy.ts:333-354 | in every reachable world the pending count is the Target.createTarget commands in flight over open connections plus the /json/new calls in flight, and at zero nothing is held |
| `ProxyCounting.ClampNeverActs` | src/browser/session-cdp-proxy.ts:351 | wherever a creation ends in a reachable world the count is positive, so the clamp at zero is never needed, and a close returns exactly its share |
| `ProxyCounting.CloseReturnsItsShare` | src/browser/session-cdp-proxy.ts:393-409 | closing a connection lowers the count by the creations it still had in flight |
| `ProxyForestRuns.SessionForest` | src/browser/session-cdp-proxy.ts:729-754 | with fresh session ids every owned session's parent is the browser socket, a live browser session or an owned session, its chain of parents ends, and no session is its own ancestor |
| `ProxyDroppedTrees.DroppedTreeStaysUnreachable` | src/browser/session-cdp-proxy.ts:845-850 | after a detach, handled at once or replayed from a hold entry by any settling, every later client command on any session of the dropped tree is refused, and nothing else in the world changes |
| `ProxyForestRuns.DeadStaysDead` | src/browser/session-cdp-proxy.ts:600-608 | a session id no open connection knows any more, held messages included, is never known again |
| `ProxyTrees.ChildrenMakeTheTree` | src/browser/session-cdp-proxy.ts:845-850 | removing a session and the tree of each of its children removes exactly the session and its descendants |
| `ProxyTrees.OneMore` | src/browser/session-cdp-proxy.ts:847-849 | dropping one more child's tree from what earlier children left is dropping it from the start |
| `ProxyLineage.OwnershipHasProvenance` | src/browser/session-cdp-proxy.ts:318-354 | in every run one log explains the ownership, each entry evident in the run: initial, granted by that step, created by the reply of that step, the head of the tabs remembered at that step which an earlier message announced as a tab; or judged by a connection at that step in a message that names an opener acquired before, or that came on a session announced to it for a target acquired before; each grant, creation and adoption has exactly its own entry, and each owned target a lineage down to such a root |
| `ProxyLineage.ClientsAreConfined` | src/browser/session-cdp-proxy.ts:588-624 | in every run, replays of held messages included, whatever a client was told on the browser level about a target, and every command sent for it that names one, is about a target with such an acquisition, on a session that was announced to it |
| `ProxyReceived.RunSees` | src/browser/session-cdp-proxy.ts:338-342 | in every run each remembered tab was announced as a tab by a message received before |
| `ProxyReceived.RunHeld` | src/browser/session-cdp-proxy.ts:712-727 | in every run each held message was received on the connection that holds it |
| `ProxyProvenance.OnlyOwnedTargetsAreForwarded` | src/browser/session-cdp-proxy.ts:760-843 | a browser-level Target event reaches the client only when its target is owned at that moment, the browser target itself apart, and a message is forwarded at most once |
| `ProxyProvenance.CommandsReachOnlyOwned` | src/browser/session-cdp-proxy.ts:588-624 | a client command either is refused with one answer and changes nothing else, or exactly that command goes upstream, on a session of the client and naming only owned targets |
| `ProxySocket.SessionOwnership.constructor` | src/browser/session-cdp-proxy.ts:937-939 | a session starts owning exactly the initial targets, with no connection |
| `ProxySocket.SessionOwnership.Claims` | src/browser/session-cdp-proxy.ts:319-326 | owned targets and pages opened by owned ones are claimed, the latter added |
| `ProxySocket.SessionOwnership.NoteTabDuringCreation` | src/browser/session-cdp-proxy.ts:338-342 | an unclaimed tab is remembered once, only while a creation is pending |
| `ProxySocket.SessionOwnership.CreationFinished` | src/browser/session-cdp-proxy.ts:344-354 | the creation is credited with the oldest remembered tab and every connection, over the shared ownership, settles in turn |
| `ProxySocket.SessionOwnership.GrantTarget` | src/browser/session-cdp-proxy.ts:1115-1121 | a new grant is owned and every auto-attaching connection attaches to it |
| `ProxySocket.ProxyConnection.constructor` | src/browser/session-cdp-proxy.ts:379-391 | a new connection joins the ownership with nothing owned, held or in flight |
| `ProxySocket.ProxyConnection.ReleaseForeign` | src/browser/session-cdp-proxy.ts:483-487 | a foreign session is resumed, then detached through the session it came on |
| `ProxySocket.ProxyConnection.Hold` | src/browser/session-cdp-proxy.ts:712-727 | a target's messages and sessions are kept in arrival order |
| `ProxySocket.ProxyConnection.DropSessionTree` | src/browser/session-cdp-proxy.ts:845-850 | the recursive deletion ends, also on cyclic parents, and leaves exactly the sessions that are not the root or under it |
| `ProxySocket.ProxyConnection.OnPageTargetEvent` | src/browser/session-cdp-proxy.ts:730-758 | child sessions are attached under the page and dropped with their trees |
| `ProxySocket.ProxyConnection.OnTargetEvent` | src/browser/session-cdp-proxy.ts:760-843 | browser-level Target events are forwarded, held, released or dropped as the specification function says |
| `ProxySocket.ProxyConnection.OnBrowserLevelEvent` | src/browser/session-cdp-proxy.ts:673-708 | downloads are forwarded only for owned frames and until they end |
| `ProxySocket.ProxyConnection.OnUpstreamMessage` | src/browser/session-cdp-proxy.ts:632-661 | one upstream message, routed by its session |
| `ProxySocket.ProxyConnection.SettleHeld` | src/browser/session-cdp-proxy.ts:428-444 | held targets judged again one by one, replaying or releasing each |
| `ProxySocket.ProxyConnection.OnDownstream` | src/browser/session-cdp-proxy.ts:588-624 | a client command is refused or relayed, counting a creation before it is sent |
| `ProxySocket.ProxyConnection.OnResponse` | src/browser/session-cdp-proxy.ts:852-881 | a reply is taken once, credits its creation before it is answered, and target lists are filtered by ownership |
| `ProxySocket.ProxyConnection.Close` | src/browser/session-cdp-proxy.ts:393-409 | a closed connection leaves the ownership and gives up each creation it had in flight |
| `ActivityCounts.CacheRefinesCounting` | src/activity/activity-records.ts:528-547 | over any streams with different cache keys, from any tables and an empty cache, any sequence of operations leaves exactly the tables it would leave if every append counted afresh and ran the overflow delete; every cached count is an upper bound |
| `ActivityCounts.TouchedStreamsStayBounded` | src/activity/activity-records.ts:438-453 | over such streams, no stream an operation has touched is ever over 10000 rows again |
| `ActivityCounts.SharedKeysBreakTheBound` | src/activity/activity-records.ts:357-359 | any two different streams with one cache key have a run from empty tables that leaves one of them at 10001 rows, where counting afresh does not |
| `ActivityCounts.CacheIsSafeExactlyForDifferentKeys` | src/activity/activity-records.ts:357-359 | the cached counts leave the tables of fresh counting in all runs over a set of streams if and only if no two of them share a key |
| `ActivityCounts.NulFreeHostsAreApart` | src/activity/activity-records.ts:357-359 | streams of hosts whose ids have no NUL have different keys, and some others share one |
| `ActivityRecords.OverflowKeepsNewest` | src/activity/activity-records.ts:420-436 | the overflow delete keeps exactly the newest rows of the stream up to the limit and touches no other stream |
| `ActivityRecords.OverflowOfEach` | src/activity/activity-records.ts:401-418 | the delete over all streams does to each what the delete of one stream does |
| `ActivityRecords.BoundIsEnough` | src/activity/activity-records.ts:449-452 | an upper bound of the count decides the delete as well as the count itself |
| `ActivityRecordStore.RecordStore.AppendEvent` | src/activity/activity-records.ts:513-526 | an event is inserted, accepted again if identical, refused if different |
| `ActivityRecordStore.RecordStore.Append` | src/activity/activity-records.ts:528-547 | an append that trusts the cached count leaves the rows of one that counts, and answers with a conflict exactly for a recorded id with other content |
| `ActivityRecordStore.RecordStore.AppendBatch` | src/activity/activity-records.ts:567-570 | a batch is appended whole or, on a conflict, not at all |
| `ActivityRecordStore.RecordStore.Ingest` | src/activity/activity-records.ts:560-577 | a batch commits with all its ids returned in order, or rolls back, and pruning and a cleared cache follow a commit |
| `ActivityRecordStore.RecordStore.List` | src/activity/activity-records.ts:579-611 | exactly the stream's rows still retained, at most the limit, ordered by time and then by insertion |
| `ActivityRecordStore.RecordStore.Export` | src/activity/activity-records.ts:646-659 | the export records itself, prunes and returns the stream's rows in order |
| `ActivityRecordStore.RecordStore.Clear` | src/activity/activity-records.ts:661-685 | a cleared stream is empty and every cleared id has a tombstone |
| `ActivityRecordStore.RecordStore.AcknowledgeClearedEvents` | src/activity/activity-records.ts:687-700 | only that host's acknowledged tombstones go |
| `ActivityOutbox.ClaimTakesTheEarliest` | src/activity/activity-outbox.ts:142-156 | a claim picks as many of the earliest due items as the limit allows, in order, each once |
| `ActivityOutbox.ClaimsDoNotRepeat` | src/activity/activity-outbox.ts:234-251 | a claimed item is not claimed again within a second |
| `ActivityOutbox.RetryDelayShape` | src/activity/activity-outbox.ts:135-140 | delays double from one second and are an hour exactly from the 13th attempt on |
| `ActivityOutbox.RemainingShrinks` | src/activity/activity-outbox.ts:158-166 | acknowledging removes something exactly when a named event is there |
| `ActivityOutbox.Outbox.Enqueue` | src/activity/activity-outbox.ts:210-225 | new events are appended, identical ones ignored, conflicting ones and a full outbox refused |
| `ActivityOutbox.Outbox.Claim` | src/activity/activity-outbox.ts:253-267 | claimed items are renewed in place and returned in due order |
| `ActivityOutbox.Outbox.Acknowledge` | src/activity/activity-outbox.ts:276-288 | exactly the acknowledged events go; a list over 10000 ids is refused |
| `ActivityOutbox.Outbox.Reconcile` | src/activity/activity-outbox.ts:294-309 | as acknowledging, returning the first remaining items |
| `ActivityDelivery.StepKeeps` | src/activity/activity-sync.ts:141-186 | every step of either side, each call lost before or after its effect, keeps outbox, tables and history in agreement |
| `ActivityDelivery.IngestIsNeverRefused` | src/activity/activity-sync.ts:107-126 | a fetched batch never meets a recorded, cleared or tombstoned event, so its transaction never conflicts |
| `ActivityRuns.NothingIsLost` | src/activity/activity-sync.ts:141-170 | in every reachable state an enqueued event is in the outbox or was recorded, and a recorded one is in the tables as enqueued unless cleared or pruned |
| `ActivityRuns.NothingLeavesBeforeItIsRecorded` | src/activity/activity-sync.ts:141-170 | no step removes an event from the outbox before its ingest committed |
| `ActivityRuns.ClearedNeverReappears` | src/activity/activity-records.ts:661-685 | an event removed by clear is never in the tables again, in any continuation |
| `ActivityRuns.ClearingClears` | src/activity/activity-records.ts:661-685 | the events counted as cleared are this host's rows of the cleared stream |
| `ActivityRuns.RecordedAgainExactlyWhenPruned` | src/activity/activity-records.ts:560-577 | an ingested event had been recorded before if and only if pruning had deleted its row |
| `ActivityRuns.RecordedOnce` | src/activity/activity-sync.ts:172-186 | in every run the events recorded twice are exactly those that a committed batch carried after pruning had deleted their rows |
| `ActivityRuns.NothingPrunedIsCarried` | src/activity/activity-sync.ts:172-186 | while no row is pruned before its event leaves the outbox, no committed batch carries a pruned event in any run |
| `ActivityRuns.PrunedEventIsRecordedAgain` | src/activity/activity-sync.ts:172-186 | at most once fails in general: a concrete run records one event twice after a lost acknowledgement and a prune |
| `ActivityRuns.PrunedEventCanReturn` | src/activity/activity-records.ts:438-453 | a recent enough pruned event that is fetched again is shown again when the tables have room |
| `ActivityLongLists.LongListsStallTheHost` | src/activity/activity-sync.ts:67-83 | over every path whose syncs begin while the plugin knows more than 10000 of the host's ids, nothing leaves the host's outbox and nothing more of it is recorded, however often syncs are tried |
| `ActivityLongLists.LongListsAreReachable` | src/activity/activity-outbox.ts:276-288 | for every host a run leads to such a world: 10001 known ids in two streams, neither over its limit, and an event waiting |
| `ActivityRuns.SyncEndsWhenNothingIsDue` | src/activity/activity-sync.ts:155-162 | a delivered fetch ends the sync exactly when no item is due |
| `ActivityRuns.StepsLowerTheMeasure` | src/activity/activity-sync.ts:172-186 | every sync step lowers a measure led by the outbox size, other use of the store leaves it |
| `ActivityRuns.SyncTerminates` | src/activity/activity-sync.ts:172-186 | a sync takes at most seven steps per outbox event and six more while nothing is enqueued |
| `ActivitySyncLoop.SyncBatch` | src/activity/activity-sync.ts:141-170 | one round is a path of the protocol and shortens the outbox when it accepted anything |
| `ActivitySyncLoop.SyncConnected` | src/activity/activity-sync.ts:172-186 | the loop over the real outbox and store ends, is a path of the protocol, and when it completes nothing is due |
| `GrantRuns.RequestsAndGrantsAgree` | src/access/authorization.ts:913-946 | after every operation a linked request is approved exactly when its grant is unrevoked, and no other request is linked to it |
| `GrantRuns.DeletedProjectsHaveNoGrants` | src/access/authorization.ts:1187-1217 | a stored project's generation is odd exactly when it is deleted, and then all its grants are revoked |
| `GrantRuns.HistoriesFollowTheAutomaton` | src/access/grant-requests.ts:299-330 | every request history is one of the eleven words of the automaton |
| `GrantLog.HistoriesAreWords` | src/access/grant-requests.ts:342-377 | in a legal log histories are those words and end in the current event |
| `GrantLog.ExpireAllEffect` | src/access/grant-requests.ts:541-566 | the expiry loop appends exactly one expiry to each request that is due and nothing else |
| `GrantLog.LatestRowsAreCurrent` | src/access/grant-requests.ts:240-258 | the latest rows are one per request, the current ones |
| `GrantRuns.TemporaryApprovalsAreLimited` | src/access/grant-requests.ts:684-732 | a temporary approval authorizes only what was asked, only while it is the latest event, before approval plus 5 or 60 minutes, and a retry is consumed by it |
| `GrantRuns.RetriesAreSpentOnce` | src/access/grant-requests.ts:703-718 | in any run at most one allowed authorization spends a given retry approval |
| `GrantRuns.ClosedRequestsNeverAuthorize` | src/access/grant-requests.ts:684-732 | once denied, consumed, expired or revoked, a request never authorizes again, whatever the clock says |
| `GrantRuns.LogGrows` | src/access/grant-requests.ts:54-64 | no operation changes or removes an event |
| `GrantRuns.DeletionClosesEverything` | src/access/grant-requests.ts:1060-1108 | deleting a stored project revokes all its grants and leaves none of its requests open |
| `GrantRuns.DeletedProjectsGetNoGrant` | src/access/authorization.ts:1000-1031 | a deleted project is never authorized by a grant and is given none |
| `GrantRuns.WithdrawalLasts` | src/access/authorization.ts:740-775 | a withdrawal ends only when a whole-web grant is created for the binding |
| `GrantRuns.RevokedDefaultIsNotGivenBack` | src/access/authorization.ts:932-938 | after the owner revokes a whole-web grant, no authorization of that binding creates a grant in any continuation in which nobody creates one for the whole web |
| `GrantRuns.AutoApprovedIsAllowed` | src/access/authorization.ts:1106-1119 | an auto-approved origin is always authorized by its own grant |
| `GrantAgreement.StepKeeps` | src/access/authorization.ts:1258-1311 | every store operation keeps the log legal, requests and grants agreed, and tombstones respected |
| `GrantStore.Store.ExpireRowsAt` | src/access/grant-requests.ts:541-566 | each due row gets one expiry event |
| `GrantStore.Store.InsertGrant` | src/access/authorization.ts:695-714 | a confirmed, in-scope grant with a new id for an undeleted project is stored and restores default access when whole-web |
| `GrantStore.Store.Revoke` | src/access/authorization.ts:913-946 | a grant is revoked once, with its linked request |
| `GrantStore.Store.PersistApproval` | src/access/grant-requests.ts:834-868 | the grant and the linking event are stored together or not at all |
| `GrantStore.Store.DecideRequest` | src/access/grant-requests.ts:902-994 | only an open request is decided; a failed decision leaves no trace |
| `GrantStore.Store.RevokeRequest` | src/access/grant-requests.ts:996-1040 | an open request is closed with its grant; a closed one is left |
| `GrantStore.Store.RevokeMatching` | src/access/grant-requests.ts:1060-1108 | every open request of a project or profile is closed with its grant |
| `GrantStore.Store.ProjectDeleted` | src/access/authorization.ts:1297-1301 | tombstone, grants and requests together |
| `GrantStore.Store.ProjectCreated` | src/access/authorization.ts:1168-1185 | a project gets its row, or the next even generation |
| `GrantStore.Store.AuthorizeByRequest` | src/access/grant-requests.ts:669-735 | a usable approval is used, or a new request is appended |
| `GrantStore.Store.Authorize` | src/access/authorization.ts:1088-1129 | stored grants, default access, auto-approval, temporary approvals and new requests in that order |
| `OriginScopes.CompareIsATotalPreorder` | src/access/authorization.ts:815-831 | the breadth comparison is reflexive, antisymmetric in sign, total and transitive |
| `OriginScopes.BreadthIsInclusion` | src/access/authorization.ts:811-831 | for storable scopes of any kind that match one origin, at least as broad means permitting every canonical origin the other permits, in both directions |
| `OriginScopes.DnsNamesAreNotLocal` | src/shared/contracts.ts:903-916 | a name below a base the scope schema accepts is never a loopback name, so a wildcard permits nothing that whole-web access refuses |
| `OriginScopes.AuthorizesTheBroadest` | src/access/authorization.ts:853-875 | allowed exactly when some grant covers the request; then a broadest one, the first stored among equals; each denial says what was missing |
| `OriginScopes.MoreGrantsNeverDeny` | src/access/authorization.ts:833-851 | adding grants never denies what was allowed and never narrows the grant used |
| `InputPacer.DelayIsLeast` | src/app/panel-input.ts:69-77 | the computed delay is the least after which the pending input meets both the 25 ms spacing and the one-second cap |
| `InputPacer.PacedFlushFits` | src/app/panel-input.ts:79-91 | a paced flush happens only when it fits and leaves at most the cap in the window, then and until something else is sent |
| `InputPacer.WheelIsConserved` | src/app/panel-input.ts:104-123 | each event changes sent plus pending wheel deltas by exactly what it carried |
| `InputPacer.RunsKeep` | src/app/panel-input.ts:79-143 | in every run a timer is set exactly while input is pending, and deltas sent plus pending are the deltas received |
| `InputPacer.StuckExactlyWhenTooMuchIsPending` | src/app/panel-input.ts:70-91 | no firing of the timer ever sends anything, however late, if and only if more input is pending than the cap |
| `InputPacer.MemoryIsEnough` | src/app/panel-input.ts:71-72 | forgotten sends never count in a later window |
| `InputPacerClass.PanelPacer.DelayUntilRoom` | src/app/panel-input.ts:70-77 | old sends are forgotten and the delay computed, or there is none when the pending input exceeds the cap |
| `InputPacerClass.PanelPacer.Schedule` | src/app/panel-input.ts:79-91 | a flush now or a timer |
| `InputPacerClass.PanelPacer.WheelBy` | src/app/panel-input.ts:104-123 | deltas are added, or flushed first when a modifier changed |
| `InputPacerClass.PanelPacer.Button` | src/app/panel-input.ts:125-130 | pending input goes first |
| `InputPacerClass.PanelPacer.Fire` | src/app/panel-input.ts:87-90 | a due timer tries again |
| `InputPacerClass.PanelPacer.Dispose` | src/app/panel-input.ts:139-142 | pending input is flushed and no timer is left |
| `LeaseRuns.OneLeasePerLane` | src/browser/control-lease.ts:244-284 | a lane never has two unreleased leases, expired and revoked ones included |
| `LeaseRuns.NoLostWakeUp` | src/browser/control-lease.ts:157-166 | in every run, agents on any lane: while a call waits for a lane an agent holds it unreleased, unless an agent's call named the owner's lane while the owner held it |
| `LeaseRuns.ReleaseWakesTheFirst` | src/browser/control-lease.ts:144-166 | an agent's release grants the lane at once to the first waiting call; an owner's release answers nobody |
| `LeaseRuns.WaitsOrIsAnswered` | src/browser/control-lease.ts:126-142 | every call that queued either still waits on its own lane or has its answer |
| `LeaseRuns.AnswersAreFinal` | src/browser/control-lease.ts:168-204 | an answer is never given twice or taken back, in any run |
| `LeaseRuns.GrantsFollowArrival` | src/browser/control-lease.ts:157-166 | calls granted one lane are granted in arrival order |
| `LeaseRuns.ReleaseIsPrivate` | src/browser/control-lease.ts:144-155 | a release touches no other lease and a second one does nothing |
| `LeaseRuns.RevokeStaysInTheProfile` | src/browser/control-lease.ts:308-313 | revoking a profile empties its queues and aborts its leases, which stay held, and touches no other profile's lanes |
| `LeaseRuns.RevokeAgentsSparesTheOwner` | src/browser/control-lease.ts:315-322 | revoking agents leaves the owner's lane alone |
| `LeaseRuns.DisposalEndsEverything` | src/browser/control-lease.ts:337-346 | after disposal nothing is held, nobody waits and every lease is released |
| `LeaseRuns.OwnersLaneLosesWakeUps` | src/browser/control-lease.ts:154 | wherever the owner holds its lane, an agent's call that names it waits on after the owner's release, with the lane free |
| `LeaseRuns.SessionsLoseNoWakeUp` | src/host/host.ts:1949-1963 | agents' sessions name their tab's or their thread's lane, never the owner's, so in their runs a waiting call always waits for an agent |
| `ControlLeases.LanesAreSeparate` | src/browser/control-lease.ts:37-43 | with NUL-free ids a lane key belongs to exactly one profile, host and lane |
| `LeaseRuns.ReleaseFreesItsLane` | src/browser/control-lease.ts:144-155 | in a reachable state an unreleased lease is the one its lane is held by, and releasing it frees that lane alone, or hands it at once to a new lease if an agent released it and a call waits |
| `LeaseSteps.StepKeeps` | src/browser/control-lease.ts:121-346 | every step keeps lanes, queues and answers in agreement |
| `LeaseManager.Manager.Release` | src/browser/control-lease.ts:144-155 | release and grant of the next call |
| `LeaseManager.Manager.AcquireAgent` | src/browser/control-lease.ts:244-261 | the lane, a place in its queue, or a refusal, on every lane, the owner's included, and the agreement is kept |
| `LeaseManager.Manager.AcquireOwner` | src/browser/control-lease.ts:263-284 | one try of the owner's waiting loop |
| `LeaseManager.Manager.GiveUp` | src/browser/control-lease.ts:168-204 | a timed-out or cancelled call leaves the queue with its answer |
| `LeaseManager.Manager.Revoke` | src/browser/control-lease.ts:303-335 | each lane in scope revoked once |
| `LeaseManager.Manager.Dispose` | src/browser/control-lease.ts:337-346 | each lane emptied, aborted and released |
| `DownloadAgreement.QuarantineAgrees` | src/host/host-downloads.ts:337-967 | in every run, disposals included, the files are those of the live records and the ones left there otherwise, each live file has its record's length unless an append tore it, the index inverts the records, and no other file changes |
| `DownloadAgreement.StepKeeps` | src/host/host-downloads.ts:462-620 | every operation keeps that agreement, with any file removal failing |
| `DownloadAgreement.AppendBreaksLengthsExactlyWhenTorn` | src/host/host-downloads.ts:518-533 | after an append a live file differs from its record's length if and only if the write broke, some bytes got through and the file could not be removed |
| `DownloadAgreement.TornAppend` | src/host/host-downloads.ts:518-533 | an input that tears a file: one of two bytes is written and the removal fails |
| `DownloadAgreement.LengthsAgreeUntilTorn` | src/host/host-downloads.ts:462-541 | in every run in which no append tears, each live file has exactly its record's length, for failed, cancelled and expired records too |
| `DownloadAgreement.TornFilesAreNotExported` | src/host/host-downloads.ts:696-740 | in every run a file that an append tore is longer than its record says and is never exported |
| `DownloadAgreement.StartAgreesExactlyForANewId` | src/host/host-downloads.ts:396-435 | a successful start keeps index and records inverse if and only if its id is new |
| `DownloadAgreement.DisposalLeavesWhatIsStuck` | src/host/host-downloads.ts:958-967 | disposal forgets every record and leaves exactly the earlier files and the live files that could not be removed |
| `DownloadAgreement.AppendsRespectTheLimits` | src/host/host-downloads.ts:489-541 | an accepted append stores exactly its bytes and respects both limits in force; a refusal for size or quota means one would have been broken, and ends the download |
| `DownloadAgreement.StartNeverOverwrites` | src/host/host-downloads.ts:377-435 | a started download gets a new empty file under the first free name |
| `DownloadAgreement.FreeNameIsFirst` | src/host/host-downloads.ts:380-395 | the name loop finds the first free of the suggested name and its 999 variants, or none is free |
| `DownloadAgreement.ExpiryRemovesTheDue` | src/host/host-downloads.ts:910-924 | when removals succeed exactly the due records go, those that failed or were cancelled apart |
| `DownloadAgreement.LimitsStayBounded` | src/host/host-downloads.ts:660-688 | limits between one byte and the ceilings stay there in every run, whatever is configured |
| `DownloadNames.NormalizeIsSafe` | src/host/host-downloads.ts:168-200 | any suggested name becomes a non-empty plain segment of at most 240 characters without leading dot or space |
| `DownloadNames.KeysAndPathsAreDistinct` | src/host/host-downloads.ts:293-299 | for plain names index keys and paths are equal only for the same profile and name |
| `DownloadsManager.Manager.Start` | src/host/host-downloads.ts:337-436 | one start, every check in order, also under an id in use |
| `DownloadsManager.Manager.Append` | src/host/host-downloads.ts:462-541 | one chunk, accepted or ending the download |
| `DownloadsManager.Manager.Complete` | src/host/host-downloads.ts:547-569 | only a running download completes |
| `DownloadsManager.Manager.Stop` | src/host/host-downloads.ts:578-620 | failing and cancelling remove the exact file |
| `DownloadsManager.Manager.Expire` | src/host/host-downloads.ts:910-924 | due records in order until a removal fails |
| `DownloadsManager.Manager.Purge` | src/host/host-downloads.ts:932-951 | a profile's records, or all |
| `DownloadsManager.Manager.Dispose` | src/host/host-downloads.ts:958-967 | everything forgotten, only stuck files left |
| `DownloadsManager.Manager.ChooseName` | src/host/host-downloads.ts:380-395 | the name loop |
| `DownloadsManager.Manager.ProfileTotal` | src/host/host-downloads.ts:278-291 | the profile's counted bytes |
| `PathCollapse.CollapseIsExact` | src/host/host-downloads.ts:148-166 | under a canonical root other than / a relative path is refused exactly when a prefix climbs above the root, and otherwise becomes a dot-free path under it naming the same node |
| `PathCollapse.Collapse` | src/host/host-downloads.ts:152-166 | the loop over the stack computes it |
| `PathCollapse.SlashRootAcceptsOnlyTheTop` | src/host/host-downloads.ts:143-166 | with / as the root a relative path is refused if and only if it climbs or names a node other than the top, so only the root itself is ever accepted |
| `ProcessTree.ProcessDescendants` | src/browser/browser-process.ts:539-558 | the walk finds exactly the processes reachable from the browser's through parent links |
| `ProcessTree.RendererCountFromSubtree` | src/browser/browser-process.ts:619-647 | the pruned walk counts the renderers reachable without passing through another |
| `ProcessTree.RendererProcessCount` | src/browser/browser-process.ts:649-670 | filtering the full walk counts all renderers below the browser |
| `ProcessTree.PrunedCountIsFullCount` | src/browser/browser-process.ts:613-647 | the pruned count is at most the full one, and equal when renderers have no children |
| `ProcessTree.PrunedMissesNestedRenderers` | src/browser/browser-process.ts:613-647 | over distinct processes the counts are equal if and only if no renderer below the browser has another renderer below it |
| `Base32.DecodeUndoesEncode` | src/browser/secret-refs.ts:266-283 | decoding undoes section 6 of RFC 4648 for every byte string, in either letter case, with white space, hyphens or padding anywhere |
| `Base32.Base32Bytes` | src/browser/secret-refs.ts:266-283 | the loop with its unmasked, wrapping, signed accumulator yields the whole bytes of the bit string, or an error for a character outside the alphabet |
| `Base32.TopByteIgnoresTheWrap` | src/browser/secret-refs.ts:275-279 | the wrap at 32 bits and the signed shift never reach the byte that is taken |
| `Base32.CodeIsExact` | src/browser/secret-refs.ts:298-300 | a one-time code has exactly the digits asked for and the truncated value modulo their power of ten |
| `BrowserTabs.TrimClosedForm` | src/browser/browser-tabs.ts:119-130 | trimming keeps the last cap tabs, or the active one and the last cap-1 others, and drops the rest oldest first |
| `BrowserTabs.KeptAndDropped` | src/browser/browser-tabs.ts:119-130 | kept and dropped tabs divide the strip, and the active one is kept |
| `BrowserTabs.SyncKeepsActiveAndLatest` | src/browser/browser-tabs.ts:214-258 | a sync over the cap keeps the active page and the last others in order and reports exactly the rest, or refuses when nothing says which is active |
| `BrowserTabs.SyncAgreesExactly` | src/browser/browser-tabs.ts:214-258 | for every inventory, order and tabs agree after the sync if and only if it names the active page once and, of the others, none that remains after the trim is named again |
| `BrowserTabs.OpenedTabIsActive` | src/browser/browser-tabs.ts:179-184 | a newly opened tab is in the strip and active if and only if the cap is at least two or no tab was active |
| `BrowserTabStrip.TabStrip.TrimToMax` | src/browser/browser-tabs.ts:119-130 | the splice loop computes the trimmed strip |
| `BrowserTabStrip.TabStrip.Upsert` | src/browser/browser-tabs.ts:159-171 | a tab is added or updated and the strip trimmed |
| `BrowserTabStrip.TabStrip.SyncPages` | src/browser/browser-tabs.ts:214-258 | the inventory, whatever it holds, replaces the strip, or nothing changes |
| `BrowserTabStrip.TabStrip.Close` | src/browser/browser-tabs.ts:267-275 | a closed tab hands its activity to the last one |
| `BrowserTabStrip.TabStrip.TakeEvicted` | src/browser/browser-tabs.ts:136-140 | each evicted page is handed out once |

## Left out

- ProxyForesightRuns.HoldAndReplayIsForesight: while the page is held, nothing the clients send or are answered names it, it is neither granted nor destroyed, no event names an owned opener for it, the browser-level sessions it came on stay attached, none of its frames or downloads is known before, and it is not adopted while other tabs are remembered (the foreseeing session would adopt another of them); order between the page's messages and others is not promised.
- ProxyReplay.DeliveredExactlyWhenOrderly: sessions attached on the browser level and inside the page have different ids, none of them is the client's yet, and no other held target shares a session with the page.
- ProxyCounting.PendingIsInFlight: a closed connection handles no more messages in the model; a late message on a closing socket is not modelled.
- ProxySocket.ProxyConnection.OnDownstream: whether a URL is a web page and whether a file path is denied are inputs, because they depend on the URL parser and the file system.
- ProxySocket.SessionOwnership.GrantTarget: sockets are open whenever something is sent on them.
- ActivitySyncLoop.SyncConnected: revoking the authority of expired profiles before an ingest is left out; its host call can fail.
- ActivitySyncLoop.SyncBatch: the same revocation is left out, and its failure is the host being out of reach.
- ActivityRuns.RecordedOnce: events of one host have ids no other party uses, and at most one sync runs per host.
- GrantStore.Store.Authorize: an operation reads the clock once, request ids and drawn grant ids are new, and active grants come in any stored order.
- GrantLog.HistoriesAreWords: the decision column is not kept, because the other columns determine it.
- OriginScopes.BreadthIsInclusion: scopes and origins are parsed records with canonical host names; the scope syntax and URL parsing are left out.
- OriginScopes.AuthorizesTheBroadest: raw localhost covers IPv6 loopback only in the canonical form the URL parser gives.
- InputPacer.RunsKeep: pointer payloads are not null.
- DownloadAgreement.QuarantineAgrees: calls run one at a time; starts use new download ids, and `StartAgreesExactlyForANewId` says why; a failing file creation leaves no file.
- DownloadsManager.Manager.Append: base64 decoding happens before the call.
- DownloadNames.NormalizeIsSafe: characters are Unicode scalar values, where the source counts UTF-16 units.
- DownloadsManager.Manager.Start: index keys and file paths are slots, justified by DownloadNames.KeysAndPathsAreDistinct.
- PathCollapse.CollapseIsExact: symbolic links and the copy itself are left out, as is export to the workspace beyond this check.
- ProcessTree.RendererProcessCount: one fixed snapshot in which every process can be read.
- Base32.Base32Bytes: characters whose upper case is not a letter of the alphabet are kept as they are and refused.
- Base32.CodeIsExact: the HMAC and the time counter are left out; the digest is an input of at least 19 bytes.
- BrowserTabs.TrimClosedForm: listeners, snapshots and a reset of the instance are left out.
- LeaseManager.Manager.AcquireOwner: a waiting owner is a caller that tries again; the order among waiting owners is not promised.
- LeaseManager.Manager.GiveUp: timers and abort signals are calls made by the environment.
- Real sockets, JSON and schema parsing, HTTP, SQLite and the file system are abstracted as sequences, maps and parameters.
- React and panel code, Playwright, Chromium launching, readiness, traces and safe login are not modelled.
- The browser runtime's capacity checks straddle awaits and would add easier members only.
