# Shade-Backend: a verified model

Shade-Backend is a store-and-forward chat server on top of RabbitMQ. This project models its in-memory
protocols and the agreement between its tables, its broker bindings and its queues, and proves what they
guarantee over every run.

| part | files |
|---|---|
| delivery of a device queue to sockets: receipts, timers, cleanup | Delivery, DeliveryInvariant, DeliverySteps, DeliveryTheorems, DeliveryGuarantees, DeliveryDistinct, DeliveryReceipts, DeliveryTimers, DeliveryPanics, DeliveryIsolation, DeliveryOutcomes, DeliveryWitnesses, UserState, Envelope, MultisetOfMap |
| the map of live sessions | Clients |
| group membership and group bindings | Groups, GroupCoherence, GroupSafety, GroupExactness, GroupDevices, GroupOutcomes, GroupWitnesses, GroupService |
| how payloads fan out | Topology, Fanout |
| sender keys and the inbox drain | SenderKeys, Inbox |
| the sliding-window limiter | SlidingWindow, RateLimiter |
| the frame relay | Relay, RelayTheorems, RelayGuarantees, RelayOutcomes, SyncManager |
| linking a web client | WebSession, WebSessionGuarantees, WebSessionOutcomes |
| login challenges | Challenges |

Code that changes state is a class or an array algorithm, and each method is proved to compute a function
on values (`Model()`, `Contents()`, an effect list). The theorems are about those functions: about every
interleaving of atomic steps where goroutines race, and about every sequence of operations elsewhere. The
broker is a queue of ready messages, a binding relation and the unacked tags of each channel. Results of
calls outside the code (socket writes, database statements, broker calls, id parsing, the clock) are
parameters, so a theorem holds for every outcome.

The code does not keep some promises that its comments or names suggest. It is modelled as it is, with the
exact condition:

- RemoveMember and DeleteGroup delete rows even when an unbind failed (RemovalCoherentIff,
  DeletionCoherentIff).
- A sender's other devices can hold two live deliveries with one message id; the older entry is overwritten
  and waits for the channel to close (OverwrittenIffIdsCollide, OverwrittenWaitsForClose).
- A last disconnect can clear pendingAcks just before an insertion (PanicIffEndangered).
- HasMore denies remaining messages once a frame failed to decode (HasMoreIffAllDecoded), and a Get error
  loses messages already acked (ConsumedIsReturnedIff, GetErrorLosesMessage).
- A group id in another spelling is authorised but routed to nobody but the sender (GroupPayloadCopies,
  BracedGroupIsNotRouted).
- When a message is enqueued twice, a stale timer can requeue the second copy early (TimersTakeTheirOwn,
  StaleTimerTakesOther).
- Retry-After can be zero when the clock is re-read late (RetryAfterZeroIff, ZeroAdviceOccurs).
- A forwarder can time out although web has just joined (DeliveryPossibleIff, TimeOutCanWinRace).
- A poller can miss its notification (WakeupCanBeMissed, OpenChannelFate), and an authoriser that lost the
  race is not told (UpdateStoresIffFirst, LoserIsNotTold).

`dafny verify dfyconfig.toml` checks everything.

## Model

| member | source | states |
|---|---|---|
| DeliveryGuarantees.NoMessageIsLost | internal/websocket/connection_manager.go:285-381 | After any interleaving of broker, consumer, receipt readers, timers, reconnects and cleanup, the messages enqueued are, as a multiset, those ready, those unacked on some channel and those removed |
| DeliveryGuarantees.DisconnectReturnsEverything | internal/websocket/connection_manager.go:810-828 | When every session has closed its channel, everything not removed for good is back in the queue |
| DeliveryGuarantees.RemovalsAreJustified | internal/websocket/connection_manager.go:285-351 | A message leaves for good only as an undecodable body, an echo to its source device, a non-payload written to some socket, or a payload written to some socket and named by a DELIVERED receipt |
| DeliveryReceipts.ReceiptsAreUsedOnce | internal/websocket/connection_manager.go:556-569 | The removals on receipts for an id, the settlements in hand for them and the readers on their way are together no more than the receipts that arrived for it |
| DeliveryGuarantees.NoTagIsSettledTwice | internal/websocket/connection_manager.go:70-86 | In no interleaving is a delivery tag acked or nacked twice on its channel, nor an unknown tag settled; settled tags are never unacked again |
| DeliveryGuarantees.EveryTagHasOnePlace | internal/websocket/connection_manager.go:353-375 | On an open channel each unacked tag is in exactly one place: buffer, consumer, pendingAcks with its own running timer, one settling hand, overwritten, or forgotten by cleanup |
| DeliveryDistinct.ForwardedPayloadIsTracked | internal/websocket/connection_manager.go:353-375 | While the outstanding payloads of each session have distinct message ids, a forwarded unacked payload is in pendingAcks with its own timer or in the hand of one receipt or timer, and not in both |
| DeliveryDistinct.DistinctNeverCollides | internal/websocket/connection_manager.go:371-374 | Distinct message ids among the outstanding payloads, in every state of a run, exclude every overwriting of an entry |
| DeliveryDistinct.DistinctMessagesAreNeverOverwritten | internal/websocket/connection_manager.go:353-375 | If no payload is enqueued twice and no two under one message id, outstanding ids are distinct throughout and no entry is ever overwritten |
| DeliveryGuarantees.TrackedUnlessOverwritten | internal/websocket/connection_manager.go:353-375 | The same placement in every run in which no insertion met its own id in the map |
| DeliveryGuarantees.OverwrittenIffIdsCollide | internal/websocket/connection_manager.go:371-374 | An entry of pendingAcks is overwritten in a run exactly when a delivery is inserted under the message id of an outstanding one |
| DeliveryGuarantees.OverwrittenWaitsForClose | internal/websocket/connection_manager.go:371-374 | An overwritten tag stays unacked until its channel closes, whatever receipts and timers do: its requeue on timeout is lost |
| DeliveryGuarantees.TrackedCanBeRequeued | internal/websocket/connection_manager.go:356-370 | From every reachable state an entry of pendingAcks is at most three steps (timer fires, takes, nacks) from being back in the queue |
| DeliveryTimers.TimersTakeTheirOwn | internal/websocket/connection_manager.go:356-362 | If the payloads ever enqueued have distinct ids, a timer that takes an entry takes the entry of its own delivery, although it looks the message id up afresh |
| DeliveryWitnesses.StaleTimerTakesOther | internal/websocket/connection_manager.go:356-369 | Otherwise it may not: a run in which the fired timer of an acked first copy is about to take the entry of the second, whose own timer still runs |
| DeliveryIsolation.ClosedSessionIsInert | internal/websocket/connection_manager.go:810-828 | From a cleaned-up session on, dropping all its steps from any continuation leaves a run with the same queue, removals and other sessions; it settles nothing more, so a stale timer never settles a tag of a successor channel |
| DeliverySteps.SessionStep | internal/websocket/connection_manager.go:285-381 | Every atomic step of every actor keeps the one-place invariant of its session |
| DeliveryOutcomes.HandledFrameSettles | internal/websocket/connection_manager.go:285-351 | From any state with a delivery in hand that is no payload to be awaited, handling and settling it takes it off the channel; it is back in the queue exactly if it decodes, is no echo and no socket took it, and is removed for good otherwise |
| DeliveryOutcomes.ForwardedPayloadWaits | internal/websocket/connection_manager.go:353-375 | A payload that reached a socket stays unacked, gets its pendingAcks entry and a running timer of its own, and nothing returns to the queue |
| DeliveryOutcomes.ReceiptAcks | internal/websocket/connection_manager.go:556-569 | On the live session a DELIVERED receipt takes the entry, stops its timer, and removes exactly that message for good |
| DeliveryOutcomes.TimerRequeues | internal/websocket/connection_manager.go:356-369 | A fired timer takes whatever entry its message id names now, and that message is back in the queue |
| DeliveryOutcomes.PushTakesFromQueue | internal/websocket/connection_manager.go:266-283 | In every run a pushed message leaves the queue and is unacked under a tag never used on that channel before |
| DeliveryOutcomes.ConsumerTakesOldest | internal/websocket/connection_manager.go:266-283 | In every run the consumer handles deliveries in tag order, each with the message the broker holds under its tag |
| DeliveryOutcomes.CleanupStopsTimers | internal/websocket/connection_manager.go:815-820 | Cleanup empties the map and leaves no timer of its entries running, and touches no unacked message |
| Envelope.TrimSpaceIsExact | internal/websocket/connection_manager.go:294-301 | What is left of the header value begins and ends with no white space, and only white space was cut off its ends |
| DeliveryTheorems.Balance | internal/websocket/connection_manager.go:285-351 | Each step balances: what it pulls equals what it returns, removes and newly holds, minus what it held |
| DeliveryWitnesses.DuplicateIdOverwrites | internal/websocket/connection_manager.go:516-539 | A run in which two live deliveries share a message id and the first is overwritten |
| DeliveryPanics.PanicIffEndangered | internal/websocket/connection_manager.go:371-374 | A run brings the consumer to the nil map, where the code panics, exactly if it clears a map while the consumer is about to insert, or judges a payload forwarded after its map was cleared |
| DeliveryPanics.WaitingNeverPanics | internal/websocket/connection_manager.go:810-820 | If every cleanup cleared its map only after the consumer had returned, no run would panic |
| DeliveryWitnesses.InsertCanMeetClearedMap | internal/websocket/connection_manager.go:815-820 | A run in which the last disconnect clears pendingAcks between the socket write and the insertion |
| UserStates.UserState.HandleDelivery | internal/websocket/connection_manager.go:285-351 | The body with its counting loop reaches exactly the verdict of the protocol step |
| UserStates.UserState.InsertPending | internal/websocket/connection_manager.go:353-375 | Arms the timer and stores the entry as in the protocol step |
| UserStates.UserState.OnTimeout | internal/websocket/connection_manager.go:356-369 | The closure takes whatever entry its message id names now, and marks its timer done |
| UserStates.UserState.OnReceipt | internal/websocket/connection_manager.go:559-566 | A DELIVERED receipt takes the entry and stops its timer, if there is one |
| UserStates.UserState.SettleOnChannel | internal/websocket/connection_manager.go:70-86 | Does nothing on a closed channel; otherwise the broker forgets the tag, or faults on an unknown one |
| UserStates.UserState.ClearPendingAcks | internal/websocket/connection_manager.go:815-820 | The loop stops exactly the armed timers of the entries, and the map is dropped |
| UserStates.UserState.CloseAmqpChannel | internal/websocket/connection_manager.go:822-827 | Closing hands back every message the channel held |
| Clients.ClientsAreTheConnected | internal/websocket/connection_manager.go:133-202 | After any history the clients map holds a key exactly while that session has a live connection, with exactly those connections |
| Clients.TearDownIffLastConnection | internal/websocket/connection_manager.go:766-788 | An unregistration tears a session down exactly when it removes its only live connection; an unknown, refused or repeated connection id changes nothing |
| Clients.CleanupOncePerState | internal/websocket/connection_manager.go:784-795 | Every userState is either in the map under one key or was cleaned up once, never both and never twice |
| Clients.PrefixPinsUser | internal/websocket/connection_manager.go:66-68 | With no bar in either id, a session key starts with an asked string and a bar exactly when the user id is that string |
| Clients.ScanIsExact | internal/websocket/connection_manager.go:121-131 | For every asked string, the prefix scan says whether that exact user id has a live session, when the sessions were opened for ids without bars |
| Clients.SessionKeyIsInjective | internal/websocket/connection_manager.go:66-68 | Ids without bars give one key to one device of one user |
| Clients.OperationTouchesOneSession | internal/websocket/connection_manager.go:133-202 | After any history an operation for one device adds or removes exactly its connection there, refuses only what cannot be opened, and changes no connection of any other device or user |
| Clients.DevicesHaveOwnStates | internal/websocket/connection_manager.go:133-202 | Two devices that are online have a userState each, hence a consumer each |
| Clients.ListedIsRegistered | internal/websocket/connection_manager.go:766-788 | A listed connection registered for that key and has not unregistered since |
| Clients.RegisteredIsListed | internal/websocket/connection_manager.go:133-202 | An accepted connection that has not unregistered is listed |
| Clients.ConnectionManager.Register | internal/websocket/connection_manager.go:133-202 | Opens a session only if both ids parse and provisioning and the channel succeed, updates the map as the history says, and reports whether the connection was added |
| Clients.ConnectionManager.Unregister | internal/websocket/connection_manager.go:766-808 | Updates the map as the history says, and returns the state to clean up exactly when the last connection left |
| Clients.ConnectionManager.UserHasAnyOnlineSession | internal/websocket/connection_manager.go:121-131 | The loop over all keys decides the prefix scan |
| GroupSafety.OperationIsSafe | internal/services/group_service.go:105-269 | If its unbinds succeed, an operation keeps every bound queue with a registered device of a current member after each of its effects, so also when it stops between a table write and a broker call |
| GroupSafety.NoOutsiderIsBound | internal/services/group_service.go:105-269 | From an empty world, no run of operations, each possibly cut short and with any bind failing, binds an outsider |
| GroupSafety.RemovalCoherentIff | internal/services/group_service.go:256-268 | Since the rows are deleted even after a failed unbind, a completed removal keeps outsiders unbound exactly when every bound device of the target was unbound |
| GroupSafety.DeletionCoherentIff | internal/services/group_service.go:203-210 | Likewise, a completed deletion keeps outsiders unbound exactly when every queue bound to the group was unbound: group read, channel, device list and unbind all succeeded |
| GroupWitnesses.FailedUnbindLeavesOutsider | internal/services/group_service.go:194-269 | Runs from an empty world in which leaving, or deleting, a group with a failed channel leaves an outsider bound |
| GroupSafety.UnbindAllClears | internal/services/group_binding_service.go:189-226 | Without failures the unbind of a whole group leaves no queue bound to it |
| GroupExactness.OperationIsExact | internal/services/group_service.go:105-269 | Without failed binds or unbinds every operation keeps: for provisioned devices, bound and member are the same |
| GroupExactness.BoundIffMember | internal/services/group_binding_service.go:41-68 | In every failure-free run a provisioned device is bound to a group exactly while its user is a member |
| GroupExactness.ProvisionRepairs | internal/services/group_binding_service.go:41-68 | One successful provision makes a device's bindings equal its user's memberships, whatever binds failed before |
| GroupDevices.ExactSinceProvision | internal/services/group_binding_service.go:41-68 | From a device's successful provision on, while no bind or unbind for it fails, it is bound exactly to its user's groups, whatever binds failed for it before and whatever fails for others |
| GroupDevices.OperationOnDevice | internal/services/group_service.go:105-269 | Under any failures, an operation that unbinds the device where it must leaves it no stray binding, and one that binds it where it must leaves it no missing one |
| GroupExactness.ExitReachesTheLeaver | internal/services/group_service.go:256-268 | When the exit is announced the leaver's provisioned devices are still bound; afterwards they are not |
| GroupExactness.JoinReachesTheJoiner | internal/services/group_service.go:227-243 | When the join is announced every device of the new member is bound |
| GroupCoherence.AllowedKeepsCoherent | internal/services/group_binding_service.go:70-119 | Any number and order of binds for members' devices, and of unbinds, keeps outsiders unbound |
| GroupCoherence.WithoutContents | internal/repositories/group_repository.go:43-99 | Deleting a membership removes all its rows and no other |
| GroupCoherence.GroupsOfContents | internal/repositories/group_repository.go:43-99 | The list of a user's groups holds a group exactly when a row and the group exist |
| GroupOutcomes.CreateGroupEnrols | internal/services/group_service.go:105-161 | After a successful creation the members of the group are exactly the owner and the listed users who parse, are known and whose row is inserted; no other group changes; each refusal leaves what it leaves |
| GroupOutcomes.AddMemberEnrols | internal/services/group_service.go:215-245 | Exactly one row appears, for the named user, if the caller is a member and the user parses and is known; otherwise nothing changes |
| GroupOutcomes.RedeemInviteEnrols | internal/services/group_service.go:316-354 | Exactly the caller gains a row, and none if the invite is unknown, past its expiry, used up or cannot be counted |
| GroupOutcomes.RemoveMemberRemoves | internal/services/group_service.go:247-269 | The owner removes anybody and everybody else only themselves; exactly that membership goes, if the deletion succeeds |
| GroupOutcomes.DeleteGroupRemoves | internal/services/group_service.go:194-211 | Only the owner deletes a group; it goes with all its memberships and no other |
| GroupOutcomes.CreateGroupAnnounces | internal/services/group_service.go:136-155 | A creation announces exactly the enrolled users as joined, by the owner |
| GroupOutcomes.JoinAnnounces | internal/services/group_service.go:227-243 | Adding a member or redeeming an invite announces the new member and nothing else, exactly if there is one |
| GroupOutcomes.ExitAnnounces | internal/services/group_service.go:247-258 | A removal announces one exit, as leaving or being removed, exactly if it is allowed; a deletion announces none |
| GroupOutcomes.BindUserUnderFailures | internal/services/group_binding_service.go:70-119 | Under any failures exactly the devices whose declare and bind succeed gain the binding, and their queues exist |
| GroupOutcomes.UnbindUserUnderFailures | internal/services/group_binding_service.go:121-151 | Under any failures exactly the devices whose unbind succeeds lose the binding |
| GroupOutcomes.UnbindAllUnderFailures | internal/services/group_binding_service.go:189-226 | Under any failures exactly the members' devices whose unbind succeeds lose the binding |
| GroupOutcomes.ProvisionUnderFailures | internal/services/group_binding_service.go:41-68 | Under any failures a provision declares, binds to the user, and binds to exactly the user's groups whose bind succeeds, each step only after the ones before |
| GroupOutcomes.ProvisionSucceedsIff | internal/services/group_binding_service.go:41-68 | It succeeds exactly when every call, and every bind to a group of the user, succeeds |
| GroupServices.GroupService.ProvisionDeviceQueue | internal/services/group_binding_service.go:41-68 | Performs, in order and under any failures, exactly the specified effects, and reports success exactly when nothing failed |
| GroupServices.GroupService.BindDeviceToGroups | internal/services/group_binding_service.go:171-187 | The loop binds the device to each group, skipping failures, and reports none exactly when every bind succeeds |
| GroupServices.GroupService.BindUserToGroup | internal/services/group_binding_service.go:70-119 | The loop declares and binds each device, skipping failures, as specified |
| GroupServices.GroupService.UnbindUserFromGroup | internal/services/group_binding_service.go:121-151 | The loop unbinds each device, skipping failures, as specified |
| GroupServices.GroupService.UnbindAllFromGroup | internal/services/group_binding_service.go:189-226 | The nested loops unbind every device of every member, skipping failures, as specified |
| GroupServices.GroupService.CreateGroup | internal/services/group_service.go:105-161 | Performs exactly the specified effects, including the loop over the member list |
| GroupServices.GroupService.DeleteGroup | internal/services/group_service.go:194-211 | Unbinds all members before it deletes the rows, whatever the unbinds returned |
| GroupServices.GroupService.AddMember | internal/services/group_service.go:215-245 | Inserts the row, binds the devices, then announces the join |
| GroupServices.GroupService.RemoveMember | internal/services/group_service.go:247-269 | Announces the exit, unbinds, then deletes the rows |
| GroupServices.GroupService.RedeemInvite | internal/services/group_service.go:316-354 | The group branch enrols the caller exactly when the invite is found, unexpired, not used up and counted, and the row insert succeeds |
| Topology.QueueNameInjective | internal/rabbitmq/topology.go:80-82 | Distinct devices of canonical user ids have distinct queues |
| Topology.GroupBindingMatches | internal/rabbitmq/topology.go:84-86 | Under the matching rules of section 3.1.3.3 of AMQP 0-9-1, the binding of a canonical group id lets through exactly the keys of that group |
| Topology.PlainPatternMatchesItself | internal/rabbitmq/topology.go:51-61 | A pattern without wildcards matches only itself |
| Topology.JoinWords | internal/rabbitmq/topology.go:84-86 | Splitting a key at its dots loses nothing |
| Fanout.GroupPayloadCopies | internal/websocket/connection_manager.go:491-539 | An accepted group payload puts one copy in each provisioned device queue of a member if the group id was spelled canonically, and one more in each of the sender's |
| Fanout.BracedGroupIsNotRouted | internal/websocket/connection_manager.go:491-525 | A member who writes the group id in braces, which the parser takes, is authorised and reaches nobody but the own devices |
| Fanout.OutsidersReceiveNothing | internal/websocket/connection_manager.go:491-539 | No queue of a non-member gains anything from a group payload, accepted or not, provisioned or not |
| Fanout.OnlyMembersPublish | internal/websocket/connection_manager.go:504-513 | If any queue at all gains anything from a group payload, both ids parse and the sender is a member of the group |
| Fanout.GroupPayloadUnderFailures | internal/websocket/connection_manager.go:491-539 | Whatever publishes fail, the copies of each provisioned queue: the group's only if that publish succeeded, the echo only if both did |
| Fanout.DirectPayloadCopies | internal/websocket/connection_manager.go:429-444 | A direct payload puts one untagged copy in each bound device queue of the receiver and one tagged copy in each of the sender |
| Fanout.DirectPayloadUnderFailures | internal/websocket/connection_manager.go:429-444 | The two publishes of a direct payload fail or succeed on their own; without a receiver there is neither |
| Fanout.TaggedCopyIsForwardedElsewhere | internal/websocket/connection_manager.go:294-305 | A tagged copy is swallowed by the sending device and forwarded by every other |
| Fanout.SendingDeviceForwardsNone | internal/websocket/connection_manager.go:302-305 | Over the socket path the sending device forwards none of its copies of a group payload |
| Fanout.PayloadHandler.HandlePayload | internal/websocket/connection_manager.go:424-430 | Dispatches on the group id to the two publication sequences |
| Fanout.PayloadHandler.HandleGroupPayload | internal/websocket/connection_manager.go:491-539 | Publishes to the group and then echoes, and nothing after a failed check or group publish |
| Fanout.PayloadHandler.HandleDirectPayload | internal/websocket/connection_manager.go:429-444 | Publishes to the receiver untagged and echoes to the sender tagged, each on its own |
| SenderKeys.TableHoldsLast | internal/websocket/connection_manager.go:607-667 | After any history of distributions, the table holds for each key exactly the content of the last one that passed its checks, was published and persisted |
| SenderKeys.SenderKeyRepository.Upsert | internal/repositories/sender_key_distribution_repository.go:37-51 | Inserts, or replaces the content on a key conflict |
| SenderKeys.SenderKeyRepository.ListForRecipient | internal/repositories/sender_key_distribution_repository.go:53-59 | Returns exactly the rows of the recipient |
| SenderKeys.SenderKeyRepository.HandleDistribution | internal/websocket/connection_manager.go:607-676 | Drops impersonating and unaddressed frames, publishes, and stores as specified |
| Inbox.DrainIsExact | internal/services/message_service.go:95-139 | Consumed and remaining messages are the queue followed by the receipts the drain sent to its own user; the items are the decodable consumed messages in order, at most the limit; HasMore implies that messages remain |
| Inbox.ConsumeSplits | internal/services/message_service.go:95-126 | From any round on, the loop loses and invents nothing although it appends to the queue it drains |
| Inbox.ConsumeStops | internal/services/message_service.go:95-102 | The loop ends at the limit, at an empty queue, or at a Get that fails, and fails exactly when the Get after its last consumed message fails within the limit |
| Inbox.HasMoreIffAllDecoded | internal/services/message_service.go:130-139 | When messages remain, HasMore reports them exactly if every consumed message decoded |
| Inbox.HasMoreCanMiss | internal/services/message_service.go:105-110 | One undecodable message makes a drain deny messages that remain |
| Inbox.DrainFailsIff | internal/services/message_service.go:95-139 | A drain fails exactly when the Get after its last consumed message fails and is made: inside the limit, or as the peek when the whole limit decoded |
| Inbox.ConsumedIsReturnedIff | internal/services/message_service.go:95-139 | A consumed, hence acked, decodable message is in the response exactly unless that Get is made and fails; in particular when no Get up to the limit and the peek fails |
| Inbox.GetErrorLosesMessage | internal/services/message_service.go:96-99 | A drain whose second Get fails loses the message it consumed first |
| Inbox.StoredKeysAreDelivered | internal/services/message_service.go:253-308 | After any history of distributions each stored key of the user whose row the replay publishes, with its last content and without its recipient device, is among the items of the next drain or still queued |
| Inbox.DrainAnswersPayloads | internal/services/message_service.go:315-349 | Each consumed payload whose publish succeeds is answered by one DELIVERED receipt, with its message and group id, to its sender; nothing else is sent |
| Inbox.DecodableSplits | internal/services/message_service.go:103-113 | Handing out keeps the order and drops only what does not decode |
| Inbox.ClampKeepsAsked | internal/services/message_service.go:55-61 | A limit in 1..500 is used as asked, none or a negative one means 100, a larger one 500 |
| Inbox.MessageService.RepublishStoredSKDMs | internal/services/message_service.go:253-308 | The loop publishes one frame per row, in row order, skipping failures |
| Inbox.MessageService.DrainInbox | internal/services/message_service.go:55-139 | The loop over the changing queue computes the specified split, response and receipts |
| SlidingWindow.WindowTheorem | internal/middleware/rate_limiter.go:13-20 | For every sequence of requests and cleanups on a non-decreasing clock, any window (T - Window, T] holds at most Limit admitted requests of one address |
| SlidingWindow.CountIsExact | internal/middleware/rate_limiter.go:82-109 | The count is the number of all past requests of the address after the cutoff, plus one, although older stamps were pruned |
| SlidingWindow.PruningIsInvisible | internal/middleware/rate_limiter.go:92-102 | From the horizon on, the pruned table cannot be told from the full history |
| SlidingWindow.CleanupIsInvisible | internal/middleware/rate_limiter.go:112-138 | Inserting or removing cleanup passes anywhere changes no later count |
| SlidingWindow.OldestIsMinimum | internal/middleware/rate_limiter.go:104-108 | The returned stamp is the least counted one and lies inside the window |
| SlidingWindow.AdviceIsSound | internal/middleware/rate_limiter.go:154-163 | After any history, Retry-After at the record's own reading lies between one second and Window seconds + 1, and after waiting it the oldest counted request has left the window |
| SlidingWindow.RetryAfterIsTight | internal/middleware/rate_limiter.go:157-163 | The wait exceeds what is left of the window by at most one second |
| SlidingWindow.WithinLimitIff | internal/middleware/rate_limiter.go:82-109 | A request is within the limit exactly if fewer than the limit were made by its address in the window before it |
| SlidingWindow.CleanupForgetsIdle | internal/middleware/rate_limiter.go:116-138 | A cleanup pass drops an address exactly if none of its stamps is inside the window, and changes no other |
| SlidingWindow.WaitingExpiresOldest | internal/middleware/rate_limiter.go:157-163 | The same wait suffices for a later clock reading too |
| SlidingWindow.RetryAfterZeroIff | internal/middleware/rate_limiter.go:159-162 | The value is never negative, and zero exactly when the clock is re-read one to two seconds after the window of the oldest stamp ended |
| SlidingWindow.ZeroAdviceOccurs | internal/middleware/rate_limiter.go:154-163 | A rejected request that is told to wait zero seconds |
| RateLimiters.WindowEntry.Compact | internal/middleware/rate_limiter.go:92-98 | Compacting in place leaves exactly the stamps after the cutoff, in order |
| RateLimiters.WindowEntry.Append | internal/middleware/rate_limiter.go:100-102 | Appends one stamp, in place or in a larger array |
| RateLimiters.RateLimiter.RecordRequest | internal/middleware/rate_limiter.go:82-109 | Updates the table of entries as specified and returns the specified count and oldest stamp |
| RateLimiters.RateLimiter.CleanupTick | internal/middleware/rate_limiter.go:116-138 | The loop deletes exactly the addresses whose stamps have all expired |
| RateLimiters.RateLimiter.Check | internal/middleware/rate_limiter.go:150-196 | Admits exactly up to the limit, with the specified remaining count and Retry-After |
| RelayGuarantees.OrderIsKept | internal/websocket/sync_manager.go:92-120 | In every run accepted frames are the taken ones followed by the buffered ones, at most 512 are buffered, written frames are a subsequence of the received ones, and none is written before webReady |
| RelayGuarantees.CompleteIffNothingLost | internal/websocket/sync_manager.go:92-120 | Written, in-flight and buffered frames are the received ones in order exactly when no frame overflowed, met a missing web client or failed to be written |
| RelayGuarantees.SteadyRunDeliversAll | internal/websocket/sync_manager.go:80-120 | If web comes before the forwarder gives up, stays, no write fails and nothing overflows, then nothing is ever missing and the forwarder can still write everything received |
| RelayGuarantees.ForwarderCanDrain | internal/websocket/sync_manager.go:92-120 | While web is connected and the forwarder lives, its own steps can write all accepted frames |
| RelayGuarantees.ExitIsFinal | internal/websocket/sync_manager.go:83-90 | After the forwarder exits nothing is taken or written for that session any more, in any continuation |
| RelayGuarantees.DeliveryPossibleIff | internal/websocket/sync_manager.go:80-120 | In every reachable state with web connected, some continuation writes every frame accepted so far exactly if the forwarder has not exited or no frame is buffered |
| RelayGuarantees.TimeOutCanWinRace | internal/websocket/sync_manager.go:81-90 | When webReady and the timeout are both ready the timeout may win, and a connected web client gets nothing |
| RelayGuarantees.InMapWhileConnected | internal/websocket/sync_manager.go:187-217 | A session object is in the map, under its own id only, exactly while one of its slots is filled; done is closed exactly once, when both are empty; webReady at most once |
| RelayGuarantees.StaleUnregisterIsNoop | internal/websocket/sync_manager.go:196-212 | Unregistering changes something exactly when the connection holds the slot of its role, so an old connection never evicts its replacement |
| RelayOutcomes.RegisterTakesSlot | internal/websocket/sync_manager.go:123-145 | After a registration the new connection holds the slot of its role, whoever held it before; the other slot, the frames and the expiry of an existing session stay |
| RelayOutcomes.ReplacementSurvives | internal/websocket/sync_manager.go:196-212 | In every run a connection that leaves after another took its slot evicts neither the replacement nor the session |
| RelayOutcomes.UnregisterFreesSlot | internal/websocket/sync_manager.go:187-217 | The holder of a slot that leaves empties that slot alone, and ends the session exactly if the other is empty |
| RelayOutcomes.ReadOffers | internal/websocket/sync_manager.go:156-183 | A frame is taken up exactly if Android sent data to a session that exists and has not expired; it is appended, or dropped at 512 |
| RelayOutcomes.OthersUntouched | internal/websocket/sync_manager.go:60-217 | No step for one session changes another |
| RelayOutcomes.ForwarderRunsToTheEnd | internal/websocket/sync_manager.go:80-121 | The forwarder starts only when web is ready, and once started returns only when the session is over |
| RelayOutcomes.FrameInHandIsWritten | internal/websocket/sync_manager.go:96-109 | A frame in hand is written once to whoever is web then, if the write succeeds |
| RelayTheorems.StepKeepsLifecycle | internal/websocket/sync_manager.go:60-76 | Every step keeps the agreement of map, done and slots |
| SyncManagers.SyncManager.GetOrCreate | internal/websocket/sync_manager.go:60-76 | Finds the session or creates one with the given expiry |
| SyncManagers.SyncManager.Register | internal/websocket/sync_manager.go:123-145 | Fills the slot of the role and closes webReady at the first web connection |
| SyncManagers.SyncManager.ReadFrame | internal/websocket/sync_manager.go:147-185 | One turn of the pump offers data frames of Android to a live, unexpired session, drops them on overflow, and stops as the code does |
| SyncManagers.SyncManager.Unregister | internal/websocket/sync_manager.go:187-217 | Empties the slot if it holds the connection, and removes the session when both are empty |
| SyncManagers.SyncSession.Forward | internal/websocket/sync_manager.go:80-121 | Each forwarder step does what its select arm does |
| WebSessionGuarantees.FirstAuthorisationStays | internal/repositories/web_session_repository.go:50-62 | Once a session is authorised its stored fields never change, however many authorisers race |
| WebSessionGuarantees.StoredFieldsAreOneRequest | internal/services/web_session_service.go:133-179 | Stored fields are complete and are those of one request that passed every check for that session and executed its update |
| WebSessionGuarantees.FirstUpdateIsStored | internal/repositories/web_session_repository.go:50-62 | In every run a session is authorised exactly if some update was made for it, and its fields are those of the first one |
| WebSessionGuarantees.UpdateStoresIffFirst | internal/repositories/web_session_repository.go:50-68 | An update stores its own fields, in a row that was pending, if no update was made for the session before; otherwise it changes nothing, and returns no error |
| WebSessionGuarantees.AnswersAgree | internal/services/web_session_service.go:105-126 | Every credential answer of a session carries the stored fields, so all pollers get the same |
| WebSessionGuarantees.ClosedMeansAuthorised | internal/services/web_session_service.go:181-186 | Each notify channel is closed at most once, and a closed one means that its session is authorised |
| WebSessionGuarantees.ClosedChannelWakes | internal/services/web_session_service.go:120-126 | A poller whose channel was closed can wake up at any later time, and answers with the fields stored when it was closed |
| WebSessionGuarantees.OpenChannelFate | internal/services/web_session_service.go:109-115 | On a clock that never goes back, some continuation closes an open channel exactly when it is still under its key, and an authoriser for that key has not notified yet or its session is pending and not expired |
| WebSessionGuarantees.DeadChannelStaysOpen | internal/services/web_session_service.go:150-155 | When that condition fails the channel stays open in every continuation |
| WebSessionGuarantees.ExpiredStaysOpen | internal/services/web_session_service.go:150-152 | A run in which a late request is refused and the channel of the expired session is left open |
| WebSessionGuarantees.WakeupCanBeMissed | internal/services/web_session_service.go:105-115 | A poller that read "pending" and takes its channel after the notification waits on a channel that nobody will close |
| WebSessionGuarantees.LoserIsNotTold | internal/repositories/web_session_repository.go:50-68 | The losing authoriser gets no error although nothing of its request is stored |
| WebSessionOutcomes.NotificationWakesPollers | internal/services/web_session_service.go:116-126 | In every run each poller on the channel that an authoriser closes can wake up at once, and answers with the stored fields of its own session, which is the authoriser's |
| WebSessionOutcomes.PollIsAnswered | internal/services/web_session_service.go:91-107 | A poll of an expired session fails, of an authorised one gets its fields at once, of a pending one goes on |
| WebSessionOutcomes.FailedPollStaysFailed | internal/services/web_session_service.go:101-103 | A poll that failed, after expiry in particular, or timed out gets no credentials in any continuation |
| WebSessionOutcomes.AuthorisationIsAccepted | internal/services/web_session_service.go:133-155 | A request is accepted exactly if it is complete and its session exists, is pending and has not expired |
| WebSessionOutcomes.CreateOpensSession | internal/services/web_session_service.go:59-74 | A new session is pending for two minutes, without fields, and has an open channel of its own |
| WebSessionOutcomes.PollTakesChannelOfKey | internal/services/web_session_service.go:109-115 | A poller waits on the channel under its key, and makes one only if there is none |
| WebSessions.WebSessionService.CreateSession | internal/services/web_session_service.go:59-74 | Stores a pending row that expires after 120 seconds, and a fresh open channel under its id |
| WebSessions.WebSessionService.BeginPoll | internal/services/web_session_service.go:91-107 | The checks of a poll, for an existing session |
| WebSessions.WebSessionService.TakeChannel | internal/services/web_session_service.go:109-115 | Finds the channel of the raw session id or makes one |
| WebSessions.WebSessionService.BeginAuthorize | internal/services/web_session_service.go:133-155 | The checks of an authorisation, in order |
| WebSessions.WebSessionService.Authorize | internal/repositories/web_session_repository.go:50-68 | Stores the fields only in a pending row, without an error otherwise |
| WebSessions.WebSessionService.Notify | internal/services/web_session_service.go:181-186 | Closes the channel under the raw session id once and forgets it |
| Challenges.AttemptIsJudgedByLatest | internal/services/auth_service.go:131-153 | An attempt succeeds exactly if the last challenge issued to the id has not been tried since, has not expired and has the value; it is a mismatch exactly if only the value differs; with none outstanding it is not found |
| Challenges.EvictionIsInvisible | internal/services/auth_service.go:98-117 | Eviction, wherever it runs, changes neither which attempts succeed nor which mismatch |
| Challenges.ChallengeIsAcceptedOnce | internal/services/auth_service.go:135-153 | Between an attempt and a later accepted one on the same id the accepted value was issued anew, so no issuance is accepted twice |
| Challenges.EvictionForgetsExpired | internal/services/auth_service.go:98-117 | After any history an eviction frees exactly the expired entries and keeps the others as they are |
| Challenges.AuthService.StoreChallenge | internal/services/auth_service.go:120-127 | Replaces the entry of the id, valid for five minutes |
| Challenges.AuthService.ConsumeChallenge | internal/services/auth_service.go:131-153 | Always deletes the entry, and returns the specified verdict |
| Challenges.AuthService.EvictExpiredChallenges | internal/services/auth_service.go:98-117 | The loop deletes exactly the expired entries and counts them |

## Left out

- Network, sockets, protobuf and base64 encoding, JWT, Ed25519, Firebase, media storage, logging,
  configuration and HTTP handlers: their results are parameters or do not matter to the properties.
- Parsing of UUIDs: a function parameter; where it matters it is assumed to yield canonical ids.
- Clients.ScanIsExact: assumes that sessions are opened for ids without bars. Ids come from tokens, which carry
  canonical UUIDs; the parser alone would also take some strings with a bar around a UUID.
- Loss of the broker connection, reconnects and the seven-day message TTL: outside the conservation
  argument, which assumes that the broker keeps what it accepted.
- Errors returned by ack and nack on an open channel: a settlement of an unacked tag is taken to succeed.
- DeliveryGuarantees.NoMessageIsLost: the queue is a multiset, so the order in which the broker redelivers
  is not modelled.
- UserStates.UserState.InsertPending: requires a map that cleanup has not cleared; the code panics there, and
  PanicIffEndangered says which runs reach it.
- Publishing the receipt itself, its echo, MarkAsDelivered and the database fallback of direct payloads.
- Heartbeats and the wake-up pushes to offline devices, apart from the online check they use.
- Group operations and provisions that overlap in time: each is taken as one sequence of effects, which may
  be cut short at any point.
- GroupServices.GroupService.RedeemInvite: the looked-up invite is a parameter, so the increment of its use
  counter and concurrent redemptions are not modelled. The personal branch is left out.
- GroupServices.GroupService.CreateGroup: the reload for the response is left out.
- Inbox.DrainIsExact: assumes that no other consumer reads the queue during the drain and that the queue
  belongs to one device of the user.
- Inbox.MessageService.DrainInbox: settles each consumed message with success, as the code ignores the
  outcome; provisioning and channel errors are one parameter.
- SendReceipts and the creation of invites, media, keys, users and audit entries: only easy members.
- SlidingWindow.WindowTheorem: takes record as atomic; an entry deleted between LoadOrStore and its lock, and
  stamps read before the lock, are outside it.
- SlidingWindow.AdviceIsSound: seconds are exact, without the rounding of Duration.Seconds(); the check for a
  zero oldest stamp is left out since record always returns a real one.
- RelayGuarantees.SteadyRunDeliversAll: time is abstract, so "in time" means that the forwarder did not take
  its timeout arm.
- SyncManagers.SyncManager.Register: creating and attaching is one step; attaching to a session that was
  removed in between is not modelled. Roles other than android and web are left out.
- WebSessions.WebSessionService.BeginPoll: requires that the session exists, since the code dereferences a
  missing row.
- WebSessions.WebSessionService.ForgetChannel: the delayed deletion happens at some time from one second after
  the expiry on, not at that instant.
- WebSessionGuarantees.OpenChannelFate: the row is read and the clock compared in one step, and clock readings
  never decrease from step to step.
- The device and queue that AuthorizeSession creates before the update, and the token minted from a stored
  session: an answer is the stored fields.
- DeleteExpired and DeleteForRecipientGroup: nothing calls them.
