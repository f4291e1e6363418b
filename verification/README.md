# Carbonshift: a verified model

Carbonshift shifts HTTP traffic in time. A router turns each request into an AMQP message, a consumer
forwards it at once or when buffering allows, and a Kubernetes operator keeps the cluster objects and
the schedule in step. This project models these pieces in Dafny and proves what they promise. Verify it
with `dafny verify dfyconfig.toml`.

| modules | what they model |
|---|---|
| `Protocol`, `ProtocolSafety`, `ProtocolRuns`, `ProtocolAnswers`, `ProtocolLedger`, `ProtocolTable`, `ProtocolReplies`, `ProtocolPause`, `ProtocolWork`, `ProtocolChannel`, `ProtocolWitness` | router, broker and consumer as a step system; between two events anything else that is enabled may happen |
| `PendingTable`, `BufferWorker`, `Retry`, `Routing` | the router's table of futures, the loop that switches a buffer subscription, the retry loop, queue names and the headers exchange |
| `ApiServer`, `OperatorNames`, `OperatorPlan`, `PlanCohesion`, `FlavourRouter` | the reconciler of the operator against a store with injected errors, resource versions and an independent autoscaler |
| `DecisionEngine`, `TrafficSchedule`, `RequestPlan`, `ScheduleCache` | the schedule from the engine's sinusoids through the resource to the choice made for one request |
| `Carbonstat` | the three averaging strategies |
| `Rounding`, `Text`, `Wrappers` | rounding half to even, strings, options and results |

How the pieces are modelled:

- A run of the protocol is any sequence of events, each enabled when its turn comes, from an open
  channel with a subscribed reply queue. Failed publishes, duplicate, late and lost replies, channel loss
  with redelivery, flag changes and the passing of time are events. `Ledger` is history that no guard reads;
  `ProtocolLedger` ties it to the events.
- `wait_for` behaves as in Python 3.11: on expiry it cancels the future, and a reply that got in first wins.
- `ttlUnit` is what one unit of the message property `expiration` is worth to the broker, in milliseconds.
  The router's variable is named `expiration_ms`; the AMQP library that converts it is not part of this
  model, so the unit is a parameter and the theorems say for which values the deadline is kept.
- Each API call of the operator is preceded by any moves of the autoscaler and may fail before or after
  it took effect, as a finite script says; past its end everything is calm. The store returns specs as
  written, and `CPUUtilization` is set wherever the operator dereferences it.
- Objects are compared as the operator compares them: deployments without their count, Services without
  their cluster address, accounts and role bindings by existence only.

Where the code does something else than its documentation or its resource says, the model follows the code:

- The consumer reads the pause flag under `consumption_enabled`, the resource calls it `consumptionEnabled`.
  No resource can pause consumption (`ScheduleCache.PauseFlagIsHonouredOnlyWhenTrue`). The protocol takes
  the flag as a boolean that changes at any time.
- The fallback schedule has no `flavourRules`; until a schedule is loaded only requests with a forced
  flavour are served (`RequestPlan.FallbackNeedsForcedFlavour`).
- A publish that raises leaves its entry in the table (`ProtocolRuns.FailedPublishLeaksEntry`).
- The selector of a buffer Service does not name the parent service, so two enabled services in one
  namespace share their pods (`OperatorPlan.OwnPodsOnlyWhenAlone`).
- Services of one name in two namespaces share a role binding, and the account of the second is never
  bound (`OperatorPlan.SharedBindingIsNeverRepaired`, `OperatorPlan.BindingIsRightExactly`).
- A reply publish that raises leaves its delivery with nobody until the channel is lost
  (`ProtocolReplies.UnattendedExactly`, `ProtocolReplies.UnattendedUntilChannelLoss`).
- The operator means to write the schedule status only when it changed. Its deep comparison includes the
  location of the end time, so with the texts of the engine, which end in `Z`, a status is written on
  every reconcile (`TrafficSchedule.Resource.Reconcile`).
- The declared role does not let the operator delete four of the seven kinds it creates, so a cleanup
  leaves six objects behind (`FlavourRouter.DeclaredRoleLeavesSix`).
- When a schedule has run out, the delay is zero, which the controller runtime takes for no timer; the
  service waits for some other event (`FlavourRouter.RequeueAfter`).
- A request that has got its 504 can still be sent to the target, even for the first time
  (`ProtocolWitness.AllSendsLate`).

## Model

| member | source | states |
|---|---|---|
| `ProtocolRuns.ExactlyOnePlace` | buffer-service/consumer.py:140-185 | After any run, whatever forwards, pauses, reply publishes or channels failed: a routed message is in exactly one place (one queue, one unacknowledged delivery, acked, or expired), one that was not routed is nowhere, and an acked one has had a reply with its id published |
| `ProtocolRuns.MessagesStay` | buffer-service/consumer.py:162-182 | Conservation over every continuation: once routed, a message stays in exactly one place and keeps its queue and expiry |
| `ProtocolRuns.OutcomeIsFinal` | buffer-service/router.py:233-250 | At most one outcome: a request that was answered, timed out or failed to publish never changes again, in any continuation |
| `ProtocolRuns.AnswerIsItsOwn` | buffer-service/router.py:109-114 | In every reachable state the reply a request received carries its own correlation id and was published for its own message |
| `ProtocolAnswers.AnswersAreTheTargets` | buffer-service/consumer.py:145-181 | After any run, whatever was retried, redelivered or lost, the answer of a request has a status and a body that the target gave in this run to a handler of this very request |
| `ProtocolAnswers.RepliesAreTheTargets` | buffer-service/consumer.py:145-181 | The same of every reply ever published |
| `ProtocolAnswers.ResponseIsRelayed` | buffer-service/consumer.py:112-116 | A response with any status but 500, 502, 503 and 504 becomes the reply to be sent, status and body as they are |
| `ProtocolAnswers.FailureIsRetried` | buffer-service/consumer.py:117-122 | One of the four, or a retryable error, makes the handler sleep with its current delay, and fails the forward at the fifth attempt; any other error fails it at once |
| `ProtocolAnswers.DelaysDouble` | buffer-service/consumer.py:111-122 | The first delay is a second, and after each sleep, not before its end, the next send has the double |
| `ProtocolWitness.EveryAnswerIsReachable` | buffer-service/consumer.py:140-185 | For each of the six queues and every status and body that is not retried there is a run in which the requester is answered with just that, the message is acked and the table is empty |
| `ProtocolReplies.AnswersAreGenuine` | buffer-service/consumer.py:115-182 | After any run no published reply, and so no answer a requester got, carries one of the statuses that are retried |
| `ProtocolChannel.AtMostOneReply` | buffer-service/consumer.py:140-182 | In every run in which the channel holds and reply publishes succeed, no message is given two replies, whatever is retried and redelivered |
| `ProtocolRuns.LateRepliesAreHarmless` | buffer-service/router.py:109-114 | A reply that arrives, duplicate or late or out of order, touches no other request, completes its own one if that is still waiting, and otherwise completes nothing |
| `ProtocolRuns.TableHoldsOpenRequests` | buffer-service/router.py:199-244 | After any run the undone futures of the table are exactly the registered requests neither answered nor given up; any other entry belongs to a request whose wait is being cancelled |
| `ProtocolTable.EntriesLeft` | buffer-service/router.py:204-244 | Once all requests of a run have settled, the entries left in the table are exactly those of requests whose publish raised in the run and to whose id no reply arrived in it |
| `ProtocolTable.TableEmptyWhenSettled` | buffer-service/router.py:204-244 | So the table is empty if and only if each request whose publish raised had a reply arrive |
| `ProtocolTable.TableEmptyWithoutRaises` | buffer-service/router.py:204-244 | In every run in which no publish raises, the table is empty as soon as all requests have settled |
| `ProtocolRuns.FailedPublishLeaksEntry` | buffer-service/router.py:204-223 | A run of two events after which the only request has settled and its entry is still there, because its publish raised |
| `ProtocolReplies.UnattendedExactly` | buffer-service/consumer.py:167-182 | After any run a delivery on the current channel has no handler if and only if the publish of its reply raised |
| `ProtocolReplies.UnattendedUntilChannelLoss` | buffer-service/consumer.py:167-182 | Such a delivery stays with nobody in every continuation without channel loss: its message is not delivered again, not acknowledged and does not expire |
| `ProtocolRuns.RunKeepsInv` | buffer-service/consumer.py:190-281 | All invariants together (places, permits, truthfulness of replies, table, clocks) are kept by every run |
| `ProtocolRuns.ReachedHolds` | buffer-service/consumer.py:190-281 | All invariants hold in every state reached from the start |
| `ProtocolSafety.StepKeepsBroker` | buffer-service/consumer.py:157-182 | Each event keeps the agreement between the queues, unacknowledged deliveries, acks, expiries and the one place of each message, and ties each handler to the message of its own delivery |
| `ProtocolSafety.StepKeepsPermits` | buffer-service/consumer.py:210-216 | Each event keeps: the handlers inside the critical section of a queue plus its free permits are `CONCURRENCY` |
| `ProtocolSafety.StepKeepsReplies` | buffer-service/consumer.py:167-182 | Each event keeps: every reply in flight, about to be sent or behind an ack belongs to the message it answers |
| `ProtocolSafety.StepKeepsTable` | buffer-service/router.py:199-244 | Each event keeps the agreement between a coroutine, its future and its table entry |
| `ProtocolSafety.AcceptRoutes` | buffer-service/router.py:208-223 | Accepting a published message puts it into the one queue its headers name, or nowhere for an unknown flavour |
| `ProtocolPause.ForwardBeginsOnlyWhenEnabled` | buffer-service/consumer.py:252-265 | No event of any run begins to forward a buffered message in a state where the pause flag is off |
| `ProtocolPause.PausedOnlyNacks` | buffer-service/consumer.py:254-257 | A handler that saw the flag off does nothing in any continuation but nack, and its delivery is never handled again |
| `ProtocolPause.PausedStep` | buffer-service/consumer.py:254-257 | That nack publishes no reply, acks nothing, and on a live channel puts the message back into its queue |
| `ProtocolPause.DeliveryBeforeTimeout` | buffer-service/router.py:185-242 | When the broker reads the expiration in milliseconds, a message it can deliver belongs to a request that has not given up and whose timer cannot fire yet |
| `ProtocolLedger.DeadlinesOfRun` | buffer-service/router.py:185-242 | After any run a message expires its deadline in seconds after it was routed, in the broker's unit, and the timer of its request fires exactly when as many seconds have passed since its wait began, which was not earlier |
| `ProtocolPause.NoDeliveryAfterTimeout` | buffer-service/router.py:185-242 | After a request has timed out no continuation delivers its message (same reading) |
| `ProtocolChannel.SendsAfterTimeout` | buffer-service/consumer.py:109-122 | With the expiration in milliseconds and a channel that holds, a message is sent at most five more times after its requester has got the 504 |
| `ProtocolWitness.AllSendsLate` | buffer-service/consumer.py:210-216 | That bound is met: a run in which a delivery waits for its permit until the 504 and is then sent five times |
| `ProtocolWitness.DeadlineHonouredExactly` | buffer-service/router.py:185-219 | No reachable state can deliver the message of a timed-out request if and only if the broker reads one unit of the expiration as at most a millisecond |
| `ProtocolWork.BoundedWork` | buffer-service/consumer.py:93-122 | With a target that keeps failing in the retryable way and no channel loss, a message with deadline D is sent at most 5*ceil(D/15) times, and delivered at most ceil(D/15) times besides the deliveries that the pause flag turned away |
| `ProtocolWork.BoundedDeliveries` | buffer-service/consumer.py:157-165 | For the direct queues the bound ceil(D/15) holds for all deliveries |
| `ProtocolLedger.TallyCountsRun` | buffer-service/consumer.py:212-265 | After any run the tallies that the bounds speak about are the numbers of deliveries, of sends begun and of pauses, counted over the events of the run |
| `ProtocolWork.RunPaces` | buffer-service/consumer.py:109-122 | The invariant behind it: over every such run, attempts, sleeps, current time and remaining lifetime of each message stay in balance |
| `ProtocolWitness.DeliveriesBoundedExactly` | buffer-service/consumer.py:252-257 | The delivery bound holds for a queue type if and only if it is the direct one: a paused buffered message can bounce any number of times |
| `ProtocolWitness.BounceOften` | buffer-service/consumer.py:252-257 | For every k, a run from the start in which a message with a deadline of one second is delivered k times while the flag is off |
| `Retry.SendWithRetry` | buffer-service/consumer.py:109-122 | The loop, for any limit, first delay, factor and target: which attempts are made, how it ends, and each sleep |
| `Retry.FirstOtherAnswerDecides` | buffer-service/consumer.py:96-120 | While the target gives retryable errors or the statuses 500, 502, 503, 504 the loop goes on; the first other answer within the limit ends it, returned if it is a response and raised if not; without one the last failure is raised |
| `Retry.ReturnsExactlyOnFirstSuccess` | buffer-service/consumer.py:112-120 | A response comes back if and only if some attempt within the limit is not retryable with only retryable ones before it, and it is that one |
| `Retry.BackoffTotal` | buffer-service/consumer.py:121-122 | With factor 2 the sleeps of n attempts total d*(2^(n-1)-1) |
| `PendingTable.Router.Begin` | buffer-service/router.py:199-204 | Enters a fresh undone future under a fresh id and changes no other entry |
| `PendingTable.Router.OnMessage` | buffer-service/router.py:109-114 | Takes the id out of the table and completes its future if undone; every other future keeps its state |
| `PendingTable.Router.CancelWait` | buffer-service/router.py:234-236 | The cancellation inside `wait_for`: only an undone future changes |
| `PendingTable.Router.DropExpired` | buffer-service/router.py:236-237 | Takes the id out of the table and touches no future |
| `ProtocolSafety.ReplyTouchesOnlyItsRequest` | buffer-service/router.py:109-114 | The table operation that `OnMessage` implements leaves every other request alone |
| `BufferWorker.Worker.Run` | buffer-service/consumer.py:249-281 | For any sequence of flag values there is at most one live subscription, the tag agrees with the flag last read, and the operations are those of the specification |
| `BufferWorker.OperationsAlternate` | buffer-service/consumer.py:268-276 | Consume and cancel strictly alternate, starting with what the flag asks for, with one operation per change of the flag |
| `Routing.ExactRouting` | buffer-service/consumer.py:201-207 | Under all-headers matching (section 3.1.3.4 of AMQP 0-9-1) a message reaches exactly the one queue of its type and flavour, and none if the flavour is unknown |
| `Routing.MatchMeansSameTypeAndFlavour` | buffer-service/consumer.py:241-246 | A binding matches the published headers if and only if type and flavour agree, whatever namespace and service say |
| `Routing.QueueNamesDiffer` | buffer-service/consumer.py:63-65 | Two declared queue names are equal if and only if type and flavour are and the lower-cased `namespace.service` texts are, whatever dots these hold |
| `Routing.DotFreeNamesDiffer` | buffer-service/consumer.py:63-65 | When no namespace holds a dot, equal names mean equal lower-cased namespaces and services |
| `Routing.DotsCanCollide` | buffer-service/consumer.py:64-65 | With a dot in a namespace, service `c` of `a.b` and service `b.c` of `a` declare the same queues, for all such texts |
| `Routing.QueueNamesRead` | buffer-service/consumer.py:201-241 | The six declared names as they read |
| `Routing.TriggersNameDeclaredQueues` | operator/internal/controller/flavourrouter_controller.go:679-693 | The name in an autoscaling trigger is the declared one if and only if namespace and service are lower case |
| `FlavourRouter.Reconciler.Reconcile` | operator/internal/controller/flavourrouter_controller.go:69-152 | For any store, any faults and any answer of the List call: no Service, a disabled one, a failed or empty listing and an enabled one each have the outcome of `Reconciled`; when enabled, repaired plus still missing objects are those missing before, success means nothing is missing, and the service is requeued after the time left if that is positive and not at all otherwise |
| `FlavourRouter.LabelDecides` | operator/internal/controller/flavourrouter_controller.go:78-81 | In calm and with a schedule listed, a Service whose label `carbonshift/enabled` is `true` ends with nothing missing, and one with any other value or none ends without a managed object that may be deleted |
| `FlavourRouter.RequeueAfter` | operator/internal/controller/flavourrouter_controller.go:141-151 | The timer reconciles a service again if and only if the schedule has an end that is still ahead, and then right at that end |
| `FlavourRouter.Reconciler.Repeat` | operator/internal/controller/flavourrouter_controller.go:95-140 | Any number of passes over any faults: the balance and the frame hold throughout, at most 13 writes are made in all, counts set by the autoscaler survive, the role binding is right exactly if it was right or missing at the start, and with more listed passes than disturbed calls nothing is missing at the end |
| `FlavourRouter.Reconciler.EnsureAll` | operator/internal/controller/flavourrouter_controller.go:94-138 | All steps in order; an error at any of them leaves a balanced state, no error means all 13 objects match |
| `OperatorPlan.Advance` | operator/internal/controller/flavourrouter_controller.go:95-140 | One step extends the progress of a pass: each write lowers the number of missing objects by exactly one, nothing raises it, settled objects stay settled |
| `OperatorPlan.StepCounts` | operator/internal/controller/flavourrouter_controller.go:95-140 | The measure: missing objects after a step plus its writes are the missing objects before |
| `OperatorPlan.NothingMissingNothingWritten` | operator/internal/controller/flavourrouter_controller.go:95-140 | Idempotence: where nothing is missing, a pass writes nothing and changes nothing |
| `PlanCohesion.NothingMissingMeansInstalled` | operator/internal/controller/flavourrouter_controller.go:95-140 | Where nothing is missing every object of the plan is stored, with its selector and template, selector and ports, or whole spec |
| `FlavourRouter.Reconciler.EnsureExists` | operator/internal/controller/flavourrouter_controller.go:356-421 | Account and role binding: created with the wanted subject when missing, and otherwise left alone |
| `FlavourRouter.Reconciler.EnsureSpec` | operator/internal/controller/flavourrouter_controller.go:154-243 | Compare and replace the whole spec; at most one write, only when it differs, only to its own object, and labels of an existing object stay (the scaled objects at lines 611-811 have the same form) |
| `FlavourRouter.Reconciler.EnsureService` | operator/internal/controller/flavourrouter_controller.go:423-487 | The same, keeping the cluster address of an existing Service |
| `FlavourRouter.Reconciler.EnsureDeployment` | operator/internal/controller/flavourrouter_controller.go:489-609 | No lost replica update: however the autoscaler moves the count between the reads and the write, the count it last set survives, and one it never set stays as it was; a new deployment starts with one replica; a conflict is reported only after five attempts |
| `FlavourRouter.Reconciler.RetryOnce` | operator/internal/controller/flavourrouter_controller.go:595-605 | One attempt of the conflict-checked write; a conflict is reported only when somebody else wrote in between |
| `FlavourRouter.Reconciler.Cleanup` | operator/internal/controller/flavourrouter_controller.go:286-354 | Each managed object is gone afterwards or its deletion failed, nothing is created, nothing but what the role lets be deleted is touched; without faults exactly the refused deletions fail |
| `FlavourRouter.CleanUpLeavesRefused` | operator/internal/controller/flavourrouter_controller.go:286-354 | After a finished pass and a cleanup in which only deletions that the role refuses failed, whatever the autoscaler did: the managed objects of refused kinds are still there, the other managed ones are gone, and everything else is left to the autoscaler |
| `FlavourRouter.CreateThenCleanUp` | operator/internal/controller/flavourrouter_controller.go:286-354 | The round trip without faults and moves: besides the refused objects exactly the unmanaged ones are left, unchanged, and a store without managed objects is restored if and only if the role lets every managed kind be deleted |
| `FlavourRouter.DeclaredRoleLeavesSix` | operator/internal/controller/flavourrouter_controller.go:60-65 | With the declared role exactly the first six of the thirteen objects stay behind: account, role binding, both deployments and both Services |
| `FlavourRouter.OthersAreUntouched` | operator/internal/controller/flavourrouter_controller.go:157-158 | Non-interference: what is done for one service leaves all objects of a service whose name does not clash, and that Service itself, to the autoscaler alone, and brings it no further from its plan |
| `OperatorNames.CleanupMatchesManaged` | operator/internal/controller/flavourrouter_controller.go:291-347 | The 13 keys are pairwise distinct and the deleted keys are exactly these |
| `OperatorNames.DisturbsExactly` | operator/internal/controller/flavourrouter_controller.go:613-614 | Two services share a managed object, or one manages the other, if and only if `NamesClash`: a condition on the two names that can be read off them |
| `OperatorNames.OrdinaryNamesDoNotClash` | operator/internal/controller/flavourrouter_controller.go:749-750 | Different names that do not start with `buffer-service-` never clash |
| `OperatorNames.CrossingNames` | operator/internal/controller/flavourrouter_controller.go:664-665 | When the scaled object of a component of one service is that of a flavour of another, name by name |
| `OperatorPlan.PlanIsManaged` | operator/internal/controller/flavourrouter_controller.go:95-140 | The objects ensured are the managed keys, in order, all different |
| `PlanCohesion.ManagedNames` | operator/internal/controller/flavourrouter_controller.go:157-158 | Kind, namespace and name of the thirteen objects as they read |
| `PlanCohesion.PodsAreInPlace` | operator/internal/controller/flavourrouter_controller.go:489-573 | Across the plan: the pods of each deployment run under an account of their namespace that the plan creates and binds, forward to the service by its own name, are selected by their deployment, and have the debug flag and resources of their component |
| `PlanCohesion.ForwardsMeetRoutes` | buffer-service/consumer.py:50-58 | The host the consumer forwards to is the one the virtual service routes if and only if namespace and service are lower case |
| `PlanCohesion.ComponentsAreScaled` | operator/internal/controller/flavourrouter_controller.go:611-684 | The scaled object of each component aims at that component's deployment in the same plan, with limits, cooldown and CPU use of its configuration |
| `PlanCohesion.FlavoursAreScaled` | operator/internal/controller/flavourrouter_controller.go:745-785 | The same for each flavour, aiming at the deployment named after service and flavour |
| `PlanCohesion.ServicesExposePorts` | operator/internal/controller/flavourrouter_controller.go:436-446 | Both components expose the metrics port, and only the router the port for requests |
| `OperatorPlan.EveryQueueIsWatched` | operator/internal/controller/flavourrouter_controller.go:757-789 | With lower-case names the length of each direct queue and the backlog of each pausable one is watched by some scaled object under the name the consumer declares |
| `OperatorPlan.ConsumerWatchesDirectQueues` | operator/internal/controller/flavourrouter_controller.go:679-693 | The consumer's own scaled object watches all three direct queues under these names |
| `OperatorPlan.RoutesHitDeclaredSubsets` | operator/internal/controller/flavourrouter_controller.go:163-220 | Each forced flavour is routed to a subset that the destination rule for the same host declares, that of the flavour's own level |
| `OperatorPlan.SelectorIgnoresTheParent` | operator/internal/controller/flavourrouter_controller.go:449-463 | A buffer Service selects the pods of a deployment if and only if component and namespace are its own, of whatever parent service |
| `OperatorPlan.OwnPodsOnlyWhenAlone` | operator/internal/controller/flavourrouter_controller.go:449-463 | Among any set of services, a buffer Service selects only pods of its own parent if and only if no other of them lives in its namespace |
| `OperatorPlan.SharedBindingIsNeverRepaired` | operator/internal/controller/flavourrouter_controller.go:386-421 | With two services of one name in two namespaces: once a finished pass for the one has created the role binding, no part of any number of passes for the other, finished or not, binds the account of the other |
| `OperatorPlan.BindingIsRightExactly` | operator/internal/controller/flavourrouter_controller.go:383-421 | After any part of any number of passes, a role binding that is there binds the account of the service if and only if it did so at the start or was not there then; after a finished pass it is there |
| `FlavourRouter.BindInTwoNamespaces` | operator/internal/controller/flavourrouter_controller.go:383-421 | A run on an empty store in which both passes finish, nothing is missing for the second service, and the binding is that of the first |
| `ApiServer.MovesDrift` | operator/internal/controller/flavourrouter_controller.go:595-605 | Any moves of the autoscaler between two calls change replica counts only, raise the versions they touch, and are remembered |
| `ApiServer.Api.Update` | operator/internal/controller/flavourrouter_controller.go:595-605 | Optimistic concurrency: the write takes effect only on the version that was read |
| `DecisionEngine.FixSumTo100` | decision-engine/decision-engine.py:25-35 | In place: the first largest entry absorbs the difference, all others stay, the total is 100; the empty list raises |
| `DecisionEngine.Round10` | decision-engine/decision-engine.py:21-23 | The nearest multiple of ten, the even one on a tie |
| `DecisionEngine.GenerateWeights` | decision-engine/decision-engine.py:38-60 | Direct is its raw value rounded to tens, in 30..90, and queue the rest of 100; each flavour weight is its raw value rounded, except that the first largest is what the other two leave of 100; all are non-negative |
| `DecisionEngine.MakeSchedule` | decision-engine/decision-engine.py:62-73 | The schedule carries the five weights that the raw values of the step call for, and the deadlines 600, 120 and 40 seconds |
| `DecisionEngine.RepairHasRoom` | decision-engine/decision-engine.py:45-54 | For any three raw values in [20,80] that total 150 the rounded ones total 140, 150 or 160 and the other two never exceed 100 |
| `DecisionEngine.RepairStaysNonNegative` | decision-engine/decision-engine.py:25-35 | For any non-negative list the repair stays non-negative if and only if everything but the first largest entry totals at most 100 |
| `Rounding.RoundedIsUnique` | decision-engine/decision-engine.py:23-23 | The rounding specification (nearest, ties to even) admits one result |
| `TrafficSchedule.BuildRules` | operator/internal/controller/trafficschedule_controller.go:96-110 | Whatever order the map is walked in, the result is the name-sorted list of exactly the weighted flavours with their deadlines, 0 for a missing one |
| `Text.LessIsLexicographic` | operator/internal/controller/trafficschedule_controller.go:108-110 | The order of the sort is the lexicographic one: a proper prefix comes first, and otherwise the smaller character at the first difference |
| `TrafficSchedule.RuleListIsUnique` | operator/internal/controller/trafficschedule_controller.go:108-110 | Two name-sorted lists with the same rules are equal, so iteration order cannot change the status |
| `TrafficSchedule.TotalIsConserved` | operator/internal/controller/trafficschedule_controller.go:96-103 | The list carries the whole weight of the map |
| `TrafficSchedule.Resource.Reconcile` | operator/internal/controller/trafficschedule_controller.go:59-136 | Afterwards the status says what the engine says; it is left unwritten exactly when it said so before and the end time is absent or was parsed into local time; the next reconcile is due at the end of the schedule, a second later if that is past, and within a minute |
| `RequestPlan.ComprehensionsInvertRuleList` | buffer-service/router.py:163-169 | The comprehensions give back the maps the list was made of |
| `RequestPlan.LastRuleWins` | buffer-service/router.py:163-169 | For any list of rules: in both maps a name stands for its last rule, and a missing deadline means 60 seconds |
| `RequestPlan.PipelineRoundTrip` | buffer-service/router.py:163-169 | From engine to router: each weight, direct and queue weight come back unchanged, each weighted flavour has the engine's deadline, or 0 if that has none, and the totals agree |
| `RequestPlan.PlanRequest` | buffer-service/router.py:157-186 | When a request can be planned at all, and which type, flavour, deadline and expiration it may get |
| `RequestPlan.WeightedChoice` | buffer-service/common/utils.py:17-19 | Picks a key of positive weight, and raises if and only if there is none |
| `RequestPlan.FallbackNeedsForcedFlavour` | buffer-service/common/utils.py:22-29 | The fallback schedule serves a request if and only if its flavour is forced, because it holds no rules |
| `RequestPlan.EngineScheduleServesEveryRequest` | buffer-service/router.py:157-186 | With a schedule of the engine loaded every request can be planned, and every weighted flavour has a queue |
| `ScheduleCache.Manager.LoadOnce` | buffer-service/common/schedule.py:47-56 | A load replaces the whole document, a failed one leaves it |
| `ScheduleCache.PauseFlagIsHonouredOnlyWhenTrue` | buffer-service/common/schedule.py:90-96 | The flag of the resource is honoured if and only if it is true: the code reads another key, so a resource that asks for a pause is not obeyed |
| `ScheduleCache.PausesExactlyForZero` | buffer-service/common/schedule.py:90-96 | Consumption pauses if and only if the cached document holds 0 under the consumer's own key |
| `Carbonstat.HighPowerAvg` | carbonstat/flavours/high_power.py:9-14 | The rounded mean, none for an empty list |
| `Carbonstat.MediumPowerAvg` | carbonstat/flavours/medium_power.py:10-20 | The rounded mean of every second element |
| `Carbonstat.LowPowerAvg` | carbonstat/flavours/low_power.py:11-21 | The rounded mean of every fourth element |
| `Carbonstat.FullSumIsTotal` | carbonstat/flavours/high_power.py:12-13 | The sum with step 1 is the total of the list, defined from the back |
| `Carbonstat.ReplacingOne` | carbonstat/flavours/low_power.py:18-20 | Replacing the k-th element changes a strided sum by the difference if k is a multiple of the step, and not at all otherwise |
| `Carbonstat.ZerosSumToZero` | carbonstat/flavours/low_power.py:18-20 | The strided sum of zeros is zero, which with the line above fixes every strided sum |
| `Carbonstat.SamplingError` | carbonstat/flavours/medium_power.py:16-19 | For every step the sampled mean misses the full one by at most (step-1)/step of the spread |
| `Carbonstat.StrategyErrorBounds` | carbonstat/flavours/low_power.py:11-21 | Rounded on both sides: medium is within (max-min)/2 + 1 of high, low within 3(max-min)/4 + 1 |
| `Carbonstat.AvgWithin` | carbonstat/flavours/high_power.py:9-14 | Every result lies between the smallest and the largest element |
| `Carbonstat.CountIsCeiling` | carbonstat/flavours/low_power.py:16-20 | The sample holds ceil(n/step) elements |

## Left out

- `ProtocolWork.BoundedDeliveries`: stated for the direct queues only, because it is false for the pausable ones; `ProtocolWitness.DeliveriesBoundedExactly` proves the exact condition and `ProtocolWork.BoundedWork` what holds for both.
- `ProtocolPause.NoDeliveryAfterTimeout`: assumes the broker reads the expiration in milliseconds or finer, because it is false otherwise, by `ProtocolWitness.DeadlineHonouredExactly`.
- `ProtocolRuns.ExactlyOnePlace`: says nothing about messages on their way to the broker or returned as unroutable, because no queue ever holds them.
- `RequestPlan.WeightedChoice`: any key of positive weight may come out, because probabilities are not modelled; negative weights, which the engine never produces, are not either.
- `PendingTable.Router.CancelWait`: stands for the part of `asyncio.wait_for` that the router relies on, because the event loop itself is not part of this model.
- `FlavourRouter.Reconciler.Cleanup`: deletes the 13 keys in the source's order by one loop over the list `CleanupKeys`, because the source's thirteen blocks differ in the key only.
- `ApiServer.Api.Delete`: the role is a set of kinds, because nothing else in it matters here; the other verbs are taken as granted, as the declared role does (operator/config/rbac/role.yaml).
- `ProtocolSafety.StepKeepsPermits`: an ack or nack and the return of the permit are one event, because nothing but counters lies between them; a redelivery that meets the old handler on its way out would only wait a moment longer for its permit.
- `ScheduleCache.Manager.LoadOnce`: stands for the events of the watch too, because each replaces the document in the same way; `snapshot` is a read.
- `FlavourRouter.Reconciler.EnsureAll`: groups the steps of `Reconcile` into five methods, in the source's order, because one method would repeat the same reasoning 13 times.
- `OperatorPlan.Plan`: images, environment variables, annotations, polling intervals, authentication references, Prometheus addresses and thresholds are constants of the source and not part of a spec here.
- `Carbonstat.SamplingError`: the mean is exact, because the rounding of binary floats is not modelled; the data are integers.
- `DecisionEngine.GenerateWeights`: takes the sinusoids as any values with their range and sum, because trigonometry is not modelled.
- `TrafficSchedule.Resource.Reconcile`: takes from the Go and Kubernetes libraries, which are not part of this model, that a stored time is decoded into local time, that a text in `Z` is not, and that such times compare unequal; a missing and an empty rule list are not told apart, and a stored time keeps fractions of a second.
- Order within a queue, prefetch limits and a restarting consumer process are not modelled; the broker may deliver any ready message, and a restart is a channel loss after which the old handlers go on.
- Owner references and garbage collection, API defaulting, edits by users and stale informer caches are not modelled.
- The connection bootstrap of router and consumer, JSON and base64, metrics, logging and web frameworks.
- `expiry_guard` and `seconds_to_expiry`, `scheduler_loop` and the globals it updates.
- `time.Parse`, `sort.Slice` and Python's `index` and `max` appear as functions with the results the languages specify.
- Lower-casing is that of ASCII letters.
