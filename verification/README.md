# Adama: the durable work protocol and what is built on it

Adama is an event-driven reconnaissance pipeline. Workers subscribe to events on one stream, run a tool
for each eligible event, and publish what they find as new events. This project models the parts that
decide whether that is correct, and proves it for every input, run and interleaving:

* **The work protocol** (`Work*.dfy`). Any number of replicas share a revisioned record per task, a
  write-once outbox and the stream. `Work.dfy` is the step relation: one label per request, clock reading,
  handler call and crash, with every request that reports an error free to take effect at once, at any later
  time, or never. `WorkInvariant.dfy` is the inductive invariant, `WorkFencing`, `WorkRecord`, `WorkStream`,
  `WorkCounts` and `WorkLeases` its preservation, `WorkTheorems.dfy` what follows for every run,
  `WorkDecisions.dfy` why each write of the record is made and `WorkChanges.dfy` what it means,
  `WorkHandles.dfy` when a lease handle can be trusted (`WorkTwoLeases.dfy`: when not), `WorkAcks.dfy` when
  messages are acknowledged, `WorkIds.dfy` and `WorkSharedIds.dfy` what message IDs have to do with it,
  `WorkProgress.dfy` how many deliveries a task needs, `WorkOutcomes.dfy` what one undisturbed delivery
  does, field by field. `WorkBus.dfy` is the code itself (claim, the lease handle, process, publishResult)
  as classes and methods whose every effect is a step of that relation; `WorkDeliveries.dfy` calls it until
  the task is over.
* **What a delivery publishes** (`Outputs.dfy`, `Gates.dfy`): lineage, inherited gates, preparation.
* **Who is eligible** (`Rules.dfy`, `Registry.dfy`): the serialized input predicate, worker contracts and
  the registry bucket.
* **Coverage** (`Plans.dfy`, `PlanTheorems.dfy`, `SilentDrops.dfy`, `TaskSteps.dfy`, `Cluster.dfy`,
  `ClusterAcks.dfy`, `Coverage.dfy`, `Reports.dfy`, `Snapshots.dfy`, `CompleteReports.dfy`): the offline
  planner as a class with its five maps, exactly when an observation drops out of its report, the whole
  deployment (all tasks, the stream, the registry), and the snapshot that reads it piece by piece while it
  keeps running. The main result: a report that says "complete" certifies that the selected observations are
  closed under every registered worker.
* **The reconcile join** (`Reconcile.dfy`, `ReconcileStore.dfy`): store first, read second, in every
  interleaving.
* **Canonical identity** (`Text.dfy`, `Decimal.dfy`, `Hosts.dfy`, `Names.dfy`, `Urls.dfy`, `Canonical.dfy`,
  `CanonicalBinding.dfy`, `CanonicalTheorems.dfy`, `CanonicalAgreement.dfy`, `CanonicalMeaning.dfy`,
  `AsUrl.dfy`, `Nmapx.dfy`, `Identity.dfy`, `Endpoints.dfy`): parsers and printers, the canonical form of
  events, exactly when it is stable and agrees with itself, and the routes by which one endpoint becomes one
  task.
* **The redirect budget** (`Redirect.dfy`, `RedirectTasks.dfy`, `RedirectTight.dfy`): the hop loop, which
  responses become tasks, the exponential bound on the tree of runs, and responses that meet it.

`dafny verify dfyconfig.toml` checks everything.

## What is assumed

* Digests and JSON encodings are injective: keys are modelled by the values that go into them.
* `nuid.Next()` never repeats. Instants are natural numbers read from one shared clock that never goes
  back; a heartbeat may still fire after process has returned.
* The stores are linearizable: compare-and-swap on a revision counter that the whole bucket shares, a
  write-once outbox, an append-only stream from which messages may be removed but not changed.
* Messages are published under their event's ID, and one acknowledged as a duplicate appends nothing.
  `Work.Genuine` takes as duplicates only outputs that are on the stream already. `WorkIds.BrokeredIsRun`
  derives this for a broker that goes by message IDs from a hypothesis on handlers (`WorkIds.NewIds`):
  outputs have IDs that are distinct and used nowhere else. `Outputs.FreshOutputs` derives that from
  `nuid.Next()` where handlers leave IDs empty; `WorkSharedIds.PublishedIff` shows that it is needed.
* Handlers are otherwise arbitrary: they return any outputs and any error. The deployment as a whole
  (`Cluster.Allowed`), and with it closure, assumes that handlers set no scope of their own and give outputs
  IDs of their own or none, and, for observation sinks, that an event ID occurs in one scope.
* The planner's results on order and dropped names assume that a name event is named after its value;
  `CanonicalTheorems.NameAgreesIff` says when canonical events are.
* Addresses: `Hosts.Lawful` lists what is used of the IP parser. URLs follow a small grammar in place of
  `net/url` as of Go 1.26 (go.mod:3): brackets hold an IPv6 address, otherwise only the port has a colon in
  front; no user information, no percent escapes and ASCII only in the host; path, query and fragment are
  carried over unchanged. Lower case means ASCII.

## Where the code and its documentation differ

* The state diagram in sdk/WORKFLOW.md:5-15 enters `running` when a lease is acquired. In the code
  acquiring a lease leaves the status alone; `running` is written when the attempt is spent, and
  `running` and `retry_wait` can also go to `failed` when a budget is spent. `WorkTheorems.StatusStep`
  follows the code.
* sdk/WORKFLOW.md:54 says blockers are reconciled "in either order". `PlanTheorems.OrderIndependence`
  gives the exact condition. An observation can even drop out of the report altogether
  (`SilentDrops.SilentDropExample`); `SilentDrops.NoSilentDropIff` says exactly when.
* sdk/WORKFLOW.md:22 says that another replica defers an active lease. Because claim reads the clock
  twice, it acknowledges the message instead when the lease runs out in between:
  `WorkAcks.WorkCanBeLost` is such a run, `WorkAcks.DeclineLosesIff` says exactly when it happens.


## Model

| member | source | states |
|---|---|---|
| `WorkTheorems.InitialInv` | sdk/work.go:72-151 | The empty deployment satisfies the protocol's invariant: fencing, fresh identities, justified writes in flight, sound record, saved batches, stream order, accounting, budgets, leases |
| `WorkTheorems.InvStep` | sdk/work.go:245-414 | Every step of any replica (claim, heartbeat, attempt, handler, save, publish, index, retry, finish, ack, crash, clock) and every late effect of a request that reported an error keeps that invariant |
| `WorkTheorems.EveryRun` | sdk/work.go:245-414 | The invariant holds after every run of any number of replicas |
| `WorkTheorems.RecordStep` | sdk/work.go:90-108 | Each step leaves the record alone or replaces it, at the next revision, by exactly one change that was correct for the contents it replaced |
| `WorkTheorems.StatusStep` | sdk/work.go:262-413 | The status moves only along the code's edges; publishing never returns to running except through retry_wait; attempts are spent only from running or retry_wait; a terminal record only has its timestamp renewed |
| `WorkChanges.StepMeaning` | sdk/work.go:90-414 | Every write of the record in every run, delayed requests included, is one of eleven kinds (opened, claimed, renewed, attempt spent, publishing, pass spent, output counted, put off, rescheduled, succeeded, given up), each with the fields it changes, their values, and what its author had found out: the limits, the saved batch, the clock it had read |
| `WorkChanges.CreatedMeans` | sdk/work.go:115-140 | A record appears with no attempts, the limits of the replica whose claim took effect, the identity of its event, and a deadline one retry window after the instant that delivery had read the clock; a claim that lands late included |
| `WorkChanges.RetryWaitMeans` | sdk/work.go:393-404 | A step takes a task into retry_wait only if the batch saved under the result key it clears is published and reports an error that may be retried, attempts are left, and the clock was before the deadline when a delivery read it for this (the write itself may come later) |
| `WorkChanges.FailedMeans` | sdk/work.go:279-413 | A step fails a task only for the saved batch's error (not to be retried, or no attempt left, or the deadline come), for outputs left without a publication pass, or for a spent execution budget; the reason is recorded |
| `WorkChanges.AttemptMeans` | sdk/work.go:279-297 | An attempt is spent only with attempts left, after a clock reading not past the deadline, under a result key nothing was saved under |
| `WorkChanges.WriteTime` | sdk/work.go:90-108 | A write carries the clock reading it was made with, also when it takes effect late |
| `WorkChanges.BudgetsGiven` | sdk/work.go:115-118 | In every run the limits in the record are those of one delivery that was made, its deadline is that replica's window after its creation |
| `WorkTheorems.BudgetsFixed` | sdk/work.go:29-30 | Replay, duplicate inputs and replacement replicas with other limits never change the budgets, the deadline or the identity fixed when the record was created; a field of the identity that was empty may be filled in |
| `WorkTheorems.TerminalFrozen` | sdk/work.go:167-174 | Once completed or failed, no field but `Updated` ever changes again, late heartbeats and late writes included |
| `WorkTheorems.OneCurrentHandle` | sdk/work.go:90-108 | Of all lease handles ever issued for a task at most one carries the current revision, and its copy is the record |
| `WorkHandles.HandleOwnsIff` | sdk/work.go:90-108 | Of every handle ever issued, returned and crashed deliveries included: while its own copy has not expired it owns the record, at least as long, unless a write that released it was reported to have failed and took effect later; exactly then it does not |
| `WorkHandles.LeaseExclusive` | sdk/work.go:125-150 | Of all handles ever issued for a task at most one that was not released in that way is unexpired |
| `WorkHandles.TwoNeedLateRelease` | sdk/work.go:102-107 | A run that reaches two unexpired handles contains a releasing write of one of them that landed late |
| `WorkHandles.ActiveNotReleased` | sdk/work.go:207-212 | Deliveries that process has not returned from have released nothing in that way, so at most one of them holds an unexpired lease |
| `WorkTwoLeases.TwoUnexpiredHandles` | sdk/work.go:102-107 | A run with such a late release, at the end of which two handles look unexpired |
| `WorkTheorems.OvertakenNeverWrites` | sdk/work.go:102-107 | A handle whose revision is behind stays behind and never writes the record again, neither now nor by a delayed request |
| `WorkTheorems.ExecutionBudget` | sdk/work.go:279-297 | Handler calls never exceed the attempts durably spent, which never exceed the MaxAttempts stored at creation; publication passes never exceed MaxAttempts times MaxPublishAttempts |
| `WorkTheorems.PublicationBound` | sdk/work.go:354-392 | Over all replicas, stale ones included, a saved batch of n outputs costs at most n + MaxPublishAttempts publish calls, one fewer once the task is completed; its copies on the stream never exceed its calls |
| `WorkTheorems.ExactAccounting` | sdk/work.go:368-400 | If the broker drops nothing but outputs that are on the stream already: the distinct outputs a task has put on the stream number Emitted or Emitted + 1, and exactly Emitted while running, in retry_wait or completed |
| `WorkTheorems.FirstCopiesInOrder` | sdk/work.go:368-392 | Only saved outputs are published, and first copies appear in batch order |
| `WorkTheorems.CompletedMeansPublished` | sdk/work.go:393-413 | Under the same condition: completed means no error, a saved batch without error, and every output of it on the stream |
| `WorkIds.BrokeredIsRun` | sdk/sdk.go:90-101 | The condition holds for a broker that drops what has a message ID it has seen, from whatever source, if handlers return outputs with IDs that are distinct and used nowhere else |
| `WorkIds.AccountedById` | sdk/sdk.go:90-101 | So with such a broker and such IDs outputs are accounted for exactly and a completed task has published them all, in every run |
| `WorkSharedIds.PublishedIff` | sdk/sdk.go:90-101 | And only so: one undisturbed delivery with any outputs, whatever IDs they have, ends completed with all of them counted as emitted; they are on the stream, and the count is right, exactly if the IDs are distinct and nobody else's |
| `Outputs.FreshOutputs` | sdk/sdk.go:108-110 | The batch that is built from a handler's outputs has such IDs if those the handler gave, and those nuid adds where it gave none, are distinct and new |
| `WorkTheorems.PublishingMeansSaved` | sdk/work.go:272-278 | Publishing means the batch is saved; the branch that fails a task for a missing saved output is never reached |
| `WorkTheorems.OutboxWrittenOnce` | sdk/work.go:335-346 | An outbox entry is never replaced or removed |
| `WorkAcks.NoLostWork` | sdk/work.go:245-285 | If no lease or backoff runs out between claim's two clock readings, a message is acknowledged only when its task is durably terminal |
| `WorkAcks.DeclineLosesIff` | sdk/work.go:125-133 | Declining unfinished work leads to its acknowledgement exactly when the lease or backoff that was the reason runs out between the two readings |
| `WorkAcks.WorkCanBeLost` | sdk/work.go:115-133 | A run of two replicas that ends with the message acknowledged, the task unfinished and nobody working on it |
| `ClusterAcks.NoWorkLost` | sdk/work.go:416-452 | The same for the whole deployment: in every such history a message a worker is eligible for is acknowledged by it only when its task for that event is terminal |
| `WorkProgress.ServeDecreases` | sdk/work.go:245-414 | Each undisturbed delivery of an unfinished task lowers a measure over status, attempts left and saved batch, whatever the handler returns |
| `WorkProgress.FaultFreeProgress` | sdk/work.go:245-414 | MaxAttempts - Attempts + 1 undisturbed deliveries make any task terminal |
| `WorkProgress.ProgressBoundTight` | sdk/work.go:394-404 | The bound cannot be lowered: a task whose handler keeps failing transiently is still not terminal one delivery earlier |
| `WorkOutcomes.ServeOutcome` | sdk/work.go:262-413 | One undisturbed delivery field by field: a saved batch is resumed and never executed again; without one the handler runs exactly if attempts are left and the deadline has not passed; the outputs left are published in one pass if one is left; and the task ends in retry_wait, completed or failed exactly as the batch's error, its retry flag, the attempts and the deadline say |
| `WorkOutcomes.InterruptedRuns` | sdk/work.go:279-312 | As long as attempts are left and the retry window after its creation is open, an undisturbed delivery of an interrupted task runs the handler, however short the leases are |
| `WorkDeliveries.DeliverAll` | sdk/work.go:245-414 | The code itself, called that often in an undisturbed system, whatever the handler returns, leaves the task completed or failed |
| `WorkBus.WorkLease.Update` | sdk/work.go:90-108 | Compare-and-swap: either the edit is in the record and in the handle at the new revision, or the handle is unchanged and the delivery ends; both are protocol steps |
| `WorkBus.WorkLease.Wait` | sdk/work.go:153-183 | Between requests the heartbeat of this lease, the other replicas and late requests may act; this delivery's position is untouched and its task only has its lease renewed |
| `WorkBus.ClaimLease` | sdk/work.go:110-151 | Claim: a handle that owns the record, a delay, or (delay not positive) the acknowledgement of declined work; in a calm system an idle task is claimed for the full lease duration over the stored record, or as a new task with this replica's limits and deadline |
| `WorkBus.DeclineClaim` | sdk/work.go:125-133 | The delay of a declined claim is what is left of the lease or backoff at a second clock reading, and its sign alone decides between nak and ack |
| `WorkBus.LoadResult` | sdk/work.go:191-205 | The saved batch under the task's result key is found or missing as the outbox says; a failed read ends the delivery |
| `WorkBus.Recover` | sdk/work.go:272-297 | Without a saved batch: fail the task if the output was due, or if no attempt is left or the deadline has passed; otherwise spend one attempt under a fresh result key before anything else |
| `WorkBus.Execute` | sdk/work.go:298-346 | The handler's batch is in the outbox under the attempt's key before anything is published |
| `WorkBus.PublishOne` | sdk/work.go:368-392 | One output: published, then the index moved by one and Emitted by one; a failed publish or a cancellation releases the lease and sends the message back |
| `WorkBus.PublishRest` | sdk/work.go:368-414 | The loop resumes at the persisted index and publishes each remaining output once; the outcome in a calm system is that of the specification |
| `WorkBus.PublishResult` | sdk/work.go:354-414 | A pass is spent only if outputs are left; an exhausted publication budget fails the task and keeps the saved output |
| `WorkBus.Close` | sdk/work.go:393-413 | With all outputs published the task is rescheduled and the message sent back exactly for an error that may be retried, with attempts left before the deadline; otherwise it is completed or failed, and acknowledged |
| `WorkBus.Process` | sdk/work.go:245-352 | Every effect of a delivery is a step of the protocol, whatever happens around it; "acked" means the message was acknowledged through that protocol; in a calm system the result is exactly one Serve, and the outcome, field by field, that of WorkOutcomes |
| `Outputs.Build` | sdk/work.go:316-334 | The loop over the handler's outputs computes the batch of all prepared outputs in order |
| `Outputs.BatchedExact` | sdk/work.go:328-333 | The batch holds exactly the valid outputs; one invalid output makes the execution a terminal failure without losing its siblings |
| `Outputs.OutputLineage` | sdk/work.go:317-327 | Every published output carries the tool, parent event, run and execution it came from, whatever the handler wrote there |
| `Outputs.OutputOrigin` | sdk/work.go:316-328 | Probe and input are the handler's, or else the task's; an output of no parent and no run starts a run of its own; none exceeds the payload limit |
| `Outputs.OutputCurrent` | sdk/work.go:316-319 | An output without a version is of the current one: its metadata are not searched for a target |
| `Outputs.OutputScope` | sdk/work.go:327-328 | An output without a scope of its own has its parent's scope, also after preparation |
| `Outputs.OutputDerived` | sdk/work.go:327-328 | What is published, and what any reader makes of it, derives from its parent: the parent's gates where the handler set none |
| `Outputs.PrepareKeeps` | sdk/sdk.go:103-122 | Preparation keeps lineage and every control key but host and port, keeps a given ID and fills in a missing one |
| `Outputs.NeverEligibleDownstream` | sdk/work.go:327-328 | When handlers add no gates of their own (or only those of a fact they join), a tool denied on an event is never eligible for anything derived from it, in any number of generations |
| `Gates.SplitList` | event/event.go:239-251 | The splitting loop computes the list of trimmed nonempty entries |
| `Gates.SplitJoinMetaList` | event/event.go:239-253 | A list of entries survives being joined with commas and split again |
| `Gates.CheckAllowed` | event/event.go:208-224 | The two scans decide exactly: not denied, and allowed if anything is |
| `Gates.AllowNames` | event/event.go:208-224 | Of an allow list written from entries, exactly those entries may run |
| `Gates.DenyNames` | event/event.go:208-224 | No entry of a deny list may run, whatever the allow list says; a deny list alone keeps nobody else out |
| `Gates.OpenGates` | event/event.go:208-224 | Without gates every tool may run |
| `Gates.AllowedIsNamed` | event/event.go:208-224 | For all metadata, however written: a tool may run if and only if it is not among the denied and, where the allow list has entries, is one of them |
| `Gates.InheritLookup` | event/event.go:226-237 | Allow, deny, scope and profile come from the parent exactly where the child leaves them empty; nothing else changes |
| `Gates.Intersect` | internal/reconcile/reconcile.go:118-142 | The loop computes the intersection, or reports that there is none |
| `Gates.GatesExact` | internal/reconcile/reconcile.go:118-142 | Through the comma lists, the intersection admits a tool exactly when both sides do; it is refused exactly when both allow lists are nonempty and disjoint |
| `Gates.JoinedRest` | internal/reconcile/reconcile.go:136-141 | A joined fact has the scope of the first one, and a profile only if both have the same |
| `Gates.DeniedChild` | event/event.go:226-237 | Inheritance never lets a tool see an output of an event it may not see, joins included |
| `Rules.Validate` | sdk/rule.go:88-129 | Counting modes and looping over children decides validity at every depth |
| `Rules.RereadMatches` | sdk/rule.go:71-85 | A valid rule matches the same events after a trip through its omit-empty JSON |
| `Rules.RereadValid` | sdk/rule.go:87-129 | And is still valid |
| `Rules.EncodeReread` | sdk/registry.go:90-93 | Reading a rule back and writing it again gives the same JSON, so the fingerprint is stable (for every rule, valid or not) |
| `Rules.UnvalidatedRuleChanges` | sdk/rule.go:14-21 | Validation is needed: an empty `any` matches nothing before the trip and everything after it; registration, which validates, keeps such a rule from any reader |
| `Rules.NestingLimit` | sdk/rule.go:88-128 | A rule nested n deep is valid if and only if n is at most 16 |
| `Rules.BranchLimit` | sdk/rule.go:88-128 | All and any take one to 64 branches |
| `Rules.FieldLimit` | sdk/rule.go:88-128 | A field rule is valid if and only if it names one of the fourteen fields, and either asks for presence or lists values |
| `Rules.FieldsRead` | sdk/rule.go:33-69 | Which part of an event each field is compared with |
| `Registry.ReadAgrees` | sdk/registry.go:50-69 | The contract read back from the registry matches, admits and keys events exactly as the worker's own configuration does |
| `Registry.EligibleIff` | sdk/registry.go:56-69 | Who is eligible, in the event's own fields: kind, rule, deny list, allow list, liveness and binding, and nothing else |
| `Registry.DedupKeyIff` | event/event.go:198-205 | Two events have one key if and only if they have the same tool, kind, value, scope, endpoint, name with its role, names sent, and TLS flag |
| `Registry.WorkKeyIff` | sdk/work.go:72-77 | Observation sinks see every event once, other workers every subject once |
| `Registry.ReadableIff` | sdk/registry.go:73-88 | A registration is read if and only if its version, name, kinds and rule are valid and its fingerprint is that of its own contents |
| `Registry.DefineOrder` | sdk/registry.go:50-55 | Replicas that list the same kinds in any order register the same contract |
| `Registry.WrittenIsReadable` | sdk/registry.go:147-160 | Whatever passes validation passes every check a later reader makes |
| `Registry.DefineStable` | sdk/registry.go:50-59 | Turning a definition into a configuration and back changes nothing |
| `Registry.Bucket.Register` | sdk/registry.go:98-131 | Create, get and compare-and-swap, with other provisioning in between: idempotent for the same contract; a different contract under a registered name is an error unless explicitly replaced, and a replacement overwrites exactly the entry it was compared with |
| `Registry.Bucket.Compare` | sdk/registry.go:113-130 | The taken name: same fingerprint, refused, replaced, or overtaken by another provisioning |
| `Registry.Bucket.SetInventory` | sdk/registry.go:182-197 | Accepts exactly valid names, and no empty ready inventory; stores them sorted without repetition |
| `Registry.Registrations` | sdk/registry.go:133-165 | Every worker's contract in name order, or nothing if one entry is unreadable |
| `Plans.Planner.Observe` | internal/coverage/coverage.go:91-138 | One observation updates the five maps as the specification says |
| `Plans.Planner.Report` | internal/coverage/coverage.go:140-155 | The expectations are the ready work and the blockers that no later evidence removed |
| `Plans.ReasonReports` | internal/coverage/coverage.go:140-155 | An item is reported with the reason its blocker was filed for, and ready work with none |
| `PlanTheorems.ReadyExactly` | internal/coverage/coverage.go:97-125 | The ready keys are exactly the work keys of eligible pairs, each kept with a pair it stands for |
| `PlanTheorems.PlannerAgreesWithRuntime` | sdk/work.go:434-438 | Over the contracts as read back from the registry, the ready keys are those of exactly the pairs the runtime's own test finds eligible |
| `PlanTheorems.EvidenceExactly` | internal/coverage/coverage.go:98-122 | The live and bound sets contain exactly what some observation proves |
| `PlanTheorems.UnknownExactly` | internal/coverage/coverage.go:91-96 | The unknown names are those in some allow list that no tool answers to |
| `PlanTheorems.BlockedExactly` | internal/coverage/coverage.go:98-137 | A prerequisite is blocked exactly when some observation blocks it, apexes of domains included |
| `PlanTheorems.LastBlocks` | internal/coverage/coverage.go:119-134 | The last observation that blocks a prerequisite decides which blocker is kept |
| `PlanTheorems.OrderIndependence` | internal/coverage/coverage.go:91-155 | The reported items and reasons are the same for every order of the same observations if and only if no bound and unbound name with the same address both wait without being live |
| `SilentDrops.KeptWhy` | internal/coverage/coverage.go:97-137 | For every sequence of observations: a key is filed under the reason of the last observation, or apex, that blocks it |
| `SilentDrops.ReadyOrWaiting` | internal/coverage/coverage.go:97-125 | Every observation that matches a tool is ready for it, if it is eligible, or files a blocker for its subject |
| `SilentDrops.ApexAsked` | internal/coverage/coverage.go:126-137 | A domain files a blocker for its bare name for every matching tool that needs live or resolved inputs; it is kept unless the name is seen live, or is bound while the last blocker still waits for resolution |
| `SilentDrops.NothingAsked` | internal/coverage/coverage.go:97-137 | A tool that needs neither never has anything blocked |
| `SilentDrops.ReportedIff` | internal/coverage/coverage.go:141-155 | A subject has an item exactly when some observation of it can be worked on, or its last blocker waits for liveness, or that waits for resolution and nothing binds the name |
| `SilentDrops.WaitingIff` | internal/coverage/coverage.go:119-152 | What waits for liveness is reported exactly when it is live after all or the last blocker filed for its subject waits for liveness too; an unbound observation of the same name and address that comes after the last bound one hides it, whatever else follows |
| `SilentDrops.NothingDroppedIff` | internal/coverage/coverage.go:97-155 | For every tool: all matching observations are accounted for exactly when waiting bound names come last and every unbound name whose blocker a binding removed has an item, or a bound observation with one, in its place |
| `SilentDrops.NoSilentDropIff` | internal/coverage/coverage.go:106-155 | For a tool that needs live inputs and takes unbound names: every matching observation leaves an item for its own subject or, if it is an unbound name, for a bound observation of that name, if and only if each waiting bound name is live or came last |
| `SilentDrops.NoSilentDrop` | internal/coverage/coverage.go:106-155 | In particular where no bound and unbound name with the same address both wait without being live |
| `SilentDrops.SilentDropExample` | internal/coverage/coverage.go:149-152 | Where it fails: two observations of one name at any one address that leave no item at all |
| `SilentDrops.ExampleCanonical` | internal/coverage/coverage.go:238-242 | Both are in canonical form, so this is what the planner receives |
| `SilentDrops.FilteredDropExample` | internal/coverage/coverage.go:98-105 | And for a tool that needs bindings: a binding its rule does not match removes the blocker of the name, in any order, and leaves nothing in its place |
| `TaskSteps.AdvancedStep` | sdk/work.go:245-414 | Seen from outside, a step of a task only adds: counters grow, the record changes only with the bucket's revision, saved batches stay, new stream copies are saved outputs, deliveries keep their input |
| `TaskSteps.ScopesStep` | sdk/work.go:316-334 | When handlers set no scope, everything a task has saved or is about to save carries the scope of an input that was delivered to it |
| `Cluster.CoherentRun` | sdk/work.go:416-452 | In every history of the deployment, with a broker that goes by message IDs: every task is a run of the protocol keyed by its inputs, every output has an ID of its own, every copy it published is on the stream, every stream copy is one of its saved outputs, and nothing written is unwritten |
| `Coverage.SelectionIff` | internal/coverage/coverage.go:216-262 | The selection is what is retained, readable and in the scope asked for, of those scopes in which there is an observation of the run asked for |
| `Coverage.StableMeansUnchanged` | internal/coverage/coverage.go:321-333 | Equal first, last and count at both ends mean the stream was the same at every instant in between |
| `Coverage.OutputsFollow` | internal/coverage/coverage.go:222-224 | In such a deployment a completed task's outputs are all on the stream and belong to the selection its input belongs to (observation sinks: if IDs name one scope) |
| `Snapshots.ReadRegistry` | internal/coverage/coverage.go:165-200 | What was read of the registry describes it whenever its last revision is still the same |
| `Snapshots.ReadStream` | internal/coverage/coverage.go:227-257 | Message by message while the stream goes on: the observations, scopes and gaps of the messages as they were when read; an unreadable message ends the report |
| `Snapshots.Plan` | internal/coverage/coverage.go:258-264 | The planner has seen exactly the observations in the selected scopes |
| `Snapshots.Inspect` | internal/coverage/coverage.go:275-300 | One item per expectation, counted by state; if the work bucket did not move, each item describes its current record |
| `Snapshots.Conclude` | internal/coverage/coverage.go:321-337 | Stable means the counters did not move; complete means stable, no warning, at least one item, and every item completed |
| `Reports.CompleteCloses` | internal/coverage/coverage.go:337-337 | A faithful report without warnings whose items are all completed means: nothing was removed, every selected observation is done for every registered eligible worker, with evidence where owed, and all outputs of the final runs are selected too |
| `Reports.CompleteProves` | internal/coverage/coverage.go:172-199 | And then the deployment is complete, too: workers are registered, the inventory is recorded and ready, and every worker in it has registered |
| `Reports.WarningsMeaning` | internal/coverage/coverage.go:172-270 | A faithful report carries each warning if and only if it is due at the instant it speaks of: no workers, no inventory, an incomplete one, an expected worker missing, history removed, a gap in what is retained, nothing selected, an allow list naming a worker that is not registered |
| `Reports.ItemsMeaning` | internal/coverage/coverage.go:276-302 | Each item says how the task stands of a pair that is eligible (unclaimed, its status, completed without the evidence owed, or its lease expired), or what its subject waits for |
| `CompleteReports.CompleteCoversIff` | internal/coverage/coverage.go:141-155 | What completed items say about names that wait: for a worker that needs live inputs and takes unbound names, every matching selected observation has been worked on, for its own subject or for a bound observation of the name it mentions, if and only if each waiting bound name is live or came last |
| `Snapshots.Snapshot` | internal/coverage/coverage.go:160-347 | While the deployment keeps running: a stable report is an exact function of one instant during the call, each warning and item included; it is complete if and only if it is stable, without warnings, and has items all of which are completed; and then it certifies closure and a complete deployment at that instant |
| `Reconcile.AcceptIff` | internal/reconcile/reconcile.go:29-64 | The serialized input rule accepts exactly the foreign events with a host that the handler's switch has a key for |
| `Reconcile.JoinIff` | internal/reconcile/reconcile.go:101-116 | A name and a port join if and only if the name is bound to the port's address in its scope, some tool may see both, and the endpoint can be written |
| `Reconcile.JoinMeans` | internal/reconcile/reconcile.go:101-116 | And give that port under the requested name, citing both facts |
| `Reconcile.NoJoinMissed` | internal/reconcile/reconcile.go:42-99 | In every interleaving, if a name handler and a port handler of a joinable pair both succeed, one of them has emitted the join |
| `Reconcile.JoinsExact` | internal/reconcile/reconcile.go:42-116 | Once every delivered event has been handled, the joins that the handlers returned are, up to evidence IDs, exactly those of the joinable pairs |
| `Reconcile.OrderDoesNotMatter` | internal/reconcile/reconcile.go:42-99 | The handlers of two histories that handled the same events returned the same joins |
| `Reconcile.JoinGates` | internal/reconcile/reconcile.go:101-116 | A join admits a tool exactly when both facts do |
| `ReconcileStore.Store.Handle` | internal/reconcile/reconcile.go:45-99 | Stores its fact, then joins it with every opposite fact of one later snapshot; each effect is a step of the interleaving model |
| `Hosts.CanonFQDNSettled` | event/event.go:60-64 | One call is enough exactly when the text does not end in two dots, or in a space and a dot |
| `Hosts.TwoDots` | event/event.go:60-64 | A text that needs two calls |
| `Hosts.SplitPortValue` | event/event.go:93-129 | Splitting undoes printing exactly for hosts whose canonical text does not start with a bracket |
| `Hosts.CanonPortSettles` | event/event.go:152-168 | Rewriting a port value a second time changes nothing exactly when its host is an address, or a name that settles, does not turn into an IPv6 address and has no misleading bracket |
| `Hosts.CheckName` | event/target.go:142-157 | The nested loops decide exactly the valid DNS names |
| `Names.ValidNameIff` | event/target.go:142-157 | Valid names character by character: at most 253 small letters, digits, hyphens, underscores and dots, no dot or hyphen at an end, none next to a dot, and a dot in any 64 characters in a row |
| `Names.TrimSpaceExact` | event/event.go:60-64 | Trimming takes away the surrounding space and nothing else |
| `Names.CanonFQDNExact` | event/event.go:60-64 | The canonical name is the name without surrounding space and one trailing dot, in small letters |
| `Names.PortValueIff` | event/event.go:115-129 | An endpoint can be written for a port from 1 to 65535 and a host that is not blank; only IPv6 addresses are bracketed |
| `Urls.ParsePrint` | event/target.go:182-207 | What is printed for any authority, path, query and fragment reads back as that authority and that rest |
| `Urls.CanonURLIff` | event/target.go:182-205 | Accepted are URLs with a host that is not blank and no port or one from 1 to 65535 |
| `Urls.CanonURLReads` | event/target.go:182-207 | Every accepted URL's canonical text reads back as the same scheme, the canonical host, the same port and rest |
| `Urls.CanonURLSettles` | event/target.go:182-207 | It is its own canonical form exactly if the host is an address, or a name that is not just a dot and does not end in two |
| `Urls.URLTargetIff` | event/target.go:210-215 | The second parse cannot fail: every accepted URL names a target |
| `Urls.URLTargetNames` | event/target.go:210-233 | What an accepted URL names: its canonical host as an address or as a requested name, its written or implied port, TLS server name only for https names |
| `CanonicalBinding.CanonTargetAgain` | event/target.go:97-140 | An accepted target's canonical form is its own exactly if its URL and its server name reach theirs in one call |
| `CanonicalBinding.BindBinds` | event/target.go:159-180 | Binding fills gaps and alters nothing that was given; the target then has the port and the address or name of the value, and binding it again changes nothing |
| `CanonicalMeaning.TargetIff` | event/target.go:97-137 | Which targets are accepted, field by field |
| `CanonicalMeaning.RoleMeans` | event/target.go:105-116 | A name given without a role is only observed, so that it binds nothing; roles that are given stay |
| `CanonicalMeaning.BindIff` | event/target.go:159-180 | A value is refused exactly when the target names another port, another address, or another name |
| `CanonicalMeaning.GivenService` | event/target.go:313-335 | A service given next to the value is the one in the value, up to case |
| `CanonicalMeaning.GivenAddressAgrees` | event/target.go:292-296 | An address event is at its own address and at no other |
| `CanonicalMeaning.GivenURLAgrees` | event/target.go:336-345 | A URL given next to the value has the same canonical form |
| `CanonicalMeaning.PortProto` | event/target.go:304-312 | Without a protocol a port is a TCP port |
| `CanonicalMeaning.WebFills` | event/target.go:336-358 | A URL fills in protocol, Host header and server name where the event leaves them open, and only there |
| `CanonicalMeaning.ValueIs` | event/event.go:137-184 | The canonical value of each kind; other kinds are refused |
| `CanonicalMeaning.VersionIs` | event/event.go:131-134 | Versions 0 to 2 are read, version 2 is written |
| `CanonicalMeaning.PortMetaIs` | event/event.go:155-170 | A port event's metadata repeat its canonical host and its port |
| `CanonicalMeaning.InfoMeans` | event/target.go:249-261 | Metadata that control nothing become evidence, and evidence that was given stays |
| `CanonicalMeaning.LegacyMeans` | event/target.go:262-286 | An event of an earlier version is the current event whose endpoint, service and TLS flag are read from its metadata where it gives none |
| `Canonical.CopyInfo` | event/target.go:250-260 | Metadata that is not control data is copied to info where info has no entry, in any order |
| `CanonicalTheorems.CanonIdempotentIff` | event/event.go:131-186 | For events of every kind whose other host names settle in one call: Canonical's result is its own canonical form exactly if the hosts in the value settle (the next four rows, and always for addresses, netblocks and findings) |
| `CanonicalTheorems.NameIdempotentIff` | event/event.go:137-143 | For names: exactly when the value settles in one call |
| `CanonicalTheorems.NameAgreesIff` | event/target.go:301-307 | An accepted name event is named after its value exactly when the value settles in one call |
| `CanonicalTheorems.PortIdempotentIff` | event/event.go:152-168 | For ports: exactly when the host keeps its text |
| `CanonicalTheorems.ServiceIdempotentIff` | event/target.go:317-341 | For services: exactly when the host is an address, or does not end in two dots (or a space and a dot) and losing its dot does not turn it into an address, unless the event gives that address for its target |
| `CanonicalTheorems.WebIdempotentIff` | event/target.go:342-365 | For URLs and screenshots: exactly when the host is an address, or does not end in two dots |
| `CanonicalAgreement.PortNumberIff` | event/target.go:308-316 | An accepted port event carries the port of its value exactly when its canonical value can be split again |
| `CanonicalAgreement.PortAgreesIff` | event/target.go:308-316 | An accepted port event has the port and the address or name of its value exactly when the written host, out of its brackets if any are left, is canonical after one call |
| `CanonicalAgreement.ServiceAgreesIff` | event/target.go:317-341 | An accepted service event has the port and the address or name of its value exactly when its host settles; its service is always the one in its value |
| `CanonicalAgreement.DottedServiceChanges` | event/target.go:164-177 | Where it fails: any IPv4 address written with a dot behind it is accepted, taken for a name, and bound as an address the next time |
| `CanonicalAgreement.WebAgreesIff` | event/target.go:342-365 | An accepted URL or screenshot has the port and the address or name of its value exactly when its host is an address, or does not end in two dots |
| `CanonicalAgreement.WebTls` | event/target.go:365-365 | Its TLS flag always says whether its scheme is https |
| `Identity.CanonSame` | event/event.go:131-186 | For current events canonical identity depends only on kind, value, target, service and TLS |
| `Identity.CanonKeeps` | event/event.go:131-186 | Canonical keeps provenance and every control key but host and port |
| `Endpoints.PublishedSame` | sdk/work.go:313-334 | Outputs that describe one subject are published as one subject, whatever task, parent and lineage they are stamped with |
| `Endpoints.OneWorkKey` | event/event.go:198-205 | The endpoint joined from a name and a port, and the one a scan of that name reports, as published and read back, are one piece of work for every tool, if published in one scope |
| `AsUrl.EligibleHasURL` | internal/asurl/asurl.go:20-58 | Every event the input rule lets through has a URL |
| `AsUrl.UrlIff` | internal/asurl/asurl.go:20-58 | Which services have a URL, and that it is https exactly if the event has TLS, an ssl tunnel, or a name that starts with "ssl/" or contains "https" |
| `AsUrl.TaskMeans` | internal/asurl/asurl.go:61-89 | What the URL task takes over besides the endpoint: service, evidence, TLS, and eight keys of metadata |
| `AsUrl.CanonicalProbed` | internal/asurl/asurl.go:20-23 | Every service in canonical form that the rule lets through is TCP, has a port, and an address or a requested DNS name |
| `AsUrl.EventIff` | internal/asurl/asurl.go:61-82 | Such a service becomes a URL task exactly when the host it is named by has no zone |
| `AsUrl.ZonedServiceHasNoTask` | internal/asurl/asurl.go:61-82 | Where it fails: a service at any address with a zone is eligible, has a URL text, and leads to no task |
| `AsUrl.ZonedCanonicalIff` | event/target.go:314-338 | Such a service is its own canonical form exactly if its zone has no slash and does not end in a space |
| `AsUrl.EventKeepsEndpoint` | internal/asurl/asurl.go:25-89 | The URL task of such a service keeps host, port and TLS-versus-scheme through the printed URL and back |
| `AsUrl.RequestedNameKept` | internal/asurl/asurl.go:25-89 | A service with a requested name always leads to a URL task; the name survives exactly when it is not the text of an address |
| `Nmapx.Expand` | internal/nmapx/nmapx.go:311-336 | The three nested loops compute the specified events in order |
| `Nmapx.ExpandExact` | internal/nmapx/nmapx.go:317-333 | The port events are exactly the observed address/port pairs, each bare and, if a name was requested, also named; no address is paired with another scan's port |
| `Nmapx.ObservedEndpoint` | internal/nmapx/nmapx.go:319-333 | Each of them names one observed port at the scanned address, and no name but the requested one |
| `Nmapx.EveryPortReported` | internal/nmapx/nmapx.go:319-333 | No open port is left out |
| `Nmapx.AddressesExact` | internal/nmapx/nmapx.go:311-318 | Every scanned address is reported, except the one the scan was asked about |
| `Nmapx.RequestedNameIs` | internal/nmapx/nmapx.go:266-279 | The requested name is the name that was scanned, the requested name of an endpoint, or the host an older event was asked about, unless that is an address |
| `Nmapx.FoundNamesIgnored` | internal/nmapx/nmapx.go:266-279 | Names that were only found next to an address play no part in it |
| `Nmapx.PortEventIs` | internal/nmapx/nmapx.go:319-333 | The endpoint, value and metadata of each port event |
| `Redirect.WalkSights` | cmd/httpx/browser.go:39-66 | The hop loop with its early exit computes the specified tasks and problems |
| `Redirect.Collect` | cmd/httpx/browser.go:31-134 | The whole function: diagnostics, the final document's task relocated to the address bar, the screenshot in front |
| `Redirect.WalkDepths` | cmd/httpx/browser.go:53-65 | The tasks of one chain lie at strictly increasing depths, all deeper than the run's own and within the limit |
| `RedirectTasks.ChainExactly` | cmd/httpx/browser.go:39-66 | One chain: each endpoint it was redirected to within the limit becomes exactly one task, the endpoint it was asked for none, and whether the limit was hit is reported |
| `RedirectTasks.MismatchIff` | cmd/httpx/browser.go:44-50 | The first response is checked against what was asked for, whatever comes after it |
| `RedirectTasks.PeerIff` | cmd/httpx/browser.go:15-29 | A response is believed exactly when its peer is an address and the URL names no other address and no other port |
| `RedirectTasks.PathAndQuery` | cmd/httpx/outcome.go:21-29 | What two URLs are compared by: an absent path is the root, and the fragment plays no part |
| `RedirectTasks.ShotIff` | cmd/httpx/browser.go:67-134 | A screenshot is reported exactly when the last response is believed and the image, if any, still shows its site; the task for that response, and no other, moves to the address bar |
| `RedirectTasks.DepthIs` | cmd/httpx/scan.go:105-114 | How deep a task is: absent means zero, negative or unreadable is an error |
| `RedirectTasks.ScanIff` | cmd/httpx/scan.go:21-32 | The browser is started for a URL with a host at a depth within the limit |
| `Redirect.ScanDepths` | cmd/httpx/scan.go:21-32 | The same for everything a run publishes as URL tasks; a run beyond the limit publishes none |
| `Redirect.TreeBound` | cmd/httpx/scan.go:26-32 | Counting one run per task, a URL task at depth d within the limit leads to at most 2^(limit - d) runs, itself included |
| `Redirect.NoTreeBeyondLimit` | cmd/httpx/scan.go:26-32 | Beyond the limit, or with an unreadable depth, a task leads to its own run only |
| `RedirectTight.BoundIsMet` | cmd/httpx/browser.go:39-66 | The bound cannot be lowered: for every limit and depth there are browser responses for which the worker runs exactly 2^(limit - d) times |

## Left out

- AsUrl.EventIff: speaks of the small URL grammar. `net/url` also reads a zone that happens to spell an
  escape (`%25...`), as another zone than the one meant.
- Snapshots.Snapshot: items and warnings are a map and a set, so their final sorting is not modelled, nor
  is the list of consumers, backlogs and pauses, which takes no part in the verdict.
- WorkBus.Process: the tool pause circuit, activity notes, the jitter in retry delays and the branch for
  an undecodable saved batch are not part of the model; a delay is any number chosen by the plan.
- Redirect.Collect: evidence text (redirect chain, probe fingerprints, artifact paths) and the image bytes
  are reduced to flags; routing, browser and resolver set-up in cmd/httpx/scan.go are one optional capture.
- Of internal/nmapx only Expand and the requested name: no discovery or service events, no XML parsing.
- Connections, stream and consumer set-up, timers and goroutines: only CAS, put, append, ack and a clock.
- Subprocesses, sinks and user interface: internal/toolrun, internal/dnspin, internal/browsercapture,
  internal/webprobe, cmd/tlsx, cmd/nuclei, cmd/dnsx, cmd/ctl, cmd/report, cmd/export, cmd/watch.
- Handler mutual exclusion and exactly-once publication: sdk/WORKFLOW.md:27 disclaims the first, and
  publishing is not fenced, so duplicates are possible and are counted instead.
