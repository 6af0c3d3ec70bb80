# Coordinators, partitions, pacing and numeric kernels: a verified model

This project models the parts of the experiment code whose correctness is hardest to see, and proves what they
are for. `dafny verify dfyconfig.toml` checks all of it.

**The FedCompass coordinator.** A controller keeps, for every client, either an outstanding assignment or a place
among the arrivals of an open group; groups have an expected time, a deadline, pending and arrived members; late
updates wait in a buffer; the model has a version. An event loop sends assignments, waits for answers, closes
groups whose deadline has passed, evaluates, stops for one of two limits and drains what is still out.

* `Scheduling`, `Compass` and `Server` describe every operation as a function of the state. The clock is
  `env.tick`, a nondecreasing sequence of readings, and the state counts the readings taken, so every look at the
  clock in the code is a look at a later reading here. What the network does is a script of choices: nothing
  before the timeout, or some call returns with some trained model. `raised` records an exception of the
  original (a missing set member, a minimum of nothing, a missing group).
* `CompassClass` and `ServerClass` are the objects: loops and field updates in the order of the original,
  assignments on the heap compared by identity, start time and version written into them at dispatch. Every
  method's new state is proved equal to the function's; `FedCompassServer.Fit` is the whole run.
* `FleetProofs`, `BooksProofs`, `CompassProofs`, `SweepProofs`, `ServerInvariants`, `ServerProofs`, `RunProofs` and
  `GrowthProofs` prove that the scheduling invariant, the receipts' books and the coupling between the loop and
  the controller survive every operation; `RunTheorems` and `WeightProofs` state the results over whole runs.
* `Validation` is the independent receipt checker (loops that collect problems), `Metrics` what it makes of the
  things only clients can say: worker, partition, process, times, losses. `ReportProofs` proves that in the receipts
  of any finished run it finds exactly the problems that clients caused, whatever they said. `BatchCycle` is the
  client's training loop, whose example count the checker recomputes in closed form.

**FedAsync and FedBuff.** `AsyncFL`, `AsyncProofs` and `AsyncClass` are the two controllers with the same interface,
with the closed forms of the model over whole runs; `AsyncBuffer` says exactly when FedBuff's buffer is full.
`AsyncServer` is the event loop over them, `AsyncLoop` what it keeps, `AsyncLoopBuffer` when it fills the buffer.
`AsyncValidation` and `AsyncWork` are the checker of their receipts, for aggregations and for dispatches and local
work; `AsyncReceipts`, `AsyncAgreement` and `AsyncLoopTheorems` prove what it finds in every run.

**The partitioner** (`Samples`, `Partition`, `Sharing`, `Cutting`, `DirichletPartition`): the cut of every class
at cumulative weights, the repair of clients that came out short, and the class-sharing pass, as loops over an
array of lists proved equal to functions about which the promises are proved.

**The paced proxy** (`Pacer`, `Pump`): the rate schedule, and the pipelined pump as interleaved steps of two
tasks between their suspension points.

**Numeric kernels**: ridge state of the linear bandit (`Vectors`, `Ridge`, `LinUCB`), Holm's adjustment (`Holm`),
the exact sign-flip test (`SignFlip`), gather-based sampling (`GridSample`) and separable resizing (`Resize`, with
`Images`).

Real numbers stand for floating point throughout, tensors are sequences of reals, and client identities are
numbers. The staleness decay (1 + d) to the power -e is any function with value 1 at 0, values in (0, 1] and no
increase.

Some results say where the code does less than one might expect, and exactly when:

* The class-sharing pass cannot fail: whenever it runs, every class with two samples ends with two holders,
  because a client at the minimum always has something to swap (`Sharing.SwapExists`). But it runs only when some
  client came out short. `Cutting.DividedMeets` says that a class is shared exactly when that happened or one of the
  drawn cut points falls inside the class; `Cutting.ExclusiveWithoutRepair` is an input with positive weights where
  neither does.
* A reservation with a negative round-trip time is refused only after the line has been reserved:
  `Pacer.RefusedButReserved` is such a call, and `Pacer.RefusedLeavesAlone` says which refused calls change nothing.
* A FedBuff commit that misses the deadline leaves the full buffer in place. `AsyncBuffer.BufferFills` says which
  arrivals do this, `AsyncBuffer.BufferFullExactly` that the buffer is full exactly after such an arrival, and
  `AsyncBuffer.StuckRun` is a run that ends so. Under the event loop the buffer is full exactly after such an
  iteration (`AsyncLoopBuffer.LoopBufferFull`), and the next one drops it (`AsyncLoopBuffer.FullStops`).
* The asynchronous checker of aggregations reports a run in which nothing was committed, and no other
  (`AsyncLoopTheorems.ProducerAndCheckersAgree`). `AsyncLoopTheorems.IdleRun` is such a run: one client, and a
  deadline that passes as soon as its first call is out.
* The checkers recompute (1 + staleness) to a negative power without catching that zero has none. `Validation.Validate`
  and `AsyncValidation.Validate` say exactly which reports this stops; no run leaves such a report.

## Model

| member | source | states |
|---|---|---|
| Scheduling.BestJoin | experiments/baselines/fedcompass.py:231-240 | among the open groups whose remaining time is between the minimum and maximum steps, the one with the most steps is joined, the earliest on a tie, and none exactly when there is none |
| Scheduling.LatestAlignment | experiments/baselines/fedcompass.py:244-253 | the best alignment never exceeds the maximum, is attained by an alignable group and dominates every other's; it throws exactly when some open group before its deadline has no member, or a member without a known speed |
| Scheduling.AssignNeverRaises | experiments/baselines/fedcompass.py:228-261 | under the scheduling invariant no division by a speed, minimum over members or speed lookup in an assignment can throw |
| Scheduling.AssignSchedules | experiments/baselines/fedcompass.py:228-261 | every assignment has between the minimum and maximum steps; a joining client is predicted to finish no later than the group's expected arrival and less than one step before it, and joins no group past its expected time; a new group opens only when none fits |
| Scheduling.FreshSchedules | experiments/baselines/fedcompass.py:241-258 | a client that fits no open group opens one with the most steps that align with another group's next fast arrival, at least the minimum, or with the maximum when nothing aligns; the group's expected time and deadline follow |
| Scheduling.AssignKeeps | experiments/baselines/fedcompass.py:228-261 | assigning an idle client keeps the invariant: jobs, pending sets and waiting updates agree and no client is in two places |
| FleetProofs.AssignAllKeeps | experiments/baselines/fedcompass.py:182-183 | releasing several idle clients one after another keeps the invariant and gives each of them exactly one new assignment |
| FleetProofs.EstimateBetween | experiments/baselines/fedcompass.py:122-125 | a first speed estimate is the measurement; later ones lie between the old estimate and the measurement, at the old one without momentum and at the measurement with full momentum; no other client's estimate changes |
| FleetProofs.ArriveKeeps | experiments/baselines/fedcompass.py:140-142 | removing an arriving client from its group's pending set never throws, and the client then waits in that group only |
| FleetProofs.BySpeedSorts | experiments/baselines/fedcompass.py:182-183 | clients are released in order of increasing seconds per step |
| BooksProofs.AggregateKeepsBooks | experiments/baselines/fedcompass.py:187-226 | aggregating never meets an update from a future version; unless the deadline was missed one version and one record of exactly these updates are added and each of them is marked with it; otherwise the model and the records stay and each is marked discarded |
| BooksProofs.GatherKeepsBooks | experiments/baselines/fedcompass.py:174-180 | taking the late buffer and a group's arrivals together keeps the books in order and empties the buffer |
| BooksProofs.MergeMeans | experiments/baselines/fedcompass.py:174-180 | the merged updates are every arrival and the late updates of other clients, one per client; exactly the overridden late ones are marked superseded |
| CompassProofs.CloseKeeps | experiments/baselines/fedcompass.py:162-185 | closing a group keeps the invariant and gives every client that waited in it one new assignment, unless the budget was found spent |
| CompassProofs.ArrivedMeasured | experiments/baselines/fedcompass.py:184-185 | every client that waited in a closing group has a speed, so sorting by speed does not throw |
| CompassProofs.ReceiveKeeps | experiments/baselines/fedcompass.py:115-143 | an answer to an outstanding assignment is accepted, throws nothing and keeps the invariant; afterwards its client has a new assignment or waits in a group, unless the budget was found spent |
| SweepProofs.ExpireKeeps | experiments/baselines/fedcompass.py:145-156 | the sweep over the groups keeps the invariant, loses no client, never passes the update limit, and if it is not interrupted leaves no group that is due |
| RunTheorems.SweepBounds | experiments/baselines/fedcompass.py:145-160 | after an uninterrupted sweep the next deadline is later than the sweep's time and there are at most as many groups as clients |
| CompassClass.FedCompass.FindJoin | experiments/baselines/fedcompass.py:231-239 | the loop over the groups finds the best group to join |
| CompassClass.FedCompass.FindAlignment | experiments/baselines/fedcompass.py:244-253 | the loop over the groups finds the best alignment or throws |
| CompassClass.FedCompass.NextDeadline | experiments/baselines/fedcompass.py:158-160 | the earliest deadline of the open groups |
| CompassClass.FedCompass.Assign | experiments/baselines/fedcompass.py:228-261 | the object's new assignment and state are those of the assignment rule; the assignment is a new object |
| CompassClass.FedCompass.AggregateUpdates | experiments/baselines/fedcompass.py:187-226 | the in-place aggregation, which puts the old model back when the deadline was missed, is the specified one |
| CompassClass.FedCompass.CloseGroup | experiments/baselines/fedcompass.py:162-185 | the in-place closing of a group is the specified one |
| CompassClass.FedCompass.Receive | experiments/baselines/fedcompass.py:115-143 | an update is accepted exactly when its assignment is the client's outstanding object itself, not started later than now, with tensors of the right shapes; a refused one changes nothing; the rest is the specified step |
| CompassClass.FedCompass.Expire | experiments/baselines/fedcompass.py:145-156 | the sweep with its two early exits is the specified one |
| CompassClass.FedCompass.Initialize | experiments/baselines/fedcompass.py:97-103 | one assignment of maximum length and without a group for every client, refused once something is active or committed |
| CompassClass.FedCompass.Stop | experiments/baselines/fedcompass.py:263-271 | what was never aggregated is marked so, and buffers, groups and assignments are dropped |
| ServerClass.FedCompassServer.Dispatch | experiments/common/fedcompass_server.py:74-103 | sending writes the model's actual version and the time into the assignment object, which the controller sees too, and books one more call and row |
| ServerClass.FedCompassServer.Consume | experiments/common/fedcompass_server.py:105-136 | a returned call is taken off the books, filed, and given to the controller only while accepting |
| ServerClass.FedCompassServer.Turn | experiments/common/fedcompass_server.py:159-189 | one iteration of the loop, with its exits and continuations, is the specified step |
| ServerClass.FedCompassServer.Fit | experiments/common/fedcompass_server.py:154-206 | the whole run on objects, with loop, stop, drain, final evaluation and last stop, reaches the state the specification gives for the same environment |
| ServerProofs.BeginReady | experiments/common/fedcompass_server.py:154-158 | the loop starts with one call out for every client, or with the budget already spent |
| ServerProofs.DispatchAllKeeps | experiments/common/fedcompass_server.py:186-189 | sending the released jobs leaves every assignment out, unless the run has ended meanwhile |
| RunProofs.TurnKeeps | experiments/common/fedcompass_server.py:159-189 | one iteration keeps the coupling between calls out and assignments, or leaves the loop for one of the two limits |
| RunProofs.SettleStops | experiments/common/fedcompass_server.py:190-194 | a loop that ends by itself does so for the time budget or the update limit |
| RunProofs.DrainKeeps | experiments/common/fedcompass_server.py:195-199 | draining takes a returned call off the books and changes nothing of the controller but its receipt |
| RunTheorems.NeverRunsDry | experiments/common/fedcompass_server.py:159-192 | for every clock and order of arrivals: the run never stops for lack of calls, no update is refused, nothing throws, the version never passes the limit and an untimed run stops exactly at it |
| RunTheorems.FinishKeeps | experiments/common/fedcompass_server.py:202-206 | the final evaluation is of the version frozen at the stop, and neither it nor the second stop changes model, version, receipts or records |
| RunTheorems.FleetConservation | experiments/baselines/fedcompass.py:115-185 | until a limit is reached every client has exactly one call out or waits in exactly one open group; a call's group exists and expects that client; pending sets are disjoint; an open group with nobody pending is past its deadline |
| RunTheorems.VersionNamesModel | experiments/baselines/fedcompass.py:187-226 | over whole runs the model changes only together with the version, and every call out carries the model of its recorded version |
| RunTheorems.RunRows | experiments/common/fedcompass_server.py:154-158 | a run that dispatches anything dispatches something to every client |
| WeightProofs.WeightsAtMostAlpha | experiments/baselines/fedcompass.py:83-83 | weights of distinct clients, whatever their staleness, are not negative and add up to at most alpha |
| WeightProofs.RunWeights | experiments/baselines/fedcompass.py:196-206 | in every run each aggregation combines distinct clients and distinct dispatches with weights adding up to at most alpha |
| WeightProofs.FreshAggregationIsConvex | experiments/baselines/fedcompass.py:196-206 | with zero staleness every parameter becomes a convex combination of the old value and the trained values, and stays within their range |
| WeightProofs.AverageWithin | experiments/baselines/fedcompass.py:192-195 | averaged tensors stay within the range of what the clients sent |
| BatchCycle.ProcessedClosedForm | experiments/common/fedcompass_validation.py:72-76 | batches drawn from endlessly repeated epochs add up to the closed form of the checkers |
| BatchCycle.TrainClient | experiments/common/workload_training.py:136-205 | the counting loop processes the closed-form number of examples, never none, in exactly the given steps; fewer than one step is refused |
| Validation.Validate | experiments/common/fedcompass_validation.py:51-128 | the checker is stopped exactly by a record whose weight's power is zero to a negative exponent, and otherwise reports each problem exactly when the receipts have it: accounting, identity, worker, assignment and partition, examples, times, status, losses, contributions, processes, versions, weights, applied dispatches, endpoints |
| Metrics.OneProcessMeans | experiments/common/fedcompass_validation.py:96-97 | a client's process identity passes exactly when it has an update and all its updates name the same process |
| Validation.SameMembersIsSetEquality | experiments/common/fedcompass_validation.py:111-113 | comparing the two lists element by element is the comparison of their sets |
| ReportProofs.ProducerAndCheckerAgree | experiments/common/fedcompass_validation.py:51-128 | for every run that dispatched something, stopped and drained, and whatever the clients said about themselves: the checker is not stopped, and it reports exactly the problems of worker, partition, times, losses and processes that the clients' own words have; none of accounting, identity, steps, examples, statuses, contributions, versions, weights, applied dispatches, staleness and deadline |
| ReportProofs.TruthfulRunPasses | experiments/common/fedcompass_validation.py:51-128 | when clients say what is right, each from one process of its own, the receipts of such a run show no problem |
| AsyncProofs.RunKeeps | experiments/baselines/async_fl.py:73-165 | every run keeps the invariant of jobs, placement and records and the closed form of the model |
| AsyncProofs.ArrivalsAccounted | experiments/baselines/async_fl.py:128-154 | before a missed deadline every client has exactly one assignment and the accepted updates are buffer size times version plus the buffered ones, fewer than the buffer size (for FedAsync: the version) |
| AsyncBuffer.BufferFills | experiments/baselines/async_fl.py:146-151 | an arrival leaves a full buffer exactly when it is accepted in time, takes the last place, and one of the commit's two looks at the clock is late |
| AsyncBuffer.BufferFullExactly | experiments/baselines/async_fl.py:108-151 | over whole runs the buffer never exceeds its size and is full exactly when such an arrival occurred |
| AsyncLoopBuffer.LoopBufferFull | experiments/baselines/async_fl.py:128-151 | in every state of the event loop the buffer is at most its size, and full exactly after an iteration that took an arrival in time for its last place and found the clock late at one of the commit's two looks |
| AsyncLoopBuffer.FullStops | experiments/common/fedcompass_server.py:159-162 | the iteration after a full buffer drops it and leaves the loop for the budget, with the same version |
| AsyncLoopBuffer.LoopArrivals | experiments/baselines/async_fl.py:128-154 | while the event loop goes on before a missed deadline every client has its assignment, and the accepted updates are those of the committed versions and the buffered ones |
| AsyncBuffer.StuckRun | experiments/baselines/async_fl.py:146-151 | two clients, a buffer of two and a clock that passes the deadline after the second arrival: a full buffer and no version |
| AsyncProofs.NoArrivalFails | experiments/baselines/async_fl.py:84-86 | no answer to an outstanding assignment ever meets the future-version error |
| AsyncProofs.FedBuffParameters | experiments/baselines/async_fl.py:90-98 | after any run the parameters are the initial ones plus server rate over buffer size times the sum of the committed deltas |
| AsyncProofs.FedBuffStatistics | experiments/baselines/async_fl.py:99-101 | after any run the statistics are the initial ones, or the mean over the updates of the last version |
| AsyncProofs.FedAsyncIsConvex | experiments/baselines/async_fl.py:93-95 | after any run the whole model, parameters and floating statistics, is one combination of the initial model and the trained models, with one list of shares that are not negative and add up to one |
| AsyncProofs.CommittedOnce | experiments/baselines/async_fl.py:115-125 | every accepted dispatch enters the model at most once, and the records number the versions |
| AsyncReceipts.CommitKeepsReceipts | experiments/baselines/async_fl.py:115-125 | a commit writes, for every update in it, the version, time, staleness and weight that its record implies, and changes no earlier receipt |
| AsyncReceipts.RunKeepsReceipts | experiments/baselines/async_fl.py:115-154 | in every run each accepted dispatch has one answer, a status is aggregated exactly when a record lists the dispatch, and each record has the right population, a time before the deadline and agreeing receipts |
| AsyncValidation.Validate | experiments/common/async_fl_validation.py:83-115 | the checker is stopped exactly by a dispatch whose weight's power is zero to a negative exponent, and otherwise reports each problem of statuses and aggregations exactly when the receipts have it |
| AsyncAgreement.ReceiptsPass | experiments/common/async_fl_validation.py:83-115 | for every run of either rule the receipts show no problem of versions, applied dispatches, population, statuses, staleness, coefficients or deadline, except that a run without a commit is reported for its versions; no power is without a value |
| AsyncWork.Validate | experiments/common/async_fl_validation.py:47-90 | the checker reports each problem of dispatch accounting, identity, local work and optimizer, times, losses, contributions and processes exactly when the receipts have it |
| AsyncLoop.NeverRunsDry | experiments/common/fedcompass_server.py:159-192 | under the asynchronous controllers too the loop is left only for the budget or the update limit, nothing is refused or fails, the version never passes the limit and an untimed run stops exactly at it |
| AsyncLoop.OneCallEach | experiments/baselines/async_fl.py:42-42 | until a limit is reached every client has exactly one call out, for its own outstanding assignment |
| AsyncLoop.TurnKeeps | experiments/common/fedcompass_server.py:159-189 | one iteration keeps the coupling of calls and assignments, or leaves the loop for one of the two limits |
| AsyncLoopTheorems.ProducerAndCheckersAgree | experiments/common/async_fl_validation.py:47-115 | for every run of the asynchronous loop that dispatched something, stopped and drained, and whatever the clients said about themselves: dispatch and work receipts show exactly the problems that the clients' own words have, aggregation receipts show a problem exactly when nothing was committed, and the checker is not stopped |
| AsyncLoopTheorems.TruthfulRunPasses | experiments/common/async_fl_validation.py:47-90 | when clients say what is right, each from one process of its own, the dispatch and work receipts of such a run show no problem |
| AsyncLoopTheorems.IdleRun | experiments/common/async_fl_validation.py:91-93 | one client whose first call is out when the deadline passes: the run stops and drains with nothing committed, and the checker reports its versions |
| AsyncLoopTheorems.LoopIsConvex | experiments/baselines/async_fl.py:93-95 | in every state of the event loop FedAsync's model is one combination of the initial and the trained models, with one list of shares |
| AsyncLoopTheorems.LoopParameters | experiments/baselines/async_fl.py:90-98 | FedBuff's closed form of the parameters holds in every state of the event loop |
| AsyncClass.AsyncController.CommitUpdates | experiments/baselines/async_fl.py:81-126 | the in-place commit, with its two looks at the clock and the restored model, is the specified one |
| AsyncClass.AsyncController.ReceiveUpdate | experiments/baselines/async_fl.py:128-154 | an update is accepted exactly when it answers the client's assignment object, its dispatch is new and its tensors fit; the rest is the specified step |
| AsyncClass.AsyncController.InitializeAll | experiments/baselines/async_fl.py:73-79 | one assignment for every client; a second start is refused |
| AsyncClass.AsyncController.StopAll | experiments/baselines/async_fl.py:162-165 | an incomplete buffer and all assignments are dropped |
| Partition.DonorIsRich | experiments/common/partition.py:49-52 | while a client is short of a minimum that fits the data, the longest list is another client's and longer than the minimum |
| Partition.Choice | experiments/common/partition.py:53-57 | the sample given away is preferred to every other: a class the recipient lacks, then the donor's more frequent class, then the smaller index |
| Partition.GiveMoves | experiments/common/partition.py:50-59 | one repair move loses nothing, lowers the total shortage by one, gives the recipient one sample and takes none from anybody at or below the minimum |
| Partition.RepairMeets | experiments/common/partition.py:49-59 | repair ends with everybody at the minimum and nothing lost; a short client keeps its samples and ends with exactly the minimum, the others only give |
| Sharing.SwapExists | experiments/common/partition.py:78-82 | when the donor cannot spare a sample, every other client at least as large has one it can part with |
| Sharing.MoveKeeps | experiments/common/partition.py:74-77 | a gift loses nothing, leaves everybody at the minimum, takes no class from its last holders and gives the processed class two holders |
| Sharing.SwapKeeps | experiments/common/partition.py:83-88 | the same for a swap: no class has fewer holders afterwards |
| Sharing.ShareClassWorks | experiments/common/partition.py:63-88 | processing a class keeps everything and leaves the class with two holders if it has two samples |
| Sharing.ShareWorks | experiments/common/partition.py:61-88 | the pass over all classes keeps the samples, the minimum and the number of holders of every class, and ends with two holders for every class with two samples |
| Cutting.PieceSize | experiments/common/partition.py:32-37 | every client gets its weight's worth of each class to within one sample |
| Cutting.CutIsLossless | experiments/common/partition.py:30-37 | cutting every class at the cumulative weights puts every sample in exactly one list, for all weights |
| Cutting.EnforcedMeets | experiments/common/partition.py:45-88 | repair and sharing together: lossless, minimum met, every class with two samples held twice |
| Cutting.CutShares | experiments/common/partition.py:32-37 | after the cut a class has two holders exactly when one of its drawn cut points falls strictly inside it |
| Cutting.DividedMeets | experiments/common/partition.py:29-42 | the division is lossless and meets the required minimum; a class with two samples ends with two holders exactly when somebody came out short, so that the repair ran, or a drawn cut point falls inside the class |
| Cutting.ExclusiveWithoutRepair | experiments/common/partition.py:38-39 | an input without a short client where a class of two samples stays with one client |
| Samples.LosslessMeans | experiments/common/partition.py:19-19 | what lossless means: every sample is in some list, once, and in no other |
| DirichletPartition.RaiseToMinimum | experiments/common/partition.py:49-59 | the two nested repair loops terminate with the specified repair |
| DirichletPartition.FindSwap | experiments/common/partition.py:78-82 | the scan finds the first sample the client can part with |
| DirichletPartition.Offer | experiments/common/partition.py:70-88 | the scan over recipients makes the specified gift or swap |
| DirichletPartition.EnforceMinimum | experiments/common/partition.py:45-88 | the in-place procedure does the specified repair and sharing: lossless, minimum met, every class with two samples held twice |
| DirichletPartition.Divide | experiments/common/partition.py:11-42 | refused exactly for fewer than two clients, a concentration or minimum that is not positive, or fewer samples than clients; otherwise the specified division with every list shuffled, lossless and with the required minimum for everybody |
| DirichletPartition.ShuffledMeets | experiments/common/partition.py:40-42 | shuffling changes neither samples nor holders nor sizes |
| Pacer.DirectionPacer.Reserve | experiments/tcp_pacing.py:33-51 | the due time and the new schedule; a bad rate changes nothing, a negative round-trip time is refused after the line has been reserved |
| Pacer.RefusedLeavesAlone | experiments/tcp_pacing.py:36-50 | a refused call leaves the schedule alone exactly when the rate itself is bad, or the rate is the one in force and the call reserves no time |
| Pacer.RefusedButReserved | experiments/tcp_pacing.py:40-50 | a call with a negative round-trip time that is refused after its time has been reserved |
| Pacer.DuesNondecreasing | experiments/tcp_pacing.py:39-47 | at constant rate due times before latency never go back, whatever the clock shows |
| Pacer.RateBound | experiments/tcp_pacing.py:39-47 | at constant rate the bytes due in any window are at most the rate times the window and one block |
| Pacer.DueIsLatest | experiments/tcp_pacing.py:39-47 | the due time is the latest, over all earlier requests, of when one was asked for followed by the transmission of everything since |
| Pump.RunKeeps | experiments/tcp_pacing.py:112-154 | every interleaving keeps the invariant: bytes read are those written, in hand and queued, in order; the buffered count is what is queued or being written; counters match deliveries per round |
| Pump.WrittenIsPrefix | experiments/tcp_pacing.py:112-154 | what has been written is always a prefix of the input |
| Pump.InFlightWithinWindows | experiments/tcp_pacing.py:122-129 | over every run under limits, which may change, the bytes in flight never exceed the largest bandwidth-delay window among them |
| Pump.InFlightWithinWindow | experiments/tcp_pacing.py:122-129 | over every run under one limit the bytes in flight fit that limit's window |
| Pump.NoLostWakeup | experiments/tcp_pacing.py:117-128 | a producer waiting on an event that nobody has set has a consumer that can go on by itself |
| Pump.NoDeadlock | experiments/tcp_pacing.py:112-154 | until both tasks are done some step is possible |
| Pump.RunsAreShort | experiments/tcp_pacing.py:112-154 | no interleaving is longer than a fixed number of steps per byte |
| Pump.StuckMeansDelivered | experiments/tcp_pacing.py:112-159 | an interleaving that cannot go on has written, delivered and counted the whole input in order, with nothing buffered |
| Pump.CountersAddUp | experiments/tcp_pacing.py:147-153 | in every reachable state the per-round counters add up to the delivered bytes, and at the end of a run to the whole input |
| Ridge.PositiveDefinite | experiments/baselines/adaptive_reference.py:17-17 | v'Av = ridge times the square of v plus the squared projections on all observations, zero for the zero vector only |
| Ridge.SolutionUnique | experiments/baselines/adaptive_reference.py:26-27 | the linear systems solved for the scores have at most one solution |
| Ridge.WidthNonnegative | experiments/baselines/adaptive_reference.py:28-28 | the quantity under the square root is never negative, so the clamp changes nothing |
| Ridge.WidthShrinks | experiments/baselines/adaptive_reference.py:38-44 | one more observation never widens any action's confidence interval; it loses at least the squared projection of the new solution |
| Ridge.EstimateMinimises | experiments/baselines/adaptive_reference.py:27-27 | the solved weights are the only minimum of the penalised squared error |
| LinUCB.LinUCBE.constructor | experiments/baselines/adaptive_reference.py:14-21 | the state of no observations |
| LinUCB.LinUCBE.Observe | experiments/baselines/adaptive_reference.py:38-44 | the in-place rank-one update gives the state of one more observation; a negative latency is refused |
| LinUCB.LinUCBE.Choose | experiments/baselines/adaptive_reference.py:23-36 | from any solution of the systems: the first candidate of least lower confidence bound among those not ruled out by a forced escape, never the fully local one on an escape round, or an error when all are ruled out |
| LinUCB.ScoresDetermined | experiments/baselines/adaptive_reference.py:23-28 | the scores depend on observations and candidates alone, not on how the systems were solved, and no score exceeds the estimated latency |
| LinUCB.NothingToChoose | experiments/baselines/adaptive_reference.py:34-35 | the error occurs exactly without actions, or with the fully local one alone on an escape round |
| Holm.RunningIsAdjusted | experiments/common/statistics.py:93-99 | the running maximum gives the closed form, whatever the order of ties |
| Holm.HolmAdjust | experiments/common/statistics.py:87-100 | the loop fills in every adjusted value, and refuses values outside [0, 1] |
| Holm.RejectionPassesBonferroni | experiments/common/statistics.py:87-100 | if a member of a set of hypotheses has an adjusted value of at most alpha, some member passes the Bonferroni test of that set |
| Holm.AdjustedIsStepDown | experiments/common/statistics.py:87-100 | an adjusted value is at most alpha exactly when the step-down procedure rejects |
| Holm.AdjustedInOrder | experiments/common/statistics.py:97-99 | order is preserved, ties are equal, and values lie between the p-value and one |
| Holm.AdjustedEquivariant | experiments/common/statistics.py:93-100 | permuting the input permutes the output |
| SignFlip.CountRange | experiments/common/statistics.py:67-78 | the count of extreme sign vectors is even, at least two and at most all |
| SignFlip.NegationKeepsCount | experiments/common/statistics.py:64-78 | negating all differences changes nothing |
| SignFlip.PermutationKeepsCount | experiments/common/statistics.py:64-78 | permuting the differences changes nothing |
| SignFlip.SignFlipPValue | experiments/common/statistics.py:67-78 | the enumeration gives the counted share, between two over the number of vectors and one |
| SignFlip.FloorForFive | experiments/analysis/fedcompass_study.py:401-401 | five pairs never give less than 0.0625 |
| GridSample.IndexInRange | experiments/rfdetr_grid_sampling.py:43-47 | every clamped flat index is in range |
| GridSample.GatherIsPixel | experiments/rfdetr_grid_sampling.py:43-48 | a gather reads the pixel inside the image and zero outside |
| GridSample.SampleIsPixelSum | experiments/rfdetr_grid_sampling.py:37-53 | four gathers equal the sum over all pixels of value times the two tent weights, for every real coordinate |
| GridSample.SampleAtPixel | experiments/rfdetr_grid_sampling.py:37-53 | sampling at a pixel gives the pixel |
| GridSample.GridSampleIsPixelSum | experiments/rfdetr_grid_sampling.py:35-53 | the sampler on grid coordinates equals the weighted sum over all pixels |
| GridSample.GridSampleAtCentre | experiments/rfdetr_grid_sampling.py:35-36 | sampling at the grid coordinate of a pixel's centre gives the pixel |
| Resize.SelectedInRange | experiments/deeplab_interpolation.py:28-32 | both selected rows or columns are in range, for all sizes |
| Resize.PassesAreFourTap | experiments/deeplab_interpolation.py:25-39 | the two passes, in either order, give the two-dimensional four-tap formula |
| Resize.BilinearResize | experiments/deeplab_interpolation.py:18-39 | the loop over the axes gives the four-tap formula at every pixel, and refuses sizes that are not positive |
| Resize.ResizeWithin | experiments/deeplab_interpolation.py:33-38 | outputs stay between the least and the greatest input |
| Resize.SameSize | experiments/deeplab_interpolation.py:25-39 | equal sizes give the identity |

## Left out

- Failed calls and exceptions while a returned call is consumed, abandoned futures, the thread pool and the RPC timeouts: runs are failure-free.
- Evaluation metrics, history and state-transfer records: an evaluation is its clock readings and its row.
- The timeout the loop waits with: a wait ends without an arrival or with one, at any time.
- Client registration and the property exchange before the run.
- Aliasing of receipts and groups: groups and receipts are values in maps, written where the original writes the shared object; assignments are heap objects.
- Non-floating tensors: averaged statistics are reals, and the rule that takes counters from the latest model is not modelled.
- Nonfinite tensors and clock values, and floating-point rounding everywhere.
- Validation.Validate: covers the dispatch, fit and aggregation records; the hashes and populations of the bundle, the readiness barrier and the evaluation rows outside lines 51-128 are left out.
- AsyncWork.Validate: leaves out the same parts of the asynchronous checker, and what it returns when the configuration itself is refused.
- AsyncServer: the loop over the asynchronous controllers is modelled on values; the objects of the shared loop are those of `ServerClass`.
- BatchCycle.TrainClient: models the native path with the loader keeping its short last batch, because the split runtime and the optimizer do not change the count.
- Cutting.CutIsLossless: takes the class weights as any nonnegative reals adding up to one in place of the Dirichlet draw, and shuffles as any functions that permute.
- Enforcing a minimum above the average list length, for which the repair loop would not end: the partitioner never asks for it.
- Pump.RunKeeps: leaves out the clock, so how long a block sleeps is not bounded; cancellation, connection errors and closing the streams are left out too.
- Pump.InFlightWithinWindows: says nothing about blocks reserved without a limit, which the program lets in without a bound.
- The proxy's simple pump with a control file, its connection handling, signals and receipts on disk.
- LinUCB.LinUCBE.Choose: takes the answers of the linear solver and the square roots as given, for any that solve the systems, instead of modelling the solver; feature vectors of another length are not passed.
- SignFlip.SignFlipPValue: covers the exact branch, up to twenty pairs; the Monte Carlo branch and the bootstrap have no deterministic theorem.
- Effect sizes, medians and standard deviations of the paired summary.
- GridSample.SampleIsPixelSum: is for one channel of one image; batches and channels repeat it, and refused padding modes and tensor ranks are left out.
- The sine position embedding, the installers that patch library modules, and gradients.
- Profiles, features and candidate placement of the adaptive reference.
- Paired-study audits, campaign drivers, round barriers, network schedules, plotting and status readers.
