# Serverless on edge: a verified model

A model, in Dafny, of the parts of the serverless edge computing platform that have state and
promise something about whole runs, with proofs of those promises.

- **Hierarchical controller** (`HierController.dfy`, with `Topology.dfy`, `ForwardingTables.dfy`,
  `Announcements.dfy`). The controller announces edge computers to edge routers and keeps the
  forwarding tables of all routers in step. Every call to a router may fail; a failure removes the
  router and rebuilds everything, by methods that recurse into one another. The network is an
  object that holds the tables and answers each call as an oracle says.
- **Router** (`EdgeRouting.dfy`). The two tables of a router, the forward flag and the retry loop;
  with the invariant of the controller they give a theorem about requests from end to end. A router
  that purges a failed destination also reports it, and so calls the controller while its own
  tables are out of step.
- **Multi-client** (`MultiClient.dfy`, `MultiClientHistory.dfy`). Callers, executors and a clean-up
  consumer that pass messages through queues: a transition system, its inductive invariant, its
  termination, and what it did for each request.
- **Workflows** (`Dags.dfy`, `Workflow.dfy`, `WorkflowHistory.dfy`, `WorkflowSystem.dfy`,
  `EdgeComputer.dfy`). DAGs of functions that are invoked asynchronously, joined by counting
  invocations, with any number of workflows on shared computers; and what becomes of every edge
  when invocations are refused or calls throw.
- **Simulated computer** (`RunQueue.dfy`, `Containers.dfy`, `Machines.dfy`,
  `SimulatedComputer.dfy`). Run queues that hold differences, memory admission, dispatching.
- **Load balancer** (`LoadSharing.dfy`, `Balancer.dfy`). The association of clients to computers.
- **Lambda/mu simulator** (`Mcfp.dfy`, `AppPools.dfy`, `Placements.dfy`, `Weights.dfy`,
  `Scenarios.dfy`, `Pricing.dfy`, `Dynamics.dfy`). Allocation algorithms, their prices, and the
  evolution of applications.
- **Estimators** (`Estimators.dfy`). Tables that have to stay in step so that two maps can be
  walked together.

`Wrappers.dfy`, `StringOrder.dfy` (the order of `std::map` keys), `Lists.dfy`, `Sums.dfy` and
`Vectors.dfy` hold what several parts use. `dafny verify dfyconfig.toml` checks the whole project.

Source code that changes things in place is modelled by classes and by methods with loops, each
proved against functions and predicates on values; protocols between threads are transition
systems. Floating-point numbers are real numbers. Numbers are unbounded, except that operations
and memory of the simulated computer are 64-bit. Random draws, clocks and the outcomes of calls
are parameters, over which all statements are universal.

## Where the code and its documentation differ

The model follows the code.

- `Edge/edgecontrollerhier.cpp:253` passes the lambda end-point of the home router where the
  end-point of its forwarding table server is meant. The call fails, so removing a computer costs
  the home router; the rest is rebuilt exactly (`Controller.RemoveComputer`).
- `Edge/edgecontrollerhier.cpp:404-411` draws one of the routers with the same address. The home of
  a computer is the only one that can be drawn exactly when no other router is at its address
  (`HomeIsForcedIff`); otherwise it can end up with two homes (`TwoHomes`, `TwoHomesOnOneNode`).
- `Edge/edgelambdaprocessor.cpp:137-141` reports every failed destination as a computer to be
  removed, also when it is a router. The controller then does nothing, and the tables of the
  reporting router stay inexact until the next rebuild (`PurgedIsExactIff`, `Report`).
- `Edge/edgecontrollerhier.cpp:161-169` passes the key of a map node by reference to a removal that
  erases this node first (`Edge/edgecontroller.cpp:240-246`) and uses the key afterwards. The model
  holds values and cannot show what becomes of the reference.
- The score of a router combines maximum and average as promised for whole distances within the
  number of nodes (`OmegaIsLexicographic`); randomised fractional ones break the ranking
  (`FractionalDistancesBreakTheRanking`). For any distances, `RankingIsRightIff` says exactly which
  pairs of routers are ranked as promised.
- A task that is refused for its memory leaves the clock of the computer stopped
  (`Edge/computer.cpp:148-166`), until the next task or round (`Computer.AddTask`).
- A DAG with one function has no last function, so its callback is never called (`LastOfDag`).
- `Edge/container.h:84-85` promises first come first served; a push can overtake tasks that wait
  for memory (`PushOvertakes`, `FirstComeIsNotServedFirst`).
- `Edge/processor.h:179` says that no memory is in use exactly when nothing runs; tasks without
  memory refute it (`IdleProcessor`, `ZeroMemoryTaskRuns`).
- `LambdaMuSim/apppool.cpp:81-84` subtracts values that are already differences
  (`DifferencesAreExact`, `ThirdApplicationIsLate`), and `LambdaMuSim/apppool.cpp:130-131` adds the
  elapsed time once more, so that an application comes back after its period exactly when no time
  had elapsed (`BackOnTimeIff`, `BackTooLate`).
- `LambdaMuSim/scenario.cpp:766` compares the index of a container, not of an edge node, with the
  cloud. Storage is priced by node exactly when one container of the cloud is left to lambda-apps,
  or prices or storage make no difference (`UnitIsPricedIff`, `MatrixIsPricedIff`,
  `SecondCloudContainerIsRemote`); in dynamic runs more than one always is
  (`DynamicMatrixIsPricedIff`).
- `lambdaCost` and `muCost` leave out the rate, the exchange size and the storage cost, so the
  running costs differ from those charged at an epoch. Exactly when they agree, whatever the
  solvers do, is `MuChargeIsCostForEveryPickIff` and `LambdaChargeIsCostForEveryResultIff`;
  `RateTwoIsChargedTwice` and `ExchangeTwoIsChargedTwice` are inputs for which they do not.
- Two roundings of the cloud capacity lose one unit of demand, exactly when the demand divided by
  beta is not whole (`CloudIsExactIff`, `OneUnitIsLost`).

## Model

| member | source | states |
|---|---|---|
| `HierController.Controller.AnnounceComputer` | Edge/edgecontroller.cpp:138-184 | whichever router calls fail, afterwards every computer is announced and soundly so, the lambda index is exact, and only routers with a failed call are gone; if the tables were exact before or a call has failed, every router still known holds exactly the final entries of its computers and one non-final entry per other home of the lambda |
| `HierController.Controller.AnnounceRouter` | Edge/edgecontrollerhier.cpp:173-198 | the same for a router that is not known yet, with exact tables afterwards whatever they were before |
| `HierController.Controller.RemoveComputer` | Edge/edgecontroller.cpp:196-238 | the same, also when a router has changed its own tables before the call; the set of computers loses just this one; if a router served it, a home router is lost and all tables are exact, otherwise nothing else changes |
| `HierController.Controller.PrivateRemoveComputer` | Edge/edgecontrollerhier.cpp:200-303 | withdrawal of a computer from announcements and tables under any failures |
| `HierController.Controller.PrivateAnnounceComputer` | Edge/edgecontrollerhier.cpp:85-171 | announces one computer, terminates under any failures, and leaves all tables as they are when the computer was announced already and no call fails |
| `HierController.Controller.Publish` | Edge/edgecontrollerhier.cpp:85-171 | tables stay exact when a computer is installed at its home and the home at the others, up to the first call that fails |
| `HierController.Controller.RemoveRouter` | Edge/edgecontrollerhier.cpp:423-458 | a router goes away and everything is rebuilt; the recursion decreases the number of known routers |
| `HierController.Controller.Reset` | Edge/edgecontrollerhier.cpp:460-488 | flushes and announces again; ends with exact tables although nested rebuilds may happen in its loop |
| `HierController.Controller.FindClosest` | Edge/edgecontrollerhier.cpp:306-391 | cached or not, the first address of minimum score for the current routers |
| `HierController.Controller.ExactlyOneHome` | Edge/edgecontrollerhier.cpp:85-171 | with one router per address every (lambda, computer) pair is announced under exactly one router |
| `HierController.HomeIsForcedIff` | Edge/edgecontrollerhier.cpp:393-412 | the home of a computer is the only one that can be drawn if and only if no other router is at its address |
| `HierController.TwoHomes` | Edge/edgecontrollerhier.cpp:404-411 | in every sound and exact state, drawing a second router at the address of the home is permitted, gives the computer two homes, and leaves announcements sound and tables exact |
| `HierController.TwoHomesOnOneNode` | Edge/edgecontrollerhier.cpp:404-411 | the same for one node with two routers and a computer |
| `HierController.HomeIsUnique` | Edge/edgecontrollerhier.cpp:393-412 | the router that may serve a computer is determined when no two routers share an address |
| `HierController.AddressOfIs` | Edge/edgecontrollerhier.cpp:414-421 | the address is what comes before the first colon; there is none without a colon, or if it or what follows is empty |
| `Announcements.HomeStaysExact` | Edge/edgecontrollerhier.cpp:85-171 | final entries at the home keep its table exact |
| `Announcements.OtherStaysExact` | Edge/edgecontrollerhier.cpp:85-171 | non-final entries towards the home, for lambdas new there, keep every other table exact |
| `Announcements.Reannounce` | Edge/edgecontrollerhier.cpp:460-488 | announcing the same computer again changes neither announcements nor tables |
| `NetworkTopology.FirstMinimumIsClosest` | Edge/edgecontrollerhier.cpp:366-391 | the first minimum in key order is the address that the specification selects |
| `NetworkTopology.ClosestIsUnique` | Edge/edgecontrollerhier.cpp:306-391 | there is only one such address |
| `NetworkTopology.OmegaIsLexicographic` | Edge/edgecontrollerhier.cpp:341-370 | for whole distances within the number of nodes the score orders routers lexicographically by (maximum, average) or (average, maximum) |
| `NetworkTopology.RankingIsRightIff` | Edge/edgecontrollerhier.cpp:341-370 | for any distances, two routers are ordered like that if and only if the weighted gap of the leading cost outweighs what the other cost says against it |
| `NetworkTopology.CostBounds` | Edge/edgecontrollerhier.cpp:341-370 | the ranges of both costs that make the weight of the score big enough |
| `NetworkTopology.FarthestIsMax` | Edge/edgecontrollerhier.cpp:345-363 | the largest distance to a router is no less than any and equal to one |
| `NetworkTopology.SpreadCountsEach` | Edge/edgecontrollerhier.cpp:345-363 | the sum of distances counts every router once |
| `NetworkTopology.MaxCostIsMax` | Edge/edgecontrollerhier.cpp:345-363 | the maximum cost of a router is the largest of reaching the computer and then any router |
| `NetworkTopology.HomesOnLopsided` | Edge/edgecontrollerhier.cpp:341-370 | four nodes with different distances there and back: the router that each objective selects, which pins the direction of every distance and the weight of the score |
| `NetworkTopology.FractionalDistancesBreakTheRanking` | Edge/topology.cpp:147-156 | two routers that fractional distances put in the wrong order |
| `ForwardingTables.ForwardingTable.Change` | Edge/forwardingtable.cpp:71-102 | the entries after a change, with the final flag of the last one |
| `ForwardingTables.ForwardingTable.Remove` | Edge/forwardingtable.cpp:152-168 | the entries after a removal; a lambda without destinations is gone |
| `ForwardingTables.ForwardingTable.Lookup` | Edge/forwardingtable.cpp:178-188 | some listed destination, or none exactly when there is none |
| `ForwardingTables.DualTableServer.Configure` | Edge/forwardingtableserver.cpp:49-105 | flush, change and remove over two tables: the second holds the final entries only |
| `ForwardingTables.ChangeAllContents` | Edge/forwardingtableserver.cpp:49-105 | what a series of changes leaves in both tables, entry by entry |
| `EdgeRouting.EdgeRouter.Destination` | Edge/edgerouter.cpp:65-70 | relayed requests consult the final table only |
| `EdgeRouting.EdgeRouter.ProcessFailure` | Edge/edgerouter.cpp:89-96 | a failed destination leaves both tables |
| `EdgeRouting.EdgeRouter.Process` | Edge/edgelambdaprocessor.cpp:95-150 | without a controller: the retry loop ends; it fails only for a looping request or when every destination was tried and failed; exactly the failed ones are purged |
| `EdgeRouting.ProcessAndReport` | Edge/edgelambdaprocessor.cpp:95-168 | with a controller, which may install destinations again and may be out of reach: the loop still ends; it gives up only for a looping request or without destinations, and otherwise answers from a listed one; all computers reported as failed and no others are removed; tables that were exact are exact afterwards if and only if nothing failed, no known router has these tables, or the last failure was reported and not of a router; for a relayed request it is enough that it was reported |
| `EdgeRouting.Report` | Edge/edgelambdaprocessor.cpp:133-141 | purging a destination and reporting it makes all tables exact if the controller serves it, and otherwise changes one entry of one router |
| `EdgeRouting.PurgedIsExactIff` | Edge/edgerouter.cpp:89-96 | purged tables with nothing wrong in them are exact if and only if they were before, and the destination is neither served there nor a home of the lambda |
| `EdgeRouting.PurgedLeanIsExactIff` | Edge/edgelambdaprocessor.cpp:133-136 | after the purge of an offered destination all tables are exact if and only if no known router has the purged ones |
| `EdgeRouting.UnservedIsRouter` | Edge/edgelambdaprocessor.cpp:133-141 | a failed destination that the controller does not serve is another known router, and the request is not a relayed one |
| `EdgeRouting.PurgedStillOffersIff` | Edge/edgerouter.cpp:89-96 | after purging a home, clients still get somewhere if and only if the router itself or another one is home of the lambda |
| `EdgeRouting.AtMostTwoRouters` | Edge/edgelambdaprocessor.cpp:114-117 | whatever the tables pick, a request meets at most two routers and ends on a computer that offers its lambda |
| `EdgeRouting.RelayedEndsHere` | Edge/edgemessages.cpp:118-122 | a relayed request goes to a computer next |
| `EdgeRouting.PickIsExact` | Edge/edgerouter.cpp:65-70 | what a picked destination can be, given the invariant of the controller |
| `EdgeRouting.HomeKnowsTheLambda` | Edge/edgerouter.cpp:65-70 | the home always has a destination for a relayed request |
| `EdgeRouting.EveryRouterKnowsTheLambda` | Edge/edgerouter.cpp:65-70 | every known router has a destination for every offered lambda |
| `MultiClient.StepKeepsInv` | Edge/edgeclientmulti.cpp:139-267 | every step of callers, executors and consumer keeps the invariant |
| `MultiClient.ReachableIsSafe` | Edge/edgeclientmulti.cpp:139-267 | one go-ahead at most; its holder finds all queues empty and all executors idle; the pending request is never replaced while it can be read; popped responses are awaited ones; returned results are justified by the answers, and by which of them is `MultiClientHistory.ReachableIsRecorded` |
| `MultiClient.CanStep` | Edge/edgeclientmulti.cpp:196-267 | no state is deadlocked |
| `MultiClient.StepReducesWork` | Edge/edgeclientmulti.cpp:139-194 | every step other than a new call reduces the outstanding work |
| `MultiClient.RunsSettle` | Edge/edgeclientmulti.cpp:139-267 | runs without new calls are bounded and can always go on until the go-ahead is back |
| `MultiClientHistory.StepKeepsHistory` | Edge/edgeclientmulti.cpp:196-267 | every step keeps what is recorded of each request |
| `MultiClientHistory.ReachableIsRecorded` | Edge/edgeclientmulti.cpp:196-267 | in every reachable state: the primary at the time was among the destinations of every request; a good result is the first good answer popped, after bad ones only; an error comes after one bad answer from every destination and is the last of them; the primary is the responder of the last good result |
| `Dags.ExpectedIsEdgeCount` | Edge/edgecomputer.cpp:364-398 | the count of the loops over successors is the number of edges into a function |
| `Workflow.StepKeepsInv` | Edge/edgecomputer.cpp:57-155 | every step of a workflow keeps the invariant on invocations, counters and order; what is kept of refused and stopped edges is `WorkflowHistory.StepKeepsHistory` |
| `Workflow.EveryRunIsSafe` | Edge/edgecomputer.cpp:57-155 | no function executes twice or before all its predecessors, one callback at most, every counter stays between zero and the in-degree |
| `Workflow.CallbackComesLast` | Edge/edgecomputer.cpp:400-416 | the callback is called only after all functions have executed |
| `Workflow.WithoutFailuresAllRunOnce` | Edge/edgecomputer.cpp:57-155 | if nothing fails, in the end every function has executed exactly once, with one callback and no counter left |
| `Workflow.RunsEnd` | Edge/edgecomputer.cpp:57-155 | a workflow takes a bounded number of steps and is never stuck before its end |
| `Workflow.DeliveredThenThrown` | Edge/edgecomputer.cpp:127-155 | an invocation that is delivered although the call throws is made of these steps too |
| `WorkflowHistory.StepKeepsHistory` | Edge/edgecomputer.cpp:127-146 | every step of a workflow keeps account of every edge of a completed function: followed, refused, still to come or given up |
| `WorkflowHistory.ReachableForgetsNone` | Edge/edgecomputer.cpp:127-146 | in every reachable state, whatever failed: each successor of a completed function has been invoked, or has refused, or its turn is still to come, or the call threw at it or before it; a function whose call threw invokes nothing from there on, and one that was refused goes on; a workflow has failed exactly when one of these things or a throwing function has happened |
| `WorkflowHistory.HistoryIsOfTheRun` | Edge/edgecomputer.cpp:127-146 | the edges recorded as followed, refused and stopped are exactly those of such steps in the run |
| `WorkflowHistory.QuiescentFollowsAllOthers` | Edge/edgecomputer.cpp:127-146 | once nothing is left to do, exactly the edges of completed functions that were neither refused nor given up have been followed |
| `WorkflowHistory.QuiescentRanIff` | Edge/edgecomputer.cpp:364-398 | a function has then executed if and only if all its predecessors completed and none of the edges into it was refused or given up |
| `WorkflowSystem.HashIsInjective` | Edge/edgecomputer.cpp:418-420 | keys of different functions or workflows differ |
| `WorkflowSystem.StepProjects` | Edge/edgecomputer.cpp:364-398 | a step of one workflow is a step of it alone and none of any other |
| `WorkflowSystem.RunsProject` | Edge/edgecomputer.cpp:364-420 | seen from one workflow, an interleaved run is a run of that workflow |
| `WorkflowSystem.WorkflowsDoNotInterfere` | Edge/edgecomputer.cpp:364-420 | the safety of each workflow in any interleaving, and empty tables once all have completed |
| `EdgeComputer.Computer.CheckPreconditions` | Edge/edgecomputer.cpp:364-398 | the join counter and the decision agree with the specification |
| `EdgeComputer.Computer.Process` | Edge/edgecomputer.cpp:255-327 | which requests are refused, answered, queued or absorbed by a join |
| `EdgeComputer.DeliverTo` | Edge/edgecomputer.cpp:255-327 | a delivery in the system of workflows is a call of this method: table and queue of the computer follow the next state, other tables and workflows are untouched, and a computer that is not asynchronous refuses and changes nothing |
| `EdgeComputer.LastOfDag` | Edge/edgecomputer.cpp:400-416 | which function of a DAG is the last, and that a single one never is |
| `EdgeComputer.RefusedByKind` | Edge/edgecomputer.cpp:255-300 | a plain request is never refused; exactly when a function of a chain or of a DAG is |
| `EdgeComputer.PlainIsReady` | Edge/edgecomputer.cpp:364-398 | a plain request, or a function of a chain, is always ready and leaves the table alone |
| `RunQueue.MakeActive` | Edge/container.cpp:196-216 | inserting into the list of differences is a stable insertion by absolute residual, changes no other task, and no 64-bit sum or difference leaves its range |
| `RunQueue.FrontLowersAll` | Edge/container.cpp:155-183 | lowering the front lowers all tasks by the same amount |
| `RunQueue.PopLowersAll` | Edge/container.cpp:126-131 | taking the front out lowers all others by what it still needed |
| `RunQueue.AbsoluteIsInjective` | Edge/container.cpp:196-216 | differences and absolute residuals determine each other |
| `RunQueue.AbsoluteIsOrdered` | Edge/container.cpp:196-216 | the list is in the order in which tasks end |
| `RunQueue.CalendarSteps` | Edge/container.cpp:126-216 | the list is a calendar: a task keeps the operation count at which it ends, whatever is pushed, popped or advanced |
| `Containers.PushOk` | Edge/container.cpp:69-87 | a push keeps the memory account, affects no other container and cannot stall a container alone on its processor |
| `Containers.PopOk` | Edge/container.cpp:126-153 | the front can always give its memory back; pops keep the account, lose just its id, and leave no pending work without an active task on a processor of one's own |
| `Containers.FillDoesNotStall` | Edge/container.cpp:136-150 | the loop that starts waiting tasks leaves none waiting with nothing active |
| `Containers.FillStartsInOrder` | Edge/container.cpp:136-150 | the tasks that start are the first of those that wait, and the next one lacks a worker or memory |
| `Containers.CompleteLeaves` | Edge/container.cpp:126-153 | when a completed task leaves, all other tasks are kept with the operations they had |
| `Containers.PushOvertakes` | Edge/container.h:84-85 | exactly when a push starts ahead of a task that waits and goes on waiting; otherwise it is behind all of them |
| `Containers.OvertakingIsSmaller` | Edge/container.h:84-85 | where waiting tasks are blocked, only a task with less memory overtakes the first of them |
| `Containers.FirstComeIsNotServedFirst` | Edge/container.h:84-85 | three pushes to an empty container after which a later task runs and an earlier one waits |
| `Containers.IdleProcessor` | Edge/processor.h:178-180 | exactly when "no memory used if and only if nothing runs" holds |
| `Containers.ZeroMemoryTaskRuns` | Edge/processor.h:178-180 | one push to an empty container after which it does not |
| `Machines.PushKeepsInv` | Edge/computer.cpp:126-167 | a push keeps the invariant of all containers and processors |
| `Machines.PopKeepsInv` | Edge/computer.cpp:312-321 | so does a pop with its callback |
| `Machines.AdvanceKeepsInv` | Edge/computer.cpp:219-230 | so does the passing of time |
| `Machines.ResidentAreActive` | Edge/processor.cpp:70-90 | what a processor accounts for are exactly the active tasks of the containers on it |
| `Machines.ExactlyOnePlace` | Edge/computer.cpp:126-167 | every accepted task is active, pending or called back, in exactly one place |
| `SimulatedComputer.Processor.Allocate` | Edge/processor.cpp:70-79 | fails exactly when the memory is not available |
| `SimulatedComputer.Processor.Free` | Edge/processor.cpp:81-90 | fails exactly when less memory is in use |
| `SimulatedComputer.OpsTimeRoundTrip` | Edge/processor.cpp:92-103 | in the time that operations take exactly these operations are done |
| `SimulatedComputer.SpeedIsShared` | Edge/processor.cpp:131-134 | a task with a core to itself has the speed of the core; with as many tasks as cores or more they share all cores; no task is faster than a core and all together not faster than the cores |
| `SimulatedComputer.SpeedFalls` | Edge/processor.cpp:131-134 | more tasks never make a task faster |
| `SimulatedComputer.OpsAreNearest` | Edge/processor.cpp:101-103 | the operations done in some time are those of the speed, to the nearest one |
| `SimulatedComputer.OpsLeftIs` | Edge/container.cpp:155-183 | what is left of a task that has a core to itself, or that n times as many tasks as cores slow down by n |
| `SimulatedComputer.OneOfFourCores` | Edge/processor.cpp:101-134 | one task of 40 operations on four cores of speed ten has 30 left after a second, and one of eight has 35 |
| `SimulatedComputer.Container.Push` | Edge/container.cpp:69-87 | the list of differences follows the specification; allocation never fails; refused only above the total memory |
| `SimulatedComputer.Container.Pop` | Edge/container.cpp:126-153 | the same for pops, with the loop that starts waiting tasks |
| `SimulatedComputer.Container.Advance` | Edge/container.cpp:155-183 | the same for time, which never goes backwards; what is left of the front task, and nothing else is written |
| `SimulatedComputer.Computer.AddTask` | Edge/computer.cpp:126-167 | which tasks are accepted, under which id, with the whole invariant kept; the elapsed time goes by first and then the task is pushed, and nothing else changes; the clock runs exactly when some task is active, unless a task has been refused since it was set last, which stops it |
| `SimulatedComputer.Computer.Pause` | Edge/computer.cpp:219-230 | every container advances by the operations of its own processor |
| `SimulatedComputer.Computer.DispatchCompleted` | Edge/computer.cpp:312-321 | afterwards no completed task is active, all that were have been handed to the callback, and every task with operations left is where it was or has started, as it was |
| `SimulatedComputer.Computer.Dispatch` | Edge/computer.cpp:239-271 | a task that is due after the elapsed time is handed to the callback in this round, and so are all that are complete by then; those with operations left stay, as the elapsed time left them |
| `LoadSharing.GreedyIsNearBest` | Edge/edgecontrolleretsibalanced.cpp:222-262 | biggest first to a least loaded of m computers: no load above 4/3 - 1/(3m) times the highest of any other assignment |
| `LoadSharing.AnyOrderIsWithinTwice` | Edge/edgecontrolleretsibalanced.cpp:222-262 | in any order: no load above 2 - 1/m times the highest of any other assignment |
| `Balancer.Count` | Edge/edgecontrolleretsibalanced.cpp:178-186 | the nested map holds exactly the groups with their number of clients |
| `Balancer.Counters` | Edge/edgecontrolleretsibalanced.cpp:188-202 | all groups once, in descending order |
| `Balancer.Stations` | Edge/edgecontrolleretsibalanced.cpp:204-220 | every computer once, with exactly the lambdas that it offers |
| `Balancer.Place` | Edge/edgecontrolleretsibalanced.cpp:228-262 | the list stays in order of load; the group goes to a least loaded computer that offers its lambda |
| `Balancer.Table` | Edge/edgecontrolleretsibalanced.cpp:149-269 | one row for every group that some computer can serve and none else, each to a least loaded one at that point; the lambdas that nobody serves |
| `Balancer.LoadIsConserved` | Edge/edgecontrolleretsibalanced.cpp:149-269 | the loads add up to the number of contexts that can be served |
| `Balancer.TableIsNearBest` | Edge/edgecontrolleretsibalanced.cpp:149-269 | the bound of 4/3 - 1/(3m) for the table, when all computers offer all lambdas |
| `Balancer.Controller.AddComputer` | Edge/edgecontrolleretsibalanced.cpp:68-90 | for every lambda: the offers grow by this computer where it is named; the proxy keeps the default it has, and gets this computer where it had none |
| `Balancer.Controller.DelComputer` | Edge/edgecontrolleretsibalanced.cpp:92-127 | for every lambda: the offers lose this computer where it is named; the proxy has a default exactly where some computer is left, the first of these if this one was the default and otherwise the one it had |
| `Mcfp.InputCheck` | LambdaMuSim/mcfp.cpp:333-363 | accepts exactly consistent input |
| `Mcfp.SolveGreedy` | LambdaMuSim/mcfp.cpp:280-331 | requests and capacities respected, cost the weighted sum, as many units placed as requests and capacities allow, tasks served in order, every row on the first cheapest workers with capacity left to it, and so at least cost |
| `Mcfp.CheapFirstIsCheapest` | LambdaMuSim/mcfp.cpp:303-328 | using a worker only when no cheaper one has room is optimal for one task |
| `Mcfp.GreedyIsUnique` | LambdaMuSim/mcfp.cpp:280-331 | there is only one assignment of which this holds |
| `Mcfp.SolveRandom` | LambdaMuSim/mcfp.cpp:236-278 | for all random numbers: the units of tasks and of workers, each with its number and in their order, are matched one to one as far as they go; requests and capacities respected, cost the weighted sum, as many units placed as possible |
| `Mcfp.RandomIsUnique` | LambdaMuSim/mcfp.cpp:236-278 | the random numbers determine the assignment |
| `AppPools.SelectPeriods` | LambdaMuSim/appperiods.cpp:44-78 | the selected lists of periods are even, not empty and exactly those long enough |
| `AppPools.AppPool.constructor` | LambdaMuSim/apppool.cpp:50-84 | one transition ahead per application, none negative, at twice the offset; the list holds the repeated differences of the drawn periods, sorted |
| `AppPools.Differences` | LambdaMuSim/apppool.cpp:81-84 | what the constructor leaves is never negative |
| `AppPools.DifferencesAreExact` | LambdaMuSim/apppool.cpp:81-84 | it stands for the drawn periods exactly when all but the two longest are zero |
| `AppPools.ThirdApplicationIsLate` | LambdaMuSim/apppool.cpp:81-84 | three applications for which it does not |
| `AppPools.PutBack` | LambdaMuSim/apppool.cpp:132-148 | putting an application back changes the time of no other |
| `AppPools.AppPool.Advance` | LambdaMuSim/apppool.cpp:117-150 | the times of all transitions afterwards, the elapsed time added once more included; the index goes to the next period, with wrap-around, and so changes parity |
| `AppPools.BackOnTimeIff` | LambdaMuSim/apppool.cpp:130-131 | the application comes back after its period if and only if no time had elapsed |
| `AppPools.BackTooLate` | LambdaMuSim/apppool.cpp:130-131 | two applications for which it does not |
| `AppPools.AppPool.AdvanceClock` | LambdaMuSim/apppool.cpp:111-115 | every transition comes nearer by the time, and none but the front is written |
| `Weights.Aggregate` | LambdaMuSim/scenario.cpp:801-816 | one weight for each edge node with a container, in order: the sum of the units of its containers; units and cost stay |
| `Scenarios.Scenario.AssignMuApps` | LambdaMuSim/scenario.cpp:619-706 | for every solver that picks different containers: each mu-app is in the container picked for it among those of the shares, in the order of the nodes, listed at exactly its edge node, none beyond its share, the cost the sum of the charges |
| `Scenarios.Scenario.AssignLambdaApps` | LambdaMuSim/scenario.cpp:708-820 | lambda-apps share exactly the containers left; the units are what the greedy or the random solution promises for this flow problem, and determine weights and cost |
| `Scenarios.Scenario.MigrateLambdaToMu` | LambdaMuSim/scenario.cpp:822-858 | a free container is always found, the first cheapest; lists and shares stay right; both costs |
| `Scenarios.Scenario.MigrateMuToLambda` | LambdaMuSim/scenario.cpp:860-883 | the application leaves its list and is served by the cloud; both costs |
| `Scenarios.MuChargeIsCost` | LambdaMuSim/scenario.cpp:649-659 | for a given placement: exactly when an epoch charges for mu-apps what the running cost assumes |
| `Pricing.MuChargeIsCostForEveryPickIff` | LambdaMuSim/scenario.cpp:649-659 | it does so whatever the solver picks if and only if every mu-app has unit factors or no distance to any container it may get |
| `Pricing.FairMuByNodeIff` | LambdaMuSim/scenario.cpp:623-634 | the same condition over the edge nodes with containers to use |
| `Pricing.DistancesAreMuTotal` | LambdaMuSim/scenario.cpp:897-903 | the distances picked add up to the recomputed cost |
| `Scenarios.RateTwoIsChargedTwice` | LambdaMuSim/scenario.cpp:897-903 | an application for which it does not |
| `Scenarios.LambdaChargeIsCost` | LambdaMuSim/scenario.cpp:757-769 | for given units: exactly when an epoch charges for lambda-apps what the running cost assumes |
| `Pricing.LambdaChargeIsCostForEveryResultIff` | LambdaMuSim/scenario.cpp:757-769 | it does so for all results that place as many units as possible if and only if, for every application with a demand and container with capacity, the exchange is one or the distance zero, and storage is zero or free |
| `Pricing.ExchangeTwoIsChargedTwice` | LambdaMuSim/scenario.cpp:885-895 | an application for which it does not |
| `Pricing.UnitIsPricedIff` | LambdaMuSim/scenario.cpp:764-767 | storage of a unit is priced by its edge node if and only if index and node agree on the cloud, or it makes no difference |
| `Pricing.SecondCloudContainerIsRemote` | LambdaMuSim/scenario.cpp:764-767 | the second container of the cloud is charged the remote price |
| `Pricing.MatrixIsPricedIff` | LambdaMuSim/scenario.cpp:757-769 | all units are priced by node if and only if one container of the cloud is left to lambda-apps, or prices are equal, or there is no storage |
| `Pricing.DynamicMatrixIsPricedIff` | LambdaMuSim/scenario.cpp:337-339 | in dynamic runs with a lambda-app: if and only if prices are equal or there is no storage |
| `Pricing.SnapshotLeavesOneIff` | LambdaMuSim/scenario.cpp:532-534 | in snapshots one container of the cloud is left if and only if all mu-apps are there |
| `Mcfp.FullWith` | LambdaMuSim/mcfp.cpp:236-331 | every pair of a task with a request and a worker with capacity is used by some result that places as many units as possible |
| `Scenarios.UnitChargeIsCost` | LambdaMuSim/scenario.cpp:885-895 | with unit exchanges and free storage the charge is the recomputed cost, through the aggregation per edge node |
| `Scenarios.CloudIsEnough` | LambdaMuSim/scenario.cpp:532-534 | truncation and floor together lose one unit of the demand at most |
| `Scenarios.CloudIsExactIff` | LambdaMuSim/scenario.cpp:532-534 | they lose none if and only if the demand divided by beta is whole |
| `Scenarios.OneUnitIsLost` | LambdaMuSim/scenario.cpp:532-534 | a demand and a beta for which they lose one |
| `Scenarios.AtMostOneUnitUnserved` | LambdaMuSim/scenario.cpp:724-751 | an assignment leaves at most one unit of the demand of lambda-apps unserved, and none if the quotient is whole |
| `Dynamics.Snapshot` | LambdaMuSim/scenario.cpp:499-559 | the same for whole snapshots, with mu-apps listed and within shares, both kinds placed as their solvers say and the two costs those of the placement; invalid arguments change nothing |
| `Dynamics.Optimise` | LambdaMuSim/scenario.cpp:396-422 | what an epoch does to applications, edge nodes and costs, with both kinds placed as their solvers say |
| `Dynamics.StartDynamic` | LambdaMuSim/scenario.cpp:302-310 | which arguments are refused; otherwise a simulation in which the invariant holds |
| `Dynamics.Simulation.constructor` | LambdaMuSim/scenario.cpp:312-361 | the invariant holds when all applications are born, with the cloud sized for all of them and the periods as drawn |
| `Dynamics.Simulation.EpochStep` | LambdaMuSim/scenario.cpp:367-427 | an epoch keeps the invariant; if something had changed, mu-apps and lambda-apps are placed anew by the next draw of their solvers and the costs are those of this placement; otherwise nothing changes |
| `Dynamics.Simulation.EventStep` | LambdaMuSim/scenario.cpp:429-478 | a transition keeps the invariant, moves one application only, takes its time off the epoch, and leaves the difference between running and recomputed costs as it is |
| `Dynamics.Simulation.Step` | LambdaMuSim/scenario.cpp:362-485 | a round is an epoch if that comes no later than the next transition, and takes the smaller time of the two |
| `Dynamics.Simulation.ServedInEpoch` | LambdaMuSim/scenario.cpp:724-751 | between an epoch and the next transition of a run, at most one unit of the demand of lambda-apps is not served |
| `Dynamics.Simulation.Run` | LambdaMuSim/scenario.cpp:362-485 | in every state after the first epoch: mu-apps listed at exactly their edge node, shares kept, weights of lambda-apps only, the count of lambda-apps right, lambda exactly at even indices, and running costs equal to recomputed ones up to the difference charged at the last epoch, which is zero for unit factors and free storage; in every state with no transition since the last epoch: all placed as its solvers said, at the costs of this placement |
| `Estimators.DestinationTable.Add` | Edge/destinationtable.h:197-224 | the pairs grow by this one; a descriptor that is there stays, and so do all others |
| `Estimators.DestinationTable.Remove` | Edge/destinationtable.h:226-245 | the pairs lose this one and the other descriptors stay; the lambda goes away if and only if this was its last destination |
| `Estimators.DestinationTable.Best` | Edge/destinationtable.h:153-176 | the first destination with the highest value |
| `Estimators.SmallestSum` | Edge/utilestimator.cpp:155-195 | walking both maps together matches keys and finds the first destination with the smallest sum |
| `Estimators.PtimeEstimatorUtil.Change` | Edge/ptimeestimator.cpp:52-82 | the three tables keep the same pairs, with the computers as their inverse index; a new estimate begins at zero and the others stay |
| `Estimators.PtimeEstimatorUtil.RemoveOne` | Edge/ptimeestimator.cpp:105-131 | the same for the removal of one destination; the other estimates stay |
| `Estimators.PtimeEstimatorUtil.RemoveAll` | Edge/ptimeestimator.cpp:133-148 | the same for all destinations of a lambda; the other estimates stay |
| `Estimators.PtimeEstimatorUtil.ProcessFailure` | Edge/ptimeestimator.cpp:92-103 | the same after a failure; the other estimates stay |
| `Estimators.PtimeEstimatorUtil.ProcessSuccess` | Edge/ptimeestimatorutil.cpp:69-95 | both estimates are updated or none is |
| `Estimators.PtimeEstimatorUtil.PrivateAdd` | Edge/utilestimator.cpp:223-236 | one more pair in both estimators and in the index |
| `Estimators.PtimeEstimatorUtil.PrivateRemove` | Edge/utilestimator.cpp:238-250 | one pair less in both estimators and in the index |
| `Estimators.PtimeEstimatorUtil.Select` | Edge/ptimeestimatorutil.cpp:55-67 | the first destination in the table with the smallest estimated time, or none for an unknown lambda |

## Left out

- Scenarios.MuChargeIsCost: for a given placement; the condition over the input is in
  `Pricing.MuChargeIsCostForEveryPickIff`.
- Scenarios.LambdaChargeIsCost: for given units; the condition over the input is in
  `Pricing.LambdaChargeIsCostForEveryResultIff`.
- gRPC, REST, QUIC and OpenWhisk clients and servers, threads, mutexes and condition variables:
  calls are outcomes, queues are sequences, and locked sections are atomic steps.
- `Mcfp::solve` (successive shortest paths) and the Hungarian library are not part of this model;
  the assignment of mu-apps is any choice of different containers, with its cost as the sum.
- Round robin and proportional fairness of forwarding table entries: a lookup yields some listed
  destination, and a weight matters only where a change is refused for it. Servers with a single
  forwarding table are not modelled.
- The hierarchical controller is modelled for end-points that are in the topology, distinct roles
  of end-points, and routers that are not known yet, as the assertions of the source demand.
- Destruction of the multi-client, and the choice of secondary destinations, which is any choice.
- Chains of functions: a chain is a DAG without joins and adds only easy members.
- DAGs of workflows are well formed (acyclic, one source, one sink, two functions at least), the
  companion is set, and all invocations of one function of one workflow reach one computer.
- Remote states and the content of responses of edge computers.
- SimulatedComputer.Computer.AddTask: containers and processors of the computer are held by name
  as values, so that sharing of processor objects is not captured; the classes Container and
  Processor capture update in place of one container with its processor.
- Identifiers of tasks are unbounded, and so is the number of operations that `timeToOps` gets from
  a time before it is limited by the front task; a conversion to 64 bits is not modelled there.
- `simulate`, utilisation and moving averages are floating-point statistics.
- Failures of the proxy towards the balancing controller, and its periodic optimisation.
- Dynamics.Simulation.Run: a number of rounds of the event loop instead of its termination, which
  an epoch of length zero would prevent; warm-up and weighted means are not modelled.
- A beta of zero, for which the source divides by zero; negative rates and sizes of applications.
- The order of lists of periods, and the cost model from which they come.
- Linear estimators, RTT windows and load timeouts: an estimate is any function of the input size.
- PtimeEstimatorProbe, whose removal adds, so that its tables do not stay in step.
- EdgeClientPool, composer, option parsing, printing, topology files, OpenCV and executables.
