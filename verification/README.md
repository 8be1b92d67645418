# Bisection, flag search and argument building of the toolchain utilities

This project models four parts of the toolchain utilities repository and proves what they promise.
`dafny verify dfyconfig.toml` checks all of it.

**Bisection** (`Sequences`, `BinarySearch`, `PassBisection`, `Bisection`, `Pruning`,
`BisectionDriver`). A bisection looks for the items of a list (commits, object files) that make a test
go bad, with three-valued answers: good, bad, skip. `BinarySearch` is one search, with its
breadth-first probe around skipped indices; `PassBisection` is the search for a bad optimisation pass;
`Bisection` says as functions what one search, one prune cycle and a whole run do and which states
they save; `BisectionDriver` holds the driver object, whose methods change its fields and the
environment as the program does and are proved against those functions. The switch scripts act on the
environment, the set of items at their bad version; the setup and test scripts are functions of it.

**Pipeline** (`FlagSets`, `Pipeline`, `PipelineSafety`, `PipelineProgress`, `PipelineProcesses`). A stage
that builds or tests tasks: a dispatcher, a pool of workers and a helper, with four queues between them
and a pill for shutting down. `Pipeline` is a step relation. Each step of a process takes at most one
message from a queue and puts out what that message, or a report, calls for; a worker's two puts are
separate steps. A sequence of actions is an interleaving. The objects of `PipelineProcesses` are the loops
as written, proved to do what the actions say.

**Search for good flags** (`FlagNeighbours`, `HillClimb`, `Elimination`, `Genetic`, `SteeringLoop`,
`ClosedLoop`, `ClosedLoopRuns`, `ClosedLoopCosts`, `Circle`). Generations of tasks, the three search
algorithms, the steering loop that drives them, and the closed circle of steering, builder and tester.
`Circle` puts the objects of steering and the two stages together and runs them to their end.

**Command builder** (`CommandBuilding`, `ArgumentFilters`, `RemoteBuildFlags`). The compiler wrapper's
argument list, edited by overwriting the array that is being read.

What the proofs show about the code, beyond what its documentation says:

- With every index of the interval skipped, the probe's loop would never end and never empty its queue;
  `GetNext` is not called then (`BinarySearch.ProbeEndsIff`).
- With skips a search ends exactly at the first bad index if and only if the test skips neither side of it
  (`BinarySearch.EndsExactly`). It can end beyond it, and then pruning takes a culprit for known good and
  blames an innocent item (`Pruning.CulpritKnownGood`). That happens exactly in the cycles whose search ends
  beyond the first culprit of the list (`Pruning.KnownExactly`), which takes a skipped test of the items up
  to that culprit (`Pruning.PhaseFinds`).
- While the tests next to the first culprit of each cycle's list are not skipped, pruning finds exactly the
  culprits if and only if it is allowed as many cycles as there are culprits (`Pruning.PruneFindsAll`). Without a culprit in the list it blames the last item
  (`Pruning.NoCulprit`), and a list of one item is never searched (`Pruning.SingleItem`).
- In the pass search a skipped limit is asked for again until the iterations are spent
  (`PassBisection.EndsOrSticks`), and a least bad limit of 1 stops it at limit 0, like 0 itself.
- `removeOneUserCmdlineFlagWithValue` is documented to leave the builder unmodified when there is no such
  flag. It does so if and only if no argument is empty (`RemoteBuildFlags.UnmodifiedWithoutFlag`,
  `RemoteBuildFlags.EmptyArgumentDropped`).
- `addPreUserArgs` puts its arguments last when no user argument is left. The order of the three blocks of
  arguments breaks exactly when there are also arguments that were put after the user's
  (`CommandBuilding.OrderKept`, `CommandBuilding.PreAfterPost`).
- One pass of `filterArgPairs` can bring a new pair together (`ArgumentFilters.PairExposed`).
- Steering asserts that a new generation has a task. Only hill climbing can fail that assertion, exactly when
  the best task improves and all its neighbours have been sent (`SteeringLoop.Finish`); one boolean flag
  that pays is enough (`SteeringLoop.ClimbsIntoAssertion`). The run has found an optimum then, but no pill is
  sent, and both stages hang (`Circle.Run`, `ClosedLoopRuns.HungForEver`).
- `flags.py:104-112` says that a random value excludes the end of its range; the call includes it. Climbing
  never raises a flag to the end value. The space of flag sets follows the code.

## Model

| member | source | states |
|---|---|---|
| BinarySearch.ProbeEndsIff | binary_search_tool/binary_search_perforce.py:221-244 | the probe's loop, whose queue entries reproduce themselves, ends if and only if some index of [lo, hi) has not been skipped |
| BinarySearch.ProbeStuck | binary_search_tool/binary_search_perforce.py:221-244 | with every index skipped, the queue grows by one entry a turn for ever |
| BinarySearch.FollowTracks | binary_search_tool/binary_search_perforce.py:224-240 | the queue entry that covers an unskipped index becomes smaller or moves up at every turn |
| BinarySearch.BinarySearcher.GetNextFlakyBinary | binary_search_tool/binary_search_perforce.py:221-244 | the loop over the mutable queue ends at the index the specification gives, which is in [lo, hi) and not skipped |
| BinarySearch.NextIndex | binary_search_tool/binary_search_perforce.py:262-267 | the index asked about next lies in [lo, hi) and has not been skipped; which one it is, `NextIsBreadthFirst` says |
| BinarySearch.NextIsBreadthFirst | binary_search_tool/binary_search_perforce.py:221-267 | split [lo, hi] at its middle, the halves at theirs, and so on, level by level: the index asked about next is the first middle in this order that has not been skipped |
| BinarySearch.BreadthFirstUnique | binary_search_tool/binary_search_perforce.py:221-267 | there is only one such index |
| BinarySearch.BinarySearcher.GetNext | binary_search_tool/binary_search_perforce.py:262-282 | makes the first unskipped middle current, changes nothing else, returns its item |
| BinarySearch.BinarySearcher.SetStatus | binary_search_tool/binary_search_perforce.py:175-218 | takes the answer into the fields and says whether the search is finished: bounds met, or everything between them skipped |
| BinarySearch.BinarySearcher.SetSortedList | binary_search_tool/binary_search_perforce.py:164-173 | the fields after a new list; the status log, the skips and `current` are kept |
| BinarySearch.StepKeepsInv | binary_search_tool/binary_search_perforce.py:175-218 | every answer keeps: bounds in range, each justified by a good answer just below lo or a bad one at hi, every tested index settled, none tested twice |
| BinarySearch.AskedAnew | binary_search_tool/binary_search_perforce.py:262-267 | the next index has never been asked about |
| BinarySearch.RoomLeft | binary_search_tool/binary_search_perforce.py:203-218 | an unfinished search has made fewer than n - 1 tests |
| BinarySearch.IntervalIsExact | binary_search_tool/binary_search_perforce.py:175-197 | for every first bad index: the answers so far leave it open if and only if it lies in [lo, hi] |
| BinarySearch.AnySearch | binary_search_tool/binary_search_perforce.py:164-267 | for every sequence of answers: no index tested twice, finished within n - 1 tests, and the interval is what the answers leave open |
| BinarySearch.CurrentPlaced | binary_search_tool/binary_search_perforce.py:203-218 | after every sequence of answers `current`, which a finished search reports, is the index tested last if that was skipped, and else the middle of the interval |
| BinarySearch.DriveFinds | binary_search_tool/binary_search_perforce.py:175-209 | a truthful search that ends, ends with lo = hi = current = the first bad index; an interval shorter than 2^k takes at most k tests |
| BinarySearch.LogarithmicSearch | binary_search_tool/binary_search_perforce.py:164-209 | a fresh search over n <= 2^k items finds the first bad index within k tests |
| BinarySearch.SearchWithSkips | binary_search_tool/binary_search_perforce.py:164-267 | whatever is skipped, a search ends within n - 1 tests and encloses the first bad index; it ends exactly there if and only if the test skips neither side of it, and otherwise only skipped indices are left below hi |
| BinarySearch.EndsExactly | binary_search_tool/binary_search_perforce.py:175-218 | for every finished search: lo = hi = current = the first bad index if and only if the last good and the first bad index were not skipped; it ends beyond the first bad index only if that was skipped |
| BinarySearch.AllSkipped | binary_search_tool/binary_search_perforce.py:175-244 | with every proper prefix of four items skipped, a search ends at index 2 |
| BinarySearch.DriveFrom | binary_search_tool/binary_search_state.py:358-361 | starting again at any turn with the budget that was left ends in the same search |
| PassBisection.PassSearchFinds | binary_search_tool/binary_search_perforce.py:98-144 | with monotone answers, bad at `total` < 2^k, the search ends within k tests: at limit 0 if and only if the least bad limit is 0 or 1, else with lo = hi = the least bad limit |
| PassBisection.EndsOrSticks | binary_search_tool/binary_search_perforce.py:124-144 | whatever the answers: a search not ended within k tests sits at a skipped limit, and no larger budget ends it |
| PassBisection.StuckForever | binary_search_tool/binary_search_perforce.py:124-144 | a skip changes nothing, so the budget is spent on the same limit |
| PassBisection.BinarySearcherForPass.GetNext | binary_search_tool/binary_search_perforce.py:98-107 | the first call sets hi to the total; the middle becomes current |
| PassBisection.BinarySearcherForPass.SetStatus | binary_search_tool/binary_search_perforce.py:109-144 | the new bounds, and whether the search ends |
| PassBisection.DoBinarySearchBadPass | binary_search_tool/binary_search_state.py:604-654 | the loop is the search the lemmas are about, with its count of tests |
| BisectionDriver.BinarySearchState.SwitchToGood | binary_search_tool/binary_search_state.py:119-149 | afterwards exactly the given items have left the bad version, incremental or not, and the two sets of believed versions are exact; the script is given all items, or in an incremental run those not known to be good, and is not run for none |
| BisectionDriver.BinarySearchState.SwitchToBad | binary_search_tool/binary_search_state.py:151-181 | the same for the bad version |
| BisectionDriver.BinarySearchState.SwitchOver | binary_search_tool/binary_search_state.py:370-371 | from any environment to exactly the given items at their bad version, with the good ones switched first, and which script is given what |
| BisectionDriver.SwitchedMore | binary_search_tool/binary_search_state.py:119-181 | every run of a script keeps: the two sets say where the scripts have last put each item, and an incremental run has never given a script an item that is already where it goes |
| BisectionDriver.BinarySearchState.RunTest | binary_search_tool/binary_search_state.py:372-374 | the setup's status if that fails, else the test's, both in the environment on record |
| BisectionDriver.BinarySearchState.GetNextItems | binary_search_tool/binary_search_state.py:760-768 | the items to switch to bad are the prefix up to the next index, those to switch to good the rest of the list and the known good ones; together they are all items of the run, and no item is on both lists |
| BisectionDriver.BinarySearchState.TestNext | binary_search_tool/binary_search_state.py:363-374 | the test runs with exactly that prefix at its bad version, whatever the environment was before |
| BisectionDriver.BinarySearchState.DoTurn | binary_search_tool/binary_search_state.py:358-374 | saves the state first, tests in the environment on record, and answers the searcher |
| BisectionDriver.BinarySearchState.DoBinarySearchBadItems | binary_search_tool/binary_search_state.py:350-382 | one search: the state it ends in, the states it saves and the environments it tests in |
| BisectionDriver.BinarySearchState.PruneFound | binary_search_tool/binary_search_state.py:286-334 | the three endings and the rotation of the list, with no item lost |
| BisectionDriver.BinarySearchState.PopulateItemsUsingList | binary_search_tool/binary_search_state.py:672-682 | a new searcher over the new list |
| BisectionDriver.BinarySearchState.DoCycle | binary_search_tool/binary_search_state.py:280-334 | a turn of the prune loop is the cycle the lemmas are about |
| BisectionDriver.BinarySearchState.DoSearchBadItems | binary_search_tool/binary_search_state.py:274-334 | the whole run: its final state, every state it saves and every environment it tests in |
| BisectionDriver.BinarySearchState.DoVerify | binary_search_tool/binary_search_state.py:240-272 | passes if and only if all items good test good and all items bad test bad, in exactly those environments |
| BisectionDriver.BinarySearchState.LoadState | binary_search_tool/binary_search_state.py:723-750 | the saved state with the two `currently_*` sets empty, sound in any environment |
| BisectionDriver.Run | binary_search_tool/binary_search_state.py:870-1003 | verification, then the run from the initial state; an incremental run never switches an item to where it has put it already |
| BisectionDriver.RunResumed | binary_search_tool/binary_search_state.py:870-1003 | a resumed run ends and saves as the specification says, in whatever environment the crash left |
| BisectionDriver.PrunedByMoving | binary_search_tool/binary_search_state.py:286-334 | popping, appending and slicing make the rotated list, and list and known good items still cover the same items |
| Bisection.Resume | binary_search_tool/binary_search_state.py:684-750 | a run resumed from any state it saved ends in the same found items, known good items, list, searcher and cycle counts |
| Bisection.ResumeSaves | binary_search_tool/binary_search_state.py:684-750 | and saves again exactly the states that were still to come |
| Bisection.ResumeRepeatedly | binary_search_tool/binary_search_state.py:684-750 | any number of crashes and resumptions changes nothing about the end |
| Bisection.ResumePhase | binary_search_tool/binary_search_state.py:350-361 | a resumed search has the budget of cycles that was left |
| Bisection.CheckpointsCover | binary_search_tool/binary_search_state.py:298-322 | at every test the list and the known good items are two parts of the original items |
| Bisection.KnownTestedGood | binary_search_tool/binary_search_state.py:760-768 | no test runs with a known good item, or an item off the list, at its bad version |
| Bisection.KnownAtCheckpoint | binary_search_tool/binary_search_state.py:316-322 | what is known good at any test is known good in the end |
| Pruning.PruneFindsAll | binary_search_tool/binary_search_state.py:274-334 | for tests that may skip, but not next to the first culprit of a cycle: with pruning and enough iterations (n - 1, or log2 n when nothing is skipped) the found items are exactly the culprits if and only if there are at least as many prune cycles allowed as culprits; at most one cycle more than culprits is used |
| Pruning.FindsFirstCulprits | binary_search_tool/binary_search_state.py:274-334 | for the same tests and all budgets, pruning or not: the culprits found are the first ones in list order, as many as the budgets let it reach, and no known good item is a culprit |
| Pruning.PruneRun | binary_search_tool/binary_search_state.py:274-334 | the same from any state between cycles |
| Pruning.CycleAdvances | binary_search_tool/binary_search_state.py:286-334 | a cycle whose tests next to the first culprit are not skipped finds the next culprit in list order and leaves the items beyond it to search |
| Pruning.NoKnownCulprit | binary_search_tool/binary_search_state.py:316-322 | for the same tests, at no test of the run is a culprit taken for known good |
| Pruning.PhaseFinds | binary_search_tool/binary_search_state.py:350-382 | a search narrows down to one item if and only if neither side of the first culprit is skipped, and then to that culprit; it ends beyond it only if the items up to it were skipped |
| Pruning.NoSkipsClear | binary_search_tool/binary_search_state.py:274-334 | a test that never skips satisfies what these results ask of skips |
| Pruning.KnownExactly | binary_search_tool/binary_search_state.py:296-322 | whatever the scripts answer: a run takes no culprit for known good if and only if no search of its cycles ends beyond the first culprit of its list at an item it then blames |
| Pruning.CycleKnows | binary_search_tool/binary_search_state.py:296-322 | the same for one cycle |
| Pruning.KnownWhenTested | binary_search_tool/binary_search_state.py:296-322 | if the items up to the first culprit are never skipped, no culprit is taken for known good, at any test or in the end |
| Pruning.CulpritKnownGood | binary_search_tool/binary_search_state.py:286-322 | a run over four items, verified and with every mixed test skipped, that blames an innocent item and takes the culprit for known good |
| Pruning.VerifyMeansCulprit | binary_search_tool/binary_search_state.py:240-272 | verification passes if and only if there is a culprit among the items and neither of its two tests is skipped |
| Pruning.NoCulprit | binary_search_tool/binary_search_state.py:288-294 | without a culprit the last item is blamed, unless the test of all the items before it is skipped |
| Pruning.SingleItem | binary_search_tool/binary_search_state.py:279-283 | a single item is never found |
| Pipeline.StepConserves | bestflags/pipeline_process.py:115-145 | no step of the dispatcher, a worker or the helper loses or duplicates a task |
| Pipeline.CollectConserves | bestflags/pipeline_worker.py:113-123 | settling a report moves every waiting task with its key to the output, and no other |
| PipelineSafety.StepKeepsInv | bestflags/pipeline_worker.py:46-123 | what every interleaving keeps: each key seen is settled, reported or being worked on, once; no waiting key is settled; equal keys get equal results; the shutdown order |
| PipelineSafety.PhaseStep | bestflags/pipeline_process.py:140-145 | the helper's pill is behind every duplicate, and the helper leaves with nothing waiting |
| PipelineSafety.FreshStep | bestflags/pipeline_worker.py:58-59 | no task is done before it is worked or resolved, so that the assertions of the helper and the worker hold |
| PipelineSafety.OutputCarries | bestflags/pipeline_worker.py:68-85 | every task passed on carries the one result on record for its key |
| PipelineSafety.ExactlyOnce | bestflags/pipeline_process.py:113-145 | over every interleaving, the times a task was taken in are the times it is inside plus the times it was delivered |
| PipelineSafety.ClosedDeliversAll | bestflags/pipeline_process.py:113-145 | a stage that has shut down has delivered exactly the tasks it took in, as multisets |
| PipelineProgress.KeyOnItsWay | bestflags/pipeline_worker.py:64-85 | the key of every queued or waiting duplicate is settled, in the completed queue, or being worked on |
| PipelineProgress.WaitingIsReported | bestflags/pipeline_worker.py:81-85 | once the workers are gone, whatever waits has a report to wait for |
| PipelineProgress.DrainEnds | bestflags/pipeline_worker.py:81-85 | the helper's last loop ends within one turn a report and one more, with nothing waiting |
| PipelineProgress.WorkedOnce | bestflags/pipeline_process.py:122-138 | a worker only ever works a key that was not cached and has not been worked before; the keys handed out are all different |
| PipelineProgress.DeliveriesAgree | bestflags/pipeline_worker.py:68-79 | every delivered task is done and carries the result on record, which for a cached key is the cached one |
| PipelineProgress.BusyStep | bestflags/pipeline_worker.py:49-85 | every step but a look at two empty queues brings the end nearer |
| PipelineProgress.NeverStuck | bestflags/pipeline_process.py:115-145 | there is such a step unless the stage has closed, or waits for input with nothing inside |
| PipelineProgress.CanClose | bestflags/pipeline_process.py:139-145 | from every reachable state with the pill sent, the stage can shut down |
| PipelineProcesses.HelperProcess.PollHelperQueue | bestflags/pipeline_worker.py:49-74 | the helper's turn is the step Poll: a duplicate whose result is known goes on at once, any other to the end of the waiting list, and the pill stops the loop |
| PipelineProcesses.HelperProcess.GetResultFromCompletedQueue | bestflags/pipeline_worker.py:88-123 | resolving and removing one duplicate after the other, in place and by equality of flags, settles the report as specified |
| PipelineProcesses.HelperProcess.ResolveRemaining | bestflags/pipeline_worker.py:81-85 | the last loop puts every waiting duplicate, and nothing else, on the result queue, each with the result of a report for its own key; nothing is left waiting, the reports used up are the first ones, no more than needed, and they are in the dictionary |
| PipelineProcesses.CollectedConserves | bestflags/pipeline_worker.py:81-123 | settling any number of reports loses and duplicates no waiting task |
| PipelineProcesses.CollectedResolve | bestflags/pipeline_worker.py:81-123 | and each task that leaves carries the result of one of these reports for its key |
| PipelineProcesses.RemoveNext | bestflags/pipeline_worker.py:120-123 | `list.remove`, which compares flags, removes the very task that was resolved |
| PipelineProcesses.PipelineProcess.Dispatch | bestflags/pipeline_process.py:115-138 | a turn of the dispatcher is the step Take: a key seen before goes to the end of the helper's queue, a new one to a worker and into the cache, the pill to the next stage |
| PipelineProcesses.Worker | bestflags/pipeline_worker.py:126-147 | the report, under the key the task had, and then the task with its result |
| FlagNeighbours.ClimbNextLevels | bestflags/flags_util.py:15-96 | the neighbours along a specification are exactly one level down, and one level up where the value stays below the end |
| FlagNeighbours.OthersAlone | bestflags/flags_util.py:15-96 | climbing and decreasing move one flag by one level and leave every other flag as it was |
| FlagNeighbours.ClimbRank | bestflags/flags_util.py:15-96 | every neighbour's rank differs by exactly one |
| FlagNeighbours.DecreaseRank | bestflags/iterative_elimination.py:34-80 | decreasing a flag lowers the rank by exactly one |
| FlagNeighbours.InSpace | bestflags/flags.py:94-114 | the enumerated space is exactly the well-formed flag sets over the specifications, so finite |
| FlagNeighbours.ClimbStays | bestflags/flags_util.py:15-96 | climbing stays in the space |
| HillClimb.IsImproved | bestflags/hill_climb_best_neighbor.py:48-77 | the next parent is a cheapest task of the pool; improved if and only if it beats the parent or there is none |
| HillClimb.Next | bestflags/hill_climb_best_neighbor.py:79-110 | the new pool is exactly the uncached neighbours |
| HillClimb.ClimbStops | bestflags/hill_climb_best_neighbor.py:48-77 | a run that stops: its parent is cheapest of everything ever evaluated and of all its neighbours, cached ones included |
| HillClimb.ClimbGoesOn | bestflags/hill_climb_best_neighbor.py:79-110 | a run that goes on keeps this invariant, and its pool is new |
| Elimination.IsImproved | bestflags/iterative_elimination.py:106-116 | true if and only if some task of the pool beats the base line |
| Elimination.FirstIsImproved | bestflags/iterative_elimination.py:174-179 | the first generation's base line becomes the measured task of its own pool |
| Elimination.Next | bestflags/iterative_elimination.py:118-162 | a cheapest task that beats the base line, and exactly its uncached decreases; none when no flag is left |
| Elimination.PoolRank | bestflags/iterative_elimination.py:118-162 | the tasks of generation k rank k + 1 below the first base line, so there are at most rank-many generations |
| Elimination.EliminationGoesOn | bestflags/iterative_elimination.py:118-162 | the next pool is new, complete and not empty while a flag is left, and the new base line is cheapest so far |
| Elimination.EliminationStops | bestflags/iterative_elimination.py:106-116 | the final base line is cheapest of everything evaluated and no one-step decrease beats it |
| Genetic.SortByCost | bestflags/genetic_algorithm.py:261-262 | a sorted list of the same tasks, each as often as before |
| Genetic.IsImproved | bestflags/genetic_algorithm.py:207-232 | exactly when a run goes on, and how the count of generations without improvement changes |
| Genetic.CrossOver | bestflags/genetic_algorithm.py:264-277 | for every sequence of draws: the children are exactly the draws not cached, at most one for each retained task; each task without a child has wasted all its trials, each other one at most as many |
| Genetic.Mutate | bestflags/genetic_algorithm.py:279-293 | for every sequence of draws the passes end, with enough children or with NUM_TRIALS useless draws, which are counted exactly; if there are too few children, every pass was over all retained tasks and the last one ended the trials |
| Genetic.Next | bestflags/genetic_algorithm.py:234-304 | exactly NUM_CHROMOSOMES uncached tasks, so that the final assertion holds, or nothing after NUM_TRIALS useless draws; bred from the NUM_CHROMOSOMES cheapest tasks of the pool and the parents, or all if there are fewer, which are kept: none left out is cheaper than one kept |
| Genetic.BestSelected | bestflags/genetic_algorithm.py:247-262 | the front of the ranking is exactly that choice, and repeats no task when pool and parents are disjoint |
| Genetic.BreedingBest | bestflags/genetic_algorithm.py:251-262 | a cheapest of pool and candidates is cheapest of everything ever evaluated |
| Genetic.BreedingGoesOn | bestflags/genetic_algorithm.py:251-304 | across a run the candidates keep a cheapest task of all earlier generations |
| SteeringLoop.Generation.UpdateTask | bestflags/generation.py:73-112 | the finished task replaces its equal and the pending count is the number still awaited |
| SteeringLoop.Generation.IsImproved | bestflags/generation.py:114-120 | for each algorithm: a run that does not go on has come to its optimum, which is the parent, the base line, or a kept candidate; hill climbing and elimination go on exactly when something improves; the genetic algorithm goes on exactly when it has no parents, some task beats them all, or the count of generations without improvement is below the threshold, and that count restarts, grows or stays accordingly |
| SteeringLoop.Generation.Next | bestflags/generation.py:122-140 | for each algorithm: the next pool is disjoint from the cache and in the space, and for hill climbing exactly the uncached neighbours; or there is none, and the flagless task, or one of the last tasks, is the optimum |
| SteeringLoop.Generation.NextBreed | bestflags/genetic_algorithm.py:234-304 | the genetic algorithm's next generation is all of the uncached draws, as many as it needs, keeps the cheapest tasks so far as its parents, and starts from the same count of generations without improvement; there is none only after as many useless draws as it may try |
| SteeringLoop.Send | bestflags/steering.py:104-112 | every task of a new pool is sent once and cached |
| SteeringLoop.FindGeneration | bestflags/steering.py:76-91 | a task that comes back is found in the waiting generation, which is done when it was the last |
| SteeringLoop.Finish | bestflags/steering.py:93-112 | the end of a generation: a new pool that uses up some of the finite space, or the end of the run at an optimum named by its last generation; the assertion fails exactly when the best task improves and all its neighbours have been sent; the genetic algorithm ends only at its threshold without improvement, or with its draws used up |
| SteeringLoop.StuckAtOptimum | bestflags/steering.py:104-107 | when the assertion fails, the best task of the last generation is cheapest of everything evaluated, its neighbours included |
| SteeringLoop.ClimbsIntoAssertion | bestflags/steering.py:104-107 | one boolean flag, off at first and cheaper when on, fails the assertion in the second generation |
| SteeringLoop.Steering | bestflags/steering.py:45-116 | the loop ends in any order of returns; every cached flag set was sent exactly once, the pill after all of them unless the assertion failed; the parent, base line, best task or kept candidate of the last generation is cheapest of everything evaluated, and of its neighbours or decreases |
| SteeringLoop.SteerTurn | bestflags/steering.py:68-112 | one turn, whichever task comes back: it keeps what the loop relies on, and uses up untried flag sets or tasks in flight |
| SteeringLoop.InitiallyAchieved | bestflags/iterative_elimination.py:165-179 | an initial generation satisfies what the loop needs |
| ClosedLoop.FlightStep | bestflags/steering.py:68-112 | what is between steering's two queues is what the waiting generation awaits, each flag set once |
| ClosedLoop.PendingStep | bestflags/generation.py:73-112 | the pending count is the number of tasks in flight, and zero exactly when steering no longer waits |
| ClosedLoop.StagesStep | bestflags/pipeline_process.py:115-145 | both stages keep their invariants: what the builder puts out the tester can take |
| ClosedLoop.StagePill | bestflags/pipeline_process.py:117-120 | a stage puts a pill out exactly when it takes one, and stops dispatching |
| ClosedLoop.PillStep | bestflags/pipeline_process.py:115-120 | there is one pill, at the queue of the first process that has not seen it |
| ClosedLoopRuns.ReceivedBelongs | bestflags/steering.py:76-87 | what comes back is awaited by the waiting generation, so that the search for it never fails |
| ClosedLoopRuns.PillGoesLast | bestflags/steering.py:114-116 | no pill until steering is past its loop; afterwards no task on any queue or inside any stage, and one queue holds exactly the pill, although a stage forwards it before joining its workers; after a failed assertion neither a task nor a pill |
| ClosedLoopRuns.EveryRun | bestflags/steering.py:45-116 | this holds at every point of every run of the three processes |
| ClosedLoopRuns.HelperRemovesItsOwn | bestflags/pipeline_worker.py:120-123 | in the closed loop no two waiting tasks have equal flags, which removal by equality relies on |
| ClosedLoopRuns.EveryMoveCounts | bestflags/steering.py:68-112 | every busy move of the circle brings its end nearer |
| ClosedLoopRuns.AlwaysBusy | bestflags/steering.py:68-112 | until both stages have shut down or hang, some process has a busy move |
| ClosedLoopRuns.EveryScheduleEnds | bestflags/steering.py:68-116 | under every fair schedule, idle looks included, both stages shut down and the pill comes back, or the assertion has failed and both stages hang |
| ClosedLoopRuns.HungForEver | bestflags/pipeline_process.py:115-120 | once steering has failed and the stages are empty, only idle looks can happen, for ever |
| ClosedLoopCosts.BackWithItsCost | bestflags/pipeline_worker.py:64-79 | whatever the interleaving, duplicates and caches, a task comes back with the cost of its own flags |
| Circle.TurnIsReceive | bestflags/steering.py:68-116 | a turn of steering's objects is a Receive of the circle, with the reply that the algorithm gives |
| Circle.SteeringsTurn | bestflags/steering.py:68-112 | the objects take the task that is back, and the objects and the circle fit together again |
| Circle.SomeoneCanMove | bestflags/steering.py:68-116 | until the end there is always a busy turn in which workers report what building and testing yield, so that schedules as `Circle.Run` asks for exist |
| Circle.Run | bestflags/steering.py:41-116 | the whole circle, under any fair schedule and interleaving: it ends, at an optimum for the costs that the stages measure, with both stages shut down and the pill back, or hung when the assertion failed |
| CommandBuilding.OrderKept | compiler_wrapper/command.go:230-281 | a call keeps wrapper, user and wrapper arguments in three ordered blocks if and only if it is not `addPreUserArgs` with no user argument left and a later block in place |
| CommandBuilding.NewBuilder | compiler_wrapper/command.go:165-175 | the path, and every argument in its place as the user's |
| CommandBuilding.CreateBuilderArgs | compiler_wrapper/command.go:210-216 | every value in its place, all with the same mark |
| CommandBuilding.CallPlaces | compiler_wrapper/command.go:230-281 | position by position, where each call puts which value: wrapping puts the extra flags, then the old path, then all arguments; added arguments stand in order right before the first of the user's or behind everything; a filter leaves the kept ones in order |
| CommandBuilding.LeftExactly | compiler_wrapper/command.go:230-281 | after any calls a user argument is there if and only if no filter has dropped it |
| CommandBuilding.ValueStays | compiler_wrapper/command.go:230-281 | and reads as before if no filter has changed it |
| CommandBuilding.BlocksKept | compiler_wrapper/command.go:230-281 | so any sequence of calls does: the user's arguments are a contiguous stretch, in their original order, exactly those no filter has dropped, and each that no filter has edited reads as it was given |
| CommandBuilding.PreAfterPost | compiler_wrapper/command.go:237-250 | a sequence of calls that breaks the order |
| ArgumentFilters.CommandBuilder.TransformArgs | compiler_wrapper/command.go:252-266 | overwriting the array while reading it gives the filter-map of the original list, with the callback's state |
| ArgumentFilters.TransformedExactly | compiler_wrapper/command.go:252-266 | an argument is kept if and only if the callback answers something for it, as that answer |
| ArgumentFilters.CommandBuilder.FilterArgPairs | compiler_wrapper/command.go:268-281 | overwriting the array while reading it gives left-to-right pair removal |
| ArgumentFilters.KeptPairsExactly | compiler_wrapper/command.go:268-281 | exactly the arguments in no rejected pair are kept, an earlier pair taking precedence over an overlapping one |
| ArgumentFilters.PairExposed | compiler_wrapper/command.go:268-281 | one pass can leave a pair that is to be rejected |
| ArgumentFilters.CommandBuilder.WrapPath | compiler_wrapper/command.go:230-235 | the new path, and as arguments the extra flags in order, then the old path, then every argument there was |
| ArgumentFilters.CommandBuilder.AddPreUserArgs | compiler_wrapper/command.go:237-246 | the arguments in order right before the first of the user's, or at the end; all others keep their order around them |
| ArgumentFilters.CommandBuilder.AddPostUserArgs | compiler_wrapper/command.go:248-250 | the arguments in order behind all others, which stay where they were |
| RemoteBuildFlags.SearchFinds | compiler_wrapper/remote_build_flags.go:34-74 | the search in the callback finds the first user argument that is the flag or starts with flag and `=`, and takes out it and its value |
| RemoteBuildFlags.TakesOutExactly | compiler_wrapper/remote_build_flags.go:14-94 | the flag found is the first user argument that is the flag or starts with flag and `=`; its value is what follows the `=`, or the user argument right behind it, or else it requires one; what is left is what stands before and after these one or two arguments, without the empty arguments |
| RemoteBuildFlags.RemoveOneUserCmdlineFlagWithValue | compiler_wrapper/remote_build_flags.go:25-94 | the value, or which error, and exactly the command line that is left |
| RemoteBuildFlags.UnmodifiedWithoutFlag | compiler_wrapper/remote_build_flags.go:21-23 | without the flag the builder is unmodified if and only if no argument is empty |
| RemoteBuildFlags.EmptyArgumentDropped | compiler_wrapper/remote_build_flags.go:16-24 | a command line without the flag that is modified |

## Left out

- The items of a bisection are all different. With duplicates, the lookup of the next item by value would find the first copy.
- Exit codes other than 0, 1 and 125 end the program at an assertion. The first setup of a verification and the setup of a pass test must succeed; their failure ends the program as well.
- The environment of a resumed run holds no bad item outside the run's items.
- Pruning.PruneFindsAll: with a skipped test next to a culprit a run may still find all of them, if its probes fall well. That they are found is proved from a condition on the tests; that no culprit becomes known good is proved exactly, from where the searches end (`Pruning.KnownExactly`).
- `GetNextFlakyLinear`, which nothing calls, and the `points` of a searcher, which nothing reads in a search.
- Log messages, estimates, elapsed time, pickling, links and temporary files. A saved state is the value of the driver's fields.
- Pass builds, the index that the pass search returns, and the comparison of intermediate code. Claims about the pass search are on its bounds and its ending.
- The get and the put of the dispatcher for one message, those of the helper, and the puts of one settled report are one step of the step relation; the objects in `PipelineProcesses` make them one by one.
- A pool of workers of bounded size: any task handed out may be worked at any time, which includes every pool.
- `mycache` grows as a collection of keys; `keys()` is taken to return a list, as in Python 2.
- The texts of two different flag sets are taken to differ, so that flag sets stand for them as keys.
- A failed build has no image; it is not told apart from one that succeeds. Costs are real numbers.
- Several initial generations, or an initial cache in steering. Two generations that share a task would wait for it twice and get it once.
- How a random child or mutation is made and with which probability: draws are an arbitrary sequence of flag sets in the space.
- SteeringLoop.Steering: the stages are represented by the set of flag sets in flight; `Circle.Run` is the same loop with the stages in place.
- ClosedLoopRuns.EveryScheduleEnds: schedules that let the helpers look at empty queues for ever while someone else could move are left out.
- In the command builder: environment updates, cloning, target names, and reading the command line. Callbacks do not touch the builder.
- The other flag processing of the compiler wrapper, which adds easy members only.
- Machine locking, imaging, buildbots, reports and profile tools, which are input and output or user interface.
