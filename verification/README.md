# Sematic: runner, reruns and logs

A Dafny model of three parts of Sematic, with proofs about all their inputs, runs and
reachable states.

**The runner.** A pipeline is a graph of futures that grows while it runs: the function of a
future gives a value, a failure, or another future, which brings in a layer of futures of its
own. `Semantics` gives calls a meaning that knows nothing of runners: a recursive evaluator.
`RunnerState` has the futures as a pool with one record each and the four steps a runner
takes; `RunnerInvariant` and `RunnerTheorems` prove what every step keeps in a run from scratch.
`RunnerSoundness`, `RunnerTermination` and `RunnerProgress` prove, of far more states, that values
stay right, what a run costs exactly, and that it never waits on nothing. `Retries` tells from the
listed exceptions which attempt of a call is its last one. `Runner` is the code of
`StateMachineRunner` with the overrides of `SilentRunner` and of `CloudRunner`: a class whose
methods are proved to take those steps only, and to end with what the evaluator says.

**Reruns.** `Algorithms` has the breadth-first search and the topological sort, which shortens
the lists it is given. `RunGraph`, `LayerOrder` and `Graph` have the recorded run tree with its
orders and memoised closures; `Clone` builds the futures of a rerun, and `Records`,
`Recording`, `RerunFacts`, `CloneSeed`, `CloneContinue`, `CloneProgress` and `Rerun` relate them to the state that
was recorded, up to the result of the rerun: from every run of every record it ends, with the value
of the original root call or because that call fails. `RerunExamples` has pipelines whose reruns
are unlike runs from scratch.

**Logs.** `LogStreamer` writes a process's output to a directory of files. `LogStreams`,
`InlineLogs` and `LogReader` read pages of it in both directions; `LogPages`, `LogScreens`,
`LogLoading` and `LogCli` prove that pages lose nothing, for a reader who pages about and for
a command that follows a growing log. `LogLineIds` and `WriterToReader` close the circle.

## What the code does not do

Where the code falls short of what its documentation or its surroundings promise, the project
keeps the code as it is and proves when the promise holds.

- A run that uses another run's output for two of its arguments is dropped from the orders of
  `Graph`, with all that is downstream of it: `topological_sort` takes only one of the two
  mentions off its list. An order is complete if and only if there is no such pair
  (`LayerOrder.OrderIsCompleteIff`), and the record of a runner's state has none if and only if
  no call passes the same future twice (`Recording.RecordHasNoPairTwiceIff`). A rerun from a given
  run then clones an incomplete graph without an error (`CloneSeed.CloningSucceeds`,
  `CloneSeed.KeptIsCompleteIff`); the CONTINUE mode raises one (`CloneSeed.ContinueSucceedsIff`).
  `RerunExamples.PairCanBeTwice` is such a pipeline. The rerun still ends as it should: a layer that
  lost a run lost its last one, so that no parent waits for it (`CloneProgress.NestedListedOnce`,
  `CloneProgress.CloneIsWoven`, `Rerun.RerunFrom`).
- Not every clone is a state that a run from scratch can be in. A complete one of a rerun is, if and
  only if every run that is neither skipped nor reset was RESOLVED or has no runs below it
  (`Rerun.CloneIsValidSeed`, `Rerun.SeedNeedsKeepable`); `RerunExamples.RunCanBeOpen` is a pipeline
  for which this fails. The CONTINUE mode leaves a parent CREATED although it has a nested future
  (`RerunExamples.ContinueCanStartOver`), which then starts over: exactly if the nested run was RESOLVED,
  RAN or NESTED_FAILED, and the run itself was not RESOLVED (`CloneContinue.ContinuedClone`). No rerun
  depends on it: `Rerun.RerunFrom` is about all of them.
- Pages lose nothing if and only if at least one line is asked for (`LogScreens.SplitsIff`).
- Reading an inline run's lines backwards from the end finds those of an attempt if and only if it
  is the last one whose end was logged: if the runner died before, nothing of it is found
  (`InlineLogs.EndMissing`), although the comment at sematic/log_reader.py:606-608 means the end of
  the logs to count as the end of the run (`InlineLogs.ReadingBackFindsAttemptIff`). Reading forwards
  shows the first attempt of a retried run, and neither direction goes on to another one
  (`InlineLogs.RetriedRun`).
- A first page without lines gives no cursor to try again with while the run goes on
  (`LogLoading.TryAgainIff`, `LogLoading.TryAgainCanBeMissing`), and read backwards it says that one
  can go on all the same (`LogLoading.FlagWithoutTokenIff`). `sematic logs --follow` then ends
  with an error although lines are still to come: exactly when at the first request not answered
  with waiting there is no line of the run (`LogCli.Logs`, `LogCli.FollowingCanEndTooEarly`).
- `sematic logs --follow` stops at a request made after the run has ended, but the last lines of a
  run are uploaded after its end was saved (sematic/resolvers/log_streamer.py:271-370). It then ends
  with success without them: everything is printed if and only if the logs are complete at that
  request, which is the first one after the end if requests are answered in time and the lines fit
  a page (`LogCli.FollowedInFullIff`, `LogCli.FollowingCanMissTheEnd`).
- The documentation of a page says that there is no cursor where one cannot go on. On the first
  request the flags are overwritten and the cursors are not (`LogLoading.FlagsMatchTokensIff`,
  `LogLoading.FlagsCanDiffer`).
- Two uploads in the same millisecond have one name, and the first is lost: storage keeps all
  uploads if and only if no two have the same time (`WriterToReader.NoneReplacedIff`,
  `WriterToReader.UploadsCanCollide`).

## Model

| member | source | states |
|---|---|---|
| Retries.LastAttempt | sematic/retry_settings.py:35-66 | the attempt whose outcome counts is the one that comes after failures with listed exceptions only, as many as there are retries at most, and that itself gives something, fails with an exception that is not listed, or follows the last retry; an exception is listed if its class or an ancestor of it is, and the external exception counts as the one raised does |
| Retries.SomeAttemptIsLast | sematic/retry_settings.py:35-66 | every call has exactly one such attempt |
| Retries.RetriedCall | sematic/runners/state_machine_runner.py:514-553 | a call whose arguments have values is worth what that attempt gives: its value, the nested layer's value, or a failure |
| Retries.FailedInput | sematic/runners/state_machine_runner.py:470-479 | a call that uses a failing call fails without being made |
| Retries.RunRetries | sematic/runners/state_machine_runner.py:514-553 | in every state of every run of a root call, each future's function was started once per failure with a listed exception and once more; it is FAILED exactly if its last attempt raised |
| RunnerTheorems.InitialInv | sematic/runners/state_machine_runner.py:147-159 | a root future with concrete arguments is a valid state to start from |
| RunnerTheorems.ActionKeepsInv | sematic/runners/state_machine_runner.py:84-114 | every step keeps the structure of layers, the life cycle of each future, and agreement with the evaluator |
| RunnerTheorems.RunKeepsInv | sematic/runners/state_machine_runner.py:73-121 | so does every run |
| RunnerTheorems.TransitionsAreLegal | sematic/abstract_future.py:88-125 | every state change of every future in one step is one of seven, all in the transition table: CREATED or RETRYING to SCHEDULED; SCHEDULED to RAN, RETRYING, RESOLVED or FAILED; RAN to RESOLVED or NESTED_FAILED; new futures are CREATED, no terminal state is left, and parents and nested futures stay |
| RunnerTheorems.AllowedIff | sematic/abstract_future.py:88-125 | the table allows exactly these, cancelling what is not terminal, failing before the start, and retrying a failure; the terminal states are those that cannot be canceled |
| RunnerTheorems.RunEvolves | sematic/abstract_future.py:88-125 | over a whole run no terminal state or value changes, and the list and the pool only grow |
| RunnerInvariant.AncestorsRan | sematic/runners/state_machine_runner.py:555-564 | all futures a failing one was nested in, directly or not, are RAN |
| RunnerInvariant.EnqueueLayer | sematic/runners/state_machine_runner.py:203-212 | enqueuing the last future of a new layer lists the whole layer, each future once, after those listed before |
| RunnerTheorems.ResolvedValues | sematic/runners/state_machine_runner.py:454-512 | in every reachable state the value of a RESOLVED future is what its call evaluates to, nested futures followed to the end |
| RunnerTheorems.RootValueIsScheduleIndependent | sematic/runners/state_machine_runner.py:84-114 | two runs of a root call under any limits and in any order that resolve it give the same value, which is the evaluator's |
| RunnerTheorems.UnresolvedHasWork | sematic/runners/state_machine_runner.py:84-114 | if a future is not resolved, some future can be scheduled or resolved or is being executed |
| RunnerTheorems.NeverWaitsOnNothing | sematic/runners/cloud_runner.py:412-482 | if the root is not terminal and a pass has nothing to do, a listed future is SCHEDULED, for every limit of at least one |
| RunnerTheorems.ParallelismBound | sematic/runners/cloud_runner.py:460-482 | a run that starts within the limit of standalone futures that are SCHEDULED stays within it, retries included |
| RunnerTheorems.ParallelismBoundFromScratch | sematic/runners/cloud_runner.py:460-482 | every run of a root call is within the limit at all times |
| RunnerTheorems.ExecutionsBounded | sematic/runners/state_machine_runner.py:514-553 | in every reachable state each future was executed at most `retries + 1` times |
| RunnerTermination.MeasureDrops | sematic/runners/state_machine_runner.py:84-114 | every step leaves exactly as much less ahead as it counts for, nested layers to come included, whether all steps are counted or only the starts of functions; a failure that ends the run leaves less |
| RunnerTermination.RunsAreBounded | sematic/runners/state_machine_runner.py:84-114 | from any state with right values whose calls have finite unfoldings: what a run did and what it leaves ahead are together what was ahead, or less if a failure ended it; noting arguments, which every pass may do again, is not counted |
| RunnerTermination.ExecutionsAreBounded | sematic/runners/state_machine_runner.py:84-114 | so are the starts of functions over all futures, which are conserved: started so far and still ahead |
| RunnerTermination.RootRunsAreBounded | sematic/runners/state_machine_runner.py:54-121 | a run of a root call has no more steps than the call costs, and starts functions no more often, over all its futures, than the calls of its unfolding have attempts; exactly as many of both if it resolves the root |
| RunnerSoundness.SaneRuns | sematic/runners/state_machine_runner.py:454-512 | from any state whose values and nested links are right, in every run the value of a RESOLVED future is what its call evaluates to |
| RunnerSoundness.InvIsSane | sematic/runners/state_machine_runner.py:73-121 | every reachable state of a run from scratch is such a state |
| RunnerTermination.FailedMeansRootFails | sematic/runners/state_machine_runner.py:555-564 | a future fails only if the root call has no value |
| RunnerTermination.ActionKeepsBounded | sematic/runners/state_machine_runner.py:566-591 | no step adds a call that can fail without the root call failing, nor one whose unfolding is deeper, from any state with right values |
| RunnerTermination.FailureIsTheRoots | sematic/runners/state_machine_runner.py:555-564 | from such a state, too, a future fails only if the root call does |
| RunnerProgress.InvIsWoven | sematic/runners/state_machine_runner.py:203-212 | in every state of a run from scratch, all that the root waits for, directly or not, is listed |
| RunnerProgress.ActionKeepsWoven | sematic/runners/state_machine_runner.py:84-114 | every step keeps that, even if futures are missing that nothing listed waits for |
| RunnerProgress.NeverStuck | sematic/runners/state_machine_runner.py:84-114 | then, while the root is not resolved and no future failed, a listed future can be scheduled or resolved or is being executed |
| Runner.StateMachineRunner.EnqueueFuture | sematic/runners/state_machine_runner.py:203-212 | lists a future and everything it depends on once, and gives all of these the future's parent |
| Runner.StateMachineRunner.SetNestedFuture | sematic/runners/state_machine_runner.py:583-591 | nests the returned future and adds its layer, all with the future as parent |
| Runner.StateMachineRunner.FailFutureAndParents | sematic/runners/state_machine_runner.py:555-564 | marks the future FAILED, exactly the futures it is nested in NESTED_FAILED, and no other |
| Runner.StateMachineRunner.HandleFutureFailure | sematic/runners/state_machine_runner.py:514-553 | the future is retried, and the attempt counted, exactly if its settings list the exception or the external one, by its class or one of its ancestors, and fewer retries were made than granted; otherwise it is FAILED, what it is nested in NESTED_FAILED, and the run ends |
| Runner.StateMachineRunner.UpdateFutureWithValue | sematic/runners/state_machine_runner.py:566-581 | takes in a value, a nested future or a value of the wrong type as the outcome of the attempt |
| Runner.StateMachineRunner.RunInline | sematic/runners/silent_runner.py:35-79 | scheduling followed by taking in the outcome of the attempt |
| Runner.StateMachineRunner.ScheduleFuture | sematic/runners/cloud_runner.py:291-329 | on the cloud the future is left SCHEDULED, otherwise it is run inline |
| Runner.StateMachineRunner.GetRemoteRunsCount | sematic/runners/cloud_runner.py:480-482 | the number of listed futures that are SCHEDULED |
| Runner.StateMachineRunner.CanScheduleFuture | sematic/runners/cloud_runner.py:460-478 | an inline future is never refused, nor is any by a silent runner or by one without a maximal parallelism; a standalone future is refused exactly if at least as many listed futures as that maximum are SCHEDULED |
| Runner.StateMachineRunner.ExecuteFuture | sematic/runners/state_machine_runner.py:481-498 | nothing if the limit forbids it, otherwise the future is scheduled or run inline |
| Runner.StateMachineRunner.GetConcreteKwargs | sematic/runners/state_machine_runner.py:455-467 | the arguments that have a value; all of them exactly if every input is RESOLVED |
| Runner.StateMachineRunner.ScheduleFutureIfArgsConcrete | sematic/runners/state_machine_runner.py:470-479 | executes the future with its noted arguments if all are concrete, and else changes nothing |
| Runner.StateMachineRunner.RunNestedFuture | sematic/runners/state_machine_runner.py:501-512 | takes over the nested future's value exactly if that is RESOLVED |
| Runner.StateMachineRunner.VisitFuture | sematic/runners/state_machine_runner.py:86-95 | one step of the loop: it advances the run, raises with the future FAILED, or there is nothing to do with that future; in no state passed through are more standalone futures SCHEDULED than the maximal parallelism |
| Runner.StateMachineRunner.VisitFutures | sematic/runners/state_machine_runner.py:85-105 | a pass over the growing list; without a change every future was idle; the maximal parallelism is kept in all states passed through |
| Runner.StateMachineRunner.WaitForAnyRemoteJobs | sematic/runners/cloud_runner.py:412-450 | polls until jobs have ended: gives, without repetition, exactly those scheduled futures whose job the server reports to have ended at the last poll, and at no poll before had any; nothing if none is scheduled |
| Runner.StateMachineRunner.PollJobs | sematic/runners/cloud_runner.py:412-450 | one poll gives, without repetition, exactly the jobs that the server reports to have ended |
| Runner.StateMachineRunner.ProcessRunOutput | sematic/runners/cloud_runner.py:337-366 | takes in the outcome of a job that has ended |
| Runner.StateMachineRunner.WaitForScheduledRuns | sematic/runners/cloud_runner.py:331-335 | takes in the outcomes of ended executions; the run advances if any was executing; those of jobs only if no inline execution is there, and only of jobs that the server reported to have ended |
| Runner.StateMachineRunner.PipelineRunLoop | sematic/runners/state_machine_runner.py:73-121 | the loop ends; success gives the root's value, which is the evaluator's, and failure means that a future is FAILED and that the root call fails; the maximal parallelism is kept in all states passed through |
| Runner.StateMachineRunner.EnqueueRootFuture | sematic/runners/state_machine_runner.py:147-159 | rejects a root with future arguments, otherwise lists it as the only future |
| Runner.StateMachineRunner.Run | sematic/runners/state_machine_runner.py:54-71 | total correctness of a run from scratch with respect to the evaluator; the root was started until its last attempt, no more and no less often, and if that gave a value or raised, the run succeeds with that value, or fails; under a maximal parallelism of `m`, at no time more than `m` standalone futures are SCHEDULED |
| Algorithms.BreadthFirstSearch | sematic/utils/algorithms.py:9-40 | the queue loop computes the specified visits |
| Algorithms.BreadthFirstSearchIsExact | sematic/utils/algorithms.py:9-40 | these are exactly the reachable elements, each once, nearer ones first |
| Algorithms.ForestOrder | sematic/utils/algorithms.py:9-40 | in a forest the children of every visited element follow it in one stretch, in their order |
| Algorithms.TopologicalSort | sematic/utils/algorithms.py:43-88 | the loop that shortens the lists computes the specified order, of ids as their dependencies were visited: an id freed by an earlier visit comes first, those freed by one visit come in the lexicographic order of their characters, and those free from the start in the order of the dict; of every emitted id one mention is gone from each list that had one |
| Algorithms.SortedByFreeing | sematic/utils/algorithms.py:73-80 | so does the specified order itself, for all dependencies, repeated and cyclic ones included |
| Algorithms.TopologicalSortIsExact | sematic/utils/algorithms.py:43-88 | each id at most once and after all it depends on, and exactly those that list each dependency once and depend on emitted ids only |
| Algorithms.EmittedIsLeast | sematic/utils/algorithms.py:59-88 | the emitted ids are the least set closed under emitting |
| Algorithms.SortIsCompleteIff | sematic/utils/algorithms.py:59-88 | all ids are emitted if and only if dependencies are acyclic, among the ids, and listed once |
| Algorithms.RepeatedDependencyIsDropped | sematic/utils/algorithms.py:67-71 | an id that lists a dependency twice is never emitted |
| LayerOrder.ExecutionOrder | sematic/graph.py:238-282 | raises exactly if the runs are of different layers, otherwise sorts them |
| LayerOrder.SortedRunIdsByLayer | sematic/graph.py:284-325 | the layers from the outermost, each sorted |
| LayerOrder.LayerCompleteIff | sematic/graph.py:238-282 | a layer is listed in full if and only if no pair is joined twice |
| LayerOrder.PartIsListedIff | sematic/graph.py:284-325 | whole layers up to the root are listed if and only if no pair is joined twice within them |
| LayerOrder.OrderIsCompleteIff | sematic/graph.py:284-325 | all runs are listed if and only if no run uses another one's output twice |
| LayerOrder.OrderIsSorted | sematic/graph.py:284-325 | then every run comes once, parents before children, upstream before downstream or the reverse, each layer in one stretch, the root first |
| Graph.Graph.GetRunAncestorIds | sematic/graph.py:328-351 | the ancestors from the parent up, the same whether cached or not |
| Graph.Graph.GetRunDescendantIds | sematic/graph.py:353-366 | the list of the cache, between the true descendants and what a rerun from the run would skip |
| Graph.Graph.GetRunDownstreamIds | sematic/graph.py:368-384 | exactly the runs downstream, each once, the same whether cached or not |
| Graph.Graph.GetSkipResetRunIds | sematic/graph.py:386-459 | exactly the skip set and the reset set, in every state of the caches that earlier calls can leave, although the call extends the cached list |
| Graph.LawsHold | sematic/graph.py:328-459 | the tabulated relations of a well-formed graph satisfy the recursions that the cached methods follow |
| Recording.RecordIsFaithful | sematic/runners/local_runner.py:856-972 | every state that satisfies the structure of layers is described by the runs and edges recorded for its futures |
| Recording.MovedRecordIsFaithful | sematic/runners/local_runner.py:702-735 | so it is once a failed pipeline has moved its unfinished runs to CANCELED, and its root to FAILED if that was unfinished, and left the others as they were: every run is in a terminal state then |
| Recording.FailedPipelineCanBeRerun | sematic/runners/local_runner.py:702-735 | that changes nothing for reruns: what is kept, and whether it can be, is the same |
| Recording.RecordHasNoPairTwiceIff | sematic/runners/local_runner.py:865-913 | the edges recorded for a state join no pair twice if and only if no call passes a future twice |
| Recording.RecordCanBeRerunIff | sematic/runners/local_runner.py:856-972 | so the record of a state can be rerun in full from a run exactly if no call to be kept does |
| Recording.RecordCanBeRerunFromAllIff | sematic/runners/local_runner.py:856-972 | and from each of its runs exactly if no call does |
| RerunFacts.AffectedNotAbove | sematic/graph.py:386-459 | no ancestor of the starting point is affected by it |
| RerunFacts.SiblingsSkipped | sematic/graph.py:386-459 | the skip set is a union of whole layers |
| RerunFacts.ResetIsClosed | sematic/graph.py:386-459 | resetting is closed under downstream: what uses a reset run is affected, and reset |
| RerunFacts.ResetNotSkipped | sematic/graph.py:386-459 | no run is both reset and skipped |
| RerunFacts.ResetParent | sematic/graph.py:386-459 | the parent of a reset run is an ancestor of the starting point |
| Clone.GetFutureInputs | sematic/graph.py:466-500 | raises exactly if an edge has no argument name, or neither a cloned source nor an artifact; otherwise there is one argument for every name, and the last edge for it decides: the clone of its source, or its artifact if it has none |
| Clone.CloneFuture | sematic/graph.py:543-592 | adds the clone of one run and nests it in its parent's clone, or raises if its inputs or parent were not cloned |
| Clone.CloneFutures | sematic/graph.py:612-685 | succeeds exactly if every kept run comes after its parent and inputs, and in CONTINUE mode if all runs were listed; the clone is as specified; in CONTINUE mode nothing is skipped and the listed runs in other states than RESOLVED, RAN and NESTED_FAILED are reset |
| CloneSeed.CloningSucceeds | sematic/graph.py:655-669 | no future is missing when a run is cloned for a rerun from any run of any record, even if runs are missing from the order |
| CloneSeed.KeptIsCompleteIff | sematic/graph.py:655-669 | all runs to be kept are cloned if and only if none of them uses another one twice |
| CloneSeed.ContinueSucceedsIff | sematic/graph.py:612-685 | in CONTINUE mode cloning a record succeeds if and only if no run uses another one twice |
| CloneSeed.CloneRenames | sematic/graph.py:466-500 | whatever is kept and reset, the cloned calls are the recorded ones up to the names of futures, and run standalone as their function says |
| CloneSeed.CloneQueue | sematic/graph.py:86-95 | sorting the clone loses nothing and puts the root first |
| CloneSeed.CloneCellFits | sematic/graph.py:551-592 | ancestors of the starting point are RAN and nested, it and what it affects start over, runs taken over are RESOLVED with their value, others are CREATED |
| CloneContinue.ContinuedClone | sematic/graph.py:551-592 | continuing the record of any reachable state, the clone of a run is RAN with its nested clone exactly if its nested run was recorded in another state than RESOLVED, RAN and NESTED_FAILED; otherwise it is RESOLVED with the recorded value if the run was, and CREATED if not |
| CloneSeed.FlowsToNested | sematic/graph.py:575-581 | every other run of a layer leads to the layer's last one, so an ancestor's nested run is reset |
| Rerun.CloneIsValidSeed | sematic/graph.py:612-685 | a complete clone satisfies the runner's whole invariant, nothing in it has failed or is executing, and its root evaluates to what the original root does |
| Rerun.SeedNeedsKeepable | sematic/graph.py:551-592 | conversely, a clone that satisfies the invariant kept no unresolved run with runs below it |
| Rerun.CloneIsSane | sematic/graph.py:543-592 | the values and nested links of every clone are right, in any mode, complete or not |
| Rerun.ClonePreservesMeaning | sematic/graph.py:612-685 | record any reachable state, clone it in any mode that spares the root, run the clone in any order under any limit: if the root resolves, it has the value of the original root call |
| Rerun.RerunPreservesMeaning | sematic/graph.py:612-685 | so does a rerun from any run of any record, failed or unfinished, complete or not; cloning for it never fails |
| CloneProgress.NestedListedOnce | sematic/graph.py:284-325 | if the last run of a layer is listed, in an order from which repeated uses may have dropped runs, no pair is joined twice in its layer |
| CloneProgress.CloneIsWoven | sematic/graph.py:612-685 | all that the root of a clone waits for is cloned and listed, in any mode, whatever runs are missing |
| CloneProgress.CloneIsBounded | sematic/graph.py:612-685 | no call of a clone can fail without the original root call failing, and their unfoldings are no deeper |
| Rerun.CloneIsReady | sematic/graph.py:612-685 | so a runner can go on from every clone of every record, in any mode, and its root evaluates to what the original root does |
| Rerun.CloneFailsWithRoot | sematic/runners/state_machine_runner.py:555-564 | a future of a run of a clone fails only if the original root call fails |
| RerunExamples.PairCanBeTwice | sematic/utils/algorithms.py:67-71 | a pipeline whose record joins a pair twice, and whose rerun leaves out the very run it starts from |
| RerunExamples.RunCanBeOpen | sematic/graph.py:551-592 | a pipeline with a state in which a run to be kept is open and has runs below it |
| RerunExamples.ContinueCanStartOver | sematic/graph.py:575-581 | a pipeline whose root, when it is continued, starts over although it has a nested future |
| RerunExamples.FailedIsContinued | sematic/graph.py:575-581 | a pipeline whose root is NESTED_FAILED: when it is continued the root is RAN, and only the run that failed starts over |
| Rerun.SeedRunner | sematic/runners/local_runner.py:221-235 | the runner takes over the futures and notes their concrete arguments |
| Rerun.CloneForRerun | sematic/runners/local_runner.py:206-213 | cloning any record for a rerun never raises, and to continue it raises exactly if a run uses another one twice; gives the specified clone |
| Rerun.ArtifactsReadyIff | sematic/runners/local_runner.py:161-204 | the input artifacts of a recorded run are there exactly if all futures its call uses are RESOLVED |
| Rerun.SeedFromExisting | sematic/runners/local_runner.py:161-235 | raises exactly at these obstacles, and otherwise leaves a runner that can go on; to continue, every run of the record became what `CloneContinue.ContinuedClone` says |
| Rerun.RerunFrom | sematic/runners/local_runner.py:161-235 | raises exactly if the run is not the root, to continue, or if a run it uses is not RESOLVED, or, to continue, if uses are repeated; otherwise, for every run of every record of a state a pipeline can be in, the rerun ends with the original root's value or because the root call fails, within the maximal parallelism |
| LogStreams.SortedByStamp | sematic/log_reader.py:524-530 | the files of a directory sorted by name, none lost |
| LogStreams.StreamFromTextStream | sematic/log_reader.py:552-587 | forwards the lines from the index on, in reverse those before it, the last one first |
| LogStreams.LineStreamFromLogDirectory | sematic/log_reader.py:510-549 | all lines from, or up to, the cursor's place across files; an error exactly for an unknown file |
| LogStreams.LineOffset | sematic/log_reader.py:719-728 | the file and number of a line, and of the place after it, lead back to it |
| InlineLogs.FilterForInline | sematic/log_reader.py:590-617 | the lines between the indicators, in either direction |
| InlineLogs.VisibleIsInWindow | sematic/log_reader.py:488-507 | from every place a cursor can have, with the start skipped on later pages, exactly the lines of one attempt of the run on that side: none beyond either indicator |
| InlineLogs.ReadingBackFindsAttemptIff | sematic/log_reader.py:604-609 | reading back from the end of the logs finds an attempt if and only if its end was logged and it is the last such one |
| InlineLogs.EndMissing | sematic/log_reader.py:604-609 | a log without the end of a run, of which reading back finds nothing |
| InlineLogs.RetriedRun | sematic/log_reader.py:590-617 | a log of two attempts: forwards the first one is shown, backwards the second |
| LogReader.GetLogLinesFromLineStream | sematic/log_reader.py:620-786 | the page shows, in order of time and with their ids, lines of the stream that contain every one of the filters; none that does is left out before the last one shown, and none at all unless the page is full or time is up; the cursors are at its two ends |
| LogReader.PassesIff | sematic/log_reader.py:674-675 | a line passes exactly if for every filter `f` it is `a + f + b` for some `a` and `b` |
| LogPages.PageSplits | sematic/log_reader.py:668-786 | lines before the reverse cursor, the page, and lines from the forward cursor are the matching lines; a missing cursor means none left on its side; cursors given are valid |
| LogScreens.SplitsIff | sematic/log_reader.py:704-712 | this holds of all pages if and only if the limit on lines is at least one |
| LogScreens.TwoLinesLost | sematic/log_reader.py:704-712 | with a limit below one a page of one line ends the traversal |
| LogScreens.NextOk | sematic/log_reader.py:747-757 | a forward cursor appends the next lines, and leaves fewer to read |
| LogScreens.PreviousOk | sematic/log_reader.py:758-768 | a reverse cursor prepends the previous lines, and leaves fewer to read |
| LogScreens.ScrollingLosesNothing | sematic/ui/packages/common/src/hooks/logHooks.ts:114-180 | from either end and in any mixture of directions the lines on screen are one stretch of the matching lines; all of them once no cursor is left, after at most two steps more than there are lines |
| LogScreens.PruneLines | sematic/ui/packages/common/src/hooks/logHooks.ts:25-43 | fails if lines and ids differ in number, otherwise drops the lines whose id was seen and remembers the others |
| LogScreens.PruningDropsNothing | sematic/ui/packages/common/src/hooks/logHooks.ts:25-72 | if line ids are in the order of time, pruning never drops a line, and what is shown are the lines of the pages |
| LogLoading.LoadLogLines | sematic/log_reader.py:209-362 | which answer every request gets, for the original run if there is one: an invalid cursor exactly if a cursor, of either direction, is of another run or has another set of filters; runs not started, missing or local logs; an unknown file exactly if the cursor's file is not in the directory; or a page |
| LogLoading.AnswerIsPage | sematic/log_reader.py:386-507 | an answer with a page splits the run's lines, inline or not |
| LogLoading.CursorsIff | sematic/log_reader.py:729-768 | exactly when an answer has a cursor of each direction: forwards, a page neither full nor cut by the clock has one only if the run is SCHEDULED or RETRYING, so a RAN run has none |
| LogLoading.CursorsContinue | sematic/log_reader.py:729-768 | a cursor of an answer is of the same run and filters, points to a file, and remembers whether a line was shown, now or before |
| LogLoading.FlagsMatchTokensIff | sematic/log_reader.py:104-110 | of all answers, one has a cursor where it says that one cannot go on exactly if it answers a first request, lines match, and they are read forwards or the run has ended |
| LogLoading.FlagWithoutTokenIff | sematic/log_reader.py:347-360 | conversely, of all answers, one says that one can go on forwards without a cursor exactly if it answers a first request, read backwards, of a run not in a terminal state, and no line matches or there is nowhere to read; backwards there is always a cursor |
| LogLoading.MatchesAheadIff | sematic/log_reader.py:386-507 | lines match a request exactly if one of the run's lines ahead of its cursor does, inline or not |
| LogLoading.FlagsCanDiffer | sematic/log_reader.py:347-360 | a request whose answer does |
| LogLoading.TryAgainIff | sematic/log_reader.py:743-751 | an answer for a run that goes on, in either direction, has no cursor to try again with exactly if the request had none and no line matches yet |
| LogLoading.TryAgainCanBeMissing | sematic/log_reader.py:743-751 | a request whose answer has none, and which read backwards says that one can go on |
| LogCli.WindowGrows | sematic/log_reader.py:590-617 | files added later leave the run's lines where they are |
| LogCli.CursorStays | sematic/log_reader.py:536-549 | a cursor stays valid and keeps its place when files are added |
| LogCli.PageAdds | sematic/log_reader.py:729-757 | the lines of a page are those right after what was before its cursor |
| LogCli.EverythingGrows | sematic/log_reader.py:510-549 | the lines there are at one time come first of those there are later, and are all of them exactly if none was added |
| LogCli.Logs | sematic/cli/logs.py:26-77 | the loop ends; it prints, in order, what the run has at the last request, and with `--follow` goes on until the run has ended; it fails exactly if the first request not answered with waiting finds no line |
| LogCli.FollowedInFullIff | sematic/cli/logs.py:48-77 | following prints all lines if and only if they are there at the last request, which prompt answers make the first one after the end of the run |
| LogCli.FollowingCanEndTooEarly | sematic/cli/logs.py:48-73 | an inline run for which following can only end with an error, although its lines are still to come |
| LogCli.FollowingCanMissTheEnd | sematic/cli/logs.py:48-77 | a run whose last lines are uploaded after its end: following can only end with success and without them |
| LogLineIds.LineIdsIncreaseIff | sematic/log_reader.py:806-840 | line ids are in the order of time if and only if no file has more lines than there are ids up to the next file |
| LogStreamer.Streamer.ReadDelta | sematic/resolvers/log_streamer.py:119-147 | the local file has what was read until time was up, the file was full or the stream ended, and reading stopped at the first of these |
| LogStreamer.Streamer.FlushToFile | sematic/resolvers/log_streamer.py:71-150 | one file is filled and uploaded, the previous one kept for tailing unless it was empty |
| LogStreamer.Streamer.DoUpload | sematic/resolvers/log_streamer.py:198-219 | stores the file under the time of the upload, unless it is empty |
| LogStreamer.Streamer.StreamLogsToRemote | sematic/resolvers/log_streamer.py:183-195 | the loop ends with the stream; what is written through, and the uploads one after the other, are the reads one after the other up to the first termination character and without it, whatever precedes that in the same read included; in order of time if the clock goes on between two uploads |
| LogStreamer.WholeText | sematic/resolvers/log_streamer.py:119-126 | the text kept of a stream has no termination character, and with one more it is a beginning of the reads one after the other |
| WriterToReader.NoneReplacedIff | sematic/resolvers/log_streamer.py:217-219 | storage holds as many files as were uploaded if and only if no two have the same time |
| WriterToReader.UploadsCanCollide | sematic/resolvers/log_streamer.py:217-219 | two uploads at the same time leave one |
| WriterToReader.NoneReplaced | sematic/resolvers/log_streamer.py:217-219 | and then it holds every upload under its own name |
| WriterToReader.LinesWritten | sematic/resolvers/log_streamer.py:119-147 | a file has no more lines than were read for it |
| WriterToReader.ReaderReadsWhatWasWritten | sematic/log_reader.py:510-549 | uploads in order of time are a sorted directory of exactly the files in storage, each of 1 to 1000 lines, split where lines end, with increasing line ids; the lines read back, one after the other, are the reads of the stream up to the first termination character |

## Left out

- Futures are indices into a pool of records rather than objects that refer to each other; what
  two references to one future could do is what one index does.
- The meaning of a program is given for attempts that are deterministic: the outcome of a
  function depends on its arguments and on the number of the attempt.
- Runner.StateMachineRunner.Run: needs the unfolding of the root call to be finite to a given
  depth, for otherwise the loop need not end; safety is proved without that.
- Runner.StateMachineRunner.RunInline: does not model the timeouts of the call chain; a RAN future
  does not fail by timing out.
- Runner.StateMachineRunner.ScheduleFuture: does not model a run that the server already holds for
  scheduled, which is only logged, nor errors of the server.
- Runner.StateMachineRunner.EnqueueRootFuture: arguments that are futures count as not concrete; the
  original takes the value of one that was resolved before, in another pipeline.
- Algorithms.BreadthFirstSearch: elements are their own keys, as in sematic/graph.py:319; there is no
  `key_func`.
- A returned future's layer is what it depends on; futures created and not used are rejected by
  sematic/function.py:615-653, which is not part of this model.
- Types, casting and serialization: a value that cannot be cast to the output type is a failed
  attempt, and an artifact is the value it stores.
- Signals and cancellation: no future is CANCELED, but the runs of a failed pipeline are. Polls of
  the server are an oracle that reports every job at some time.
- The persistence of `LocalRunner` other than the runs and edges it records, its cache of results,
  and resources. Records are made for all futures at once rather than as they change.
- The REENTER mode (`to_future_graph`), which goes on from the recorded states themselves.
- Exactly when a clone of the CONTINUE mode satisfies the invariant of runs from scratch; no result
  about reruns depends on it.
- The links between edges of different layers (`parent_id`), which nothing here reads.
- Ids of clones and `original_future_id`.
- The order in which Python lists the elements of a set: `list(set(...))` keeps first mentions here.
- Whether a clone runs standalone is a parameter given per function.
- The base64 form of cursors: a token is the cursor. A file of logs is named by its timestamp alone.
- Clocks of the log reader and the streamer are oracles.
- Inline logs in which an attempt starts before the previous one of the same run has ended.
- LogStreamer.Streamer.StreamLogsToRemote: is about a stream that ends, and flushes of which again
  and again one has time to read.
- Processes, pipes and file descriptors, and the tail that is shown at the end of a process.
