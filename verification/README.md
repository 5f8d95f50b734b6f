# Verified core of the stanli runtime passes, worker team and benchmark tooling

stanli interprets Stan programs as op graphs. This project models, in Dafny 4.11, the parts of the
repository whose correctness is not visible in one function body: the worker team behind chunked
reductions, the graph passes that rewrite a model before sampling, and the tools that build, measure and
compare models. `dafny verify dfyconfig.toml` checks everything.

**The worker team and chunked reduction** (`TeamControl`, `TeamProgress`, `Team`, `TeamTheorems`,
`Publication`, `ScatterPlan`, `Chunks`). A schedule is any sequence of atomic steps of the calling thread
and the workers; every wait on a condition variable is a sleep that only a notification (or a spurious
wake-up) ends, so lost wake-ups are in the model. Accumulations `cell += delta` are a load and a store in
separate steps. Values have an arbitrary `add`: no result uses associativity or commutativity, which is
what makes "bitwise equal for every schedule" a statement about floating point. Each run brings its own jobs,
as many as it likes, and a job is its updates and the density it returns; so the runtime's own team
(runtime/src/reduce_sum.cpp:14-122), which takes its job count per call, is covered too. The kept records show
for each run the memory and the densities its jobs left.

**Graph passes** (`OpGraph`, `Cse*`, `ConstFold*`). Slots are mutable buffers, ops run in order and the
same list backwards is the tape. Kernels and adjoint updates are arbitrary functions. Common-subexpression
elimination keeps every value and, without merging of active duplicates, every parameter adjoint, whatever the
pullbacks do. With merging (the `fast_math` option, runtime/src/lower.cpp:910) adjoints are reassociated, and
they stay equal for additive pullbacks over a commutative and associative addition (`Sums`). Constant
folding is invisible over whole sequences of evaluations when no reader meets a slot that a folded op wrote
last and a surviving op writes too; where such a reader exists, and the two ops have different signatures,
kernels that tag their outputs see it. The marking loop does not refuse all such slots: the comment
at runtime/src/constfold.cpp:117-119, that an op merely overwriting its output is safe to fold behind,
does not hold (`ConstFoldLimits.OverwriteLeaks`); it does hold for update chains, where every second write
reads the slot (`ConstFoldProof.ChainsAreClean`), and there gradients are kept too. The in-place pass makes a
store write the very slot it reads (runtime/src/inplace.cpp:212-224), so slots that it shares form update
chains; the leak concerns graphs in which something else, another pass or a caller that builds its own graph,
lets an op overwrite a slot it does not read.

**Build cache and staged build** (`BuildCache`, `CacheRefinement`, `CmdstanJob`, `JobInvariants`, `JobStatus`, `Prebuild`,
`PrebuildStages`, `PrebuildPool`, `PrebuildWaves`, `PrebuildRun`, `JobRecords`). Cache writers and readers interleave one
file-system call at a time and may stop anywhere. In the staged build a lookup and a commit are single steps,
which `CacheRefinement` derives from the runs of the cache protocol. The staged build is proved for every pattern of stage
failures, down to which models run a command and which leave a directory behind. Three limits of the code
show up and are stated exactly. A constructor that fails after making its scratch directory leaves it behind
(`JobInvariants.ConstructorCanLeak`). A rename replaces an empty directory but nothing else, so a nonempty
entry that was broken before stays as it is, and a successful build can record a path to nothing
(`JobInvariants.BrokenEntryMisleads`, `BuildCache.DamageIsForever`). And since such an entry is never hit, a
twin whose leader succeeded may have to run commands after all (`PrebuildRun.TwinCanRebuild`).

**Container grid** (`ContainerFlow`, `ContainerForms`, `ContainerSinks`). The literal of a view is built
position by position, Stan's assignment walks the container axis by axis, and both meet in every cell, so
all write forms of a container mean the same tensor. Cell values stay distinct up to extent 10, one more
than the decimal digits suggest, because indices start at 1.

**Kernels and pipelines** (`ReduceTerms`, `Dispatch`, `Selection`, `Ess`, `Closure`, `Ulp`, `Timer`,
`Measurement`, `MeasurementMeaning`, `Agreement`). Three more limits are stated as if-and-only-ifs. The ulp distance of
`bs_conformance.py` is wrong exactly when the number of steps does not fit 63 bits
(`Ulp.DistanceIffFits`). The parser accepts what the driver prints on every clock exactly when the timing
windows are whole nanoseconds (`Timer.AcceptedIffWhole`); `corpus_bench.py` itself takes whole milliseconds
only (harnesses/corpus_bench.py:819-820 and 853), so the fractional case concerns other callers of
`parse_timing`. And a record of `measure_model` that ends without a failure passes the catalog's check
exactly when all rounds have the same width, which the recorder itself never compares between rounds
(`Measurement.OkRecordPassesIff`, `Measurement.WidthsCanDiffer`).

`Arithmetic`, `Sums`, `Options` and `Reals` hold what several modules share.

## Model

| member | source | states |
|---|---|---|
| TeamControl.StepKeepsInv | tools/bench_reduce_sum.cpp:96-190 | every step of the calling thread or a worker (startup, failed startup, drawing, leaving, waiting, waking, stopping, joining) keeps the protocol invariant that ties `remaining_`, `next_`, `ready_` and `generation_` to where the threads are, and that a team in service has one worker fewer than threads |
| TeamProgress.StepDescends | tools/bench_reduce_sum.cpp:116-180 | a potential strictly decreases with every step other than the start of a call and a spurious wake-up |
| TeamProgress.SleeperIsAwaited | tools/bench_reduce_sum.cpp:126-129 | while the calling thread sleeps on `done_`, some worker that is not asleep still has to notify it |
| TeamProgress.NotStuck | tools/bench_reduce_sum.cpp:98-113 | in every reachable state with a call in progress some thread can take a useful step, also after a failed startup and during `stop` |
| Team.StartSafe | tools/bench_reduce_sum.cpp:98-101 | the state before the constructor satisfies the whole safety invariant |
| Team.FirstError | tools/bench_reduce_sum.cpp:130-131 | the scan of the error slots rethrows the error of the lowest failing index, and nothing if there is none |
| Team.StepKeepsWork | tools/bench_reduce_sum.cpp:135-144 | every step keeps: a job is running exactly when the one thread recorded for it executes it, tickets below `next_` are out exactly once, error slots hold how jobs ended |
| TeamTheorems.StepKeepsMemory | tools/bench_reduce_sum.cpp:275-280 | with exclusive jobs, every load, store, start and end keeps the shared memory equal to what the jobs leave one after the other, each as far as it has come |
| TeamTheorems.EveryScheduleIsSafe | tools/bench_reduce_sum.cpp:116-171 | over every schedule of any sequence of runs, each with jobs of its own: each job ran exactly once per run and, if the run throws nothing, left its density in its slot, `next_` ended at jobs + threads (one ticket past the jobs per thread), the lowest failing job was thrown, memory is the serial one; a team in service has threads - 1 workers; no worker works for another generation; `remaining_` never underflows; no job has two threads |
| TeamTheorems.RecordsInOrder | runtime/src/reduce_sum.cpp:35-60 | in every schedule the i-th completed run is that of the i-th call and holds exactly the jobs that call brought, however many |
| TeamTheorems.ActionDescends | tools/bench_reduce_sum.cpp:135-171 | every useful action of any thread, including each load and store of a job, decreases the measure of the call |
| TeamTheorems.SomeThreadCanAct | tools/bench_reduce_sum.cpp:126-129 | until the call is over some thread can do a useful action, whoever is asleep |
| TeamTheorems.CallsAreBounded | tools/bench_reduce_sum.cpp:116-132 | no schedule keeps a call open for more useful actions than its measure |
| TeamTheorems.MaximalSchedulesEndTheCall | tools/bench_reduce_sum.cpp:98-113 | a schedule of useful actions that cannot be extended has ended the call: construction, run, or stop with all workers joined |
| TeamTheorems.EveryWorkerJoins | tools/bench_reduce_sum.cpp:160-169 | when `run` scans for errors every worker has joined the current generation |
| TeamTheorems.CallsAreRecorded | tools/bench_reduce_sum.cpp:116-132 | between two calls every call that began has returned or thrown, with its record |
| TeamTheorems.WithoutFailureTheTeamServes | tools/bench_reduce_sum.cpp:98-113 | without a failed start, a failed worker or a stop, a schedule that cannot be usefully extended leaves a team of all its threads ready for the next call, every call so far recorded |
| TeamTheorems.NothingIsRuledOut | tools/bench_reduce_sum.cpp:96-190 | in every reachable state calls may bring any jobs, any running job may throw, threads and workers may fail to start, and sleepers may wake spuriously |
| Publication.PublishOnce | tools/bench_reduce_sum.cpp:275-280 | publishing one kind of span adds a child's value to a parent cell once if the cell is of that kind, else leaves it |
| Publication.CellIff | tools/bench_reduce_sum.cpp:275-280 | a cell belongs to a list of spans exactly when a span covers it in the parent, as far into its local part as into its parent part |
| Publication.JobsAreExclusive | tools/bench_reduce_sum.cpp:332-336 | under a sound plan no two concurrent jobs accumulate into the same gradient cell |
| Publication.WorkersLeave | tools/bench_reduce_sum.cpp:332-336 | what the workers leave in each cell, whatever the schedule: the owner's one addition, or zero |
| Publication.MergedIsCanonical | tools/bench_reduce_sum.cpp:344-381 | for every schedule the merged gradient cell of any of its runs equals the serial chunk-order sum over full-width children, using only x + 0 = x on accumulator values |
| Publication.MergedDensityIsCanonical | tools/bench_reduce_sum.cpp:374-378 | for every schedule, the densities that the jobs of a run stored merge to what evaluating the jobs of that call one after the other, in chunk order, gives, if the run throws nothing |
| ScatterPlan.CountReaders | runtime/include/stanli/detail/input_ranges.hpp:143-146 | fails exactly when an import runs off the parent, else counts for every parent cell the imports that land on it |
| ScatterPlan.SplitImport | runtime/include/stanli/detail/input_ranges.hpp:149-160 | the spans of one import cover its cells in order, each uniform in whether its cells have a single reader, no two neighbours could be one span, and parent and local parts of each are as far apart as in the import |
| ScatterPlan.Plan | runtime/include/stanli/detail/input_ranges.hpp:141-162 | refuses exactly the imports that reach past the parent, else keeps every child's cells in order and marks exactly the cells with one reader |
| ScatterPlan.PlannedChildrenAreSound | runtime/include/stanli/detail/input_ranges.hpp:139-162 | a computed plan, with worker publication on or off, meets what the schedule-independence theorem asks of plans |
| Chunks.CutsAreEven | tools/bench_reduce_sum.cpp:314-317 | cut k is the share k / chunks of n rounded down; the cuts run from 0 to n and every chunk has the floor or the ceiling of n / chunks observations, so all are equal when chunks divides n |
| Chunks.ChunksPartition | tools/bench_reduce_sum.cpp:314-317 | an observation is in 1..n if and only if it lies in a chunk, and never in two |
| Chunks.NoOverflow | tools/bench_reduce_sum.cpp:983-989 | with `int` sizes every product fits 64 bits and every cut fits `int` |
| OpGraph.KeptForward | runtime/src/cse.cpp:144-148 | removing the dropped ops from the list changes nothing the forward sweep computes |
| OpGraph.KeptReverse | runtime/src/cse.cpp:144-148 | removing the dropped ops from the list changes nothing the reverse sweep computes |
| Cse.CountWrites | runtime/src/cse.cpp:60-65 | the number of outputs of the graph that are each slot |
| Cse.Eliminate | runtime/src/cse.cpp:53-150 | the loop computes the specified pass: kept ops in order, target terms under their new names, settings derived from the graph |
| CseProof.VisitKeepsPassInv | runtime/src/cse.cpp:86-140 | every iteration keeps: renamed and shared slots and their survivors are written once and already, survivors are never renamed away, keys mention only live slots |
| CseProof.DuplicateValue | runtime/src/cse.cpp:106-136 | an op whose key is in the table computes exactly what its survivor's slot holds, although slots are overwritten |
| CseProof.PassInStep | runtime/src/cse.cpp:86-140 | after every prefix both graphs agree on all live slots and on effects, for all kernels and whatever the buffers held before |
| CseProof.CsePreservesValues | runtime/src/cse.cpp:1-28 | the rewritten graph computes every slot, renamed ones under their new name, and the same effects; kept slots and parameters are never renamed |
| CseReverse.VisitActivity | runtime/src/cse.cpp:89-94 | renamed slots are reached by no parameter, shared ones are, and a current table entry is as active as its inputs |
| CseReverse.CsePreservesGradient | runtime/src/cse.cpp:122-128 | without merging active duplicates, the adjoint of every parameter is the original one for adjoint updates that need not be associative |
| CseMergeReverse.SweepBalanced | runtime/src/cse.cpp:121-135 | at every op of the reverse sweep the adjoints of all slots that share a name add up to the merged adjoint and what the duplicates passed so far still owe through their survivors |
| CseMergePass.MergeAll | runtime/src/cse.cpp:86-140 | with merging, every dropped op follows its survivor, which has the same signature and renamed inputs, and no kept op in between writes those inputs |
| CseMergePass.MergePreservesGradient | runtime/src/cse.cpp:121-135 | with merging of active duplicates, for additive pullbacks over a commutative, associative addition, the adjoint of every parameter is the original one, the target terms being seeded under their new names |
| CseComplete.DuplicatesGo | runtime/src/cse.cpp:95-136 | ops that compute the same (equal signature, inputs one unwritten slot or duplicates themselves, outputs written once and neither kept nor parameters) end with one name for both outputs and the second op gone, unless parameters reach its inputs and merging is off: then both take their value from one op's slot |
| CseComplete.GoneIffSame | runtime/src/cse.cpp:86-136 | an op goes if and only if an earlier op of the graph computes the same and no parameter reaches its inputs or merging is on |
| CseComplete.SharedOnlyIfSame | runtime/src/cse.cpp:121-128 | an op shares a value, or lends its own, only if it has such a duplicate |
| ConstFold.MarkRound | runtime/src/constfold.cpp:46-75 | one forward pass marks exactly the effect-free ops with inputs that neither a parameter nor a surviving op reaches and with no refused output |
| ConstFold.LastWrites | runtime/src/constfold.cpp:80-86 | for every slot the last marked op that writes it, or -1 |
| ConstFold.RefuseRound | runtime/src/constfold.cpp:87-130 | adds exactly the slots a surviving op reads before a marked op overwrites them, or updates in place behind a marked op |
| ConstFold.MarkConstantOps | runtime/src/constfold.cpp:38-133 | the loop ends without a round cap with the marks that rounds of marking and refusing settle on |
| ConstFoldComplete.MarkedIff | runtime/src/constfold.cpp:38-133 | on every graph an op is marked if and only if reads lead from it to no op that has an effect, has no input, reads a parameter or writes a refused slot; and a slot is refused only for a surviving op that needs what folding would not keep |
| ConstFoldComplete.MarkedIffNoChain | runtime/src/constfold.cpp:46-75 | where every slot has one writer before its readers, an op is marked if and only if no chain of reads leads from it to a parameter or to an op with an effect or without inputs |
| ConstFold.SettledIsSound | runtime/src/constfold.cpp:20-24 | no marked op reads a slot a parameter reaches, and no surviving op loses intermediate contents it reads |
| ConstFoldProof.FoldingPreserves | runtime/src/constfold.cpp:137-236 | over every sequence of evaluations and all kernels, each surviving op reads what it read before, the world is the same before each op and the roots end up the same, provided reads are clean |
| ConstFoldProof.ChainsAreClean | runtime/src/constfold.cpp:87-130 | on graphs whose second writes are in-place updates the refusals make all reads clean, so folding is invisible |
| ConstFoldReverse.EndsAgree | runtime/src/constfold.cpp:137-236 | at the end of an evaluation both graphs hold the same in every slot a surviving op reads or writes |
| ConstFoldReverse.FoldingPreservesGradient | runtime/src/constfold.cpp:137-236 | on update chains the adjoint of every parameter is the original one in every evaluation of every sequence, for adjoint updates that need not be associative |
| ConstFoldLimits.UncleanReadsDiffer | runtime/src/constfold.cpp:117-129 | the converse, as long as folded and surviving writers of a slot have different signatures: if a reader or root meets a slot last written by a folded op that a surviving op also writes, the second evaluation differs there for kernels that tag their outputs |
| ConstFoldLimits.OverwriteLeaks | runtime/src/constfold.cpp:117-129 | a concrete graph that the pass folds although the second evaluation then reads the overwritten value |
| BuildCache.WriterKeepsInv | tools/bench_build_cache.py:36-53 | every file-system call of a writer keeps visible entries complete and unchanged, scratch directories owned by one writer, and at most one winner per key |
| BuildCache.VisibleEntriesAreComplete | tools/bench_build_cache.py:18-19 | in every run an entry that appeared holds whole metadata and every file it lists |
| BuildCache.EntriesAreKept | tools/bench_build_cache.py:40-51 | a visible entry is never changed, replaced or removed, so a losing commit leaves the winner's entry as it was |
| BuildCache.OneWinnerPerKey | tools/bench_build_cache.py:40-51 | at most one commit per key returns True, and none for an entry that was there before |
| BuildCache.WinnerStays | tools/bench_build_cache.py:40-51 | from its commit on, the winner's own metadata and files are what the key holds |
| BuildCache.NothingLeftBehind | tools/bench_build_cache.py:45-53 | when all writers have returned none of their scratch directories is left, and whoever lost finds an entry |
| BuildCache.CommittedKeysHit | tools/bench_build_cache.py:26-34 | a lookup that starts after a key was committed never misses and returns the committed metadata |
| BuildCache.LookupsCanGoOn | tools/bench_build_cache.py:26-34 | an unfinished lookup can always go on and has fewer files left after each check |
| BuildCache.NothingIsRuledOut | tools/bench_build_cache.py:36-53 | writers may use any free scratch name, put any files, give up or see a rename fail at any time |
| BuildCache.HitsAreComplete | tools/bench_build_cache.py:26-34 | a hit always means a complete entry with that metadata, also in a damaged cache |
| BuildCache.DamageIsForever | tools/bench_build_cache.py:45-51 | a damaged, nonempty entry stays as it is: no commit wins its key and no lookup hits |
| CacheRefinement.LookupRefines | tools/bench_build_cache.py:26-34 | whatever runs beside a lookup, a hit is a hit for the job's one-step lookup when it returns and a miss is one when it began |
| CacheRefinement.CommitRefines | tools/bench_build_cache.py:40-51 | however other processes' calls fall between those of a commit, it wins exactly when the entry was free and no rival came first, and leaves entry and scratch directory as the job's one-step commit does |
| CacheRefinement.CommitCanGoOn | tools/bench_build_cache.py:40-53 | a commit that has not returned can always make its next call |
| JobInvariants.ConstructIsLocal | harnesses/corpus_bench.py:408-439 | a constructor yields a consistent job or fails, and leaves an unowned scratch directory exactly when the source is lost after the directory was made |
| JobInvariants.StancKeeps | harnesses/corpus_bench.py:445-453 | the stanc stage keeps the job consistent and touches nothing but its own directory, in every outcome |
| JobInvariants.StartDriverKeeps | harnesses/corpus_bench.py:459-466 | the start of the driver stage keeps the job consistent, and a driver command in a cached build runs in a new directory of its own |
| JobInvariants.EndDriverKeeps | harnesses/corpus_bench.py:467-474 | the end of the driver stage keeps the job consistent in every outcome |
| JobInvariants.MakeKeeps | harnesses/corpus_bench.py:476-487 | the make stage keeps the job consistent in every outcome |
| JobInvariants.FinishKeeps | harnesses/corpus_bench.py:489-537 | whatever fails while finishing, no directory of the job is left, only absent or empty entries are filled, recorded paths exist unless a nonempty entry lacked the file before, and a successful build has both entries in the cache |
| JobInvariants.ConstructorCanLeak | harnesses/corpus_bench.py:432-434 | a concrete constructor failure that leaves a scratch directory nobody discards |
| JobInvariants.BrokenEntryMisleads | harnesses/corpus_bench.py:508-519 | a concrete successful build whose recorded executable does not exist because a nonempty broken entry was in the way |
| JobStatus.RunsIsExact | harnesses/corpus_bench.py:408-487 | a model runs a command exactly when its constructor succeeds and it misses the model, or misses only the driver and gets as far as starting it, read off the lookups and the outcomes alone |
| JobStatus.CommitsIsExact | harnesses/corpus_bench.py:489-537 | which of the two entries a model fills follows from the lookups and the outcome of its steps |
| JobStatus.FinishFills | harnesses/corpus_bench.py:489-537 | finishing a job fills exactly the keys it commits and no other model's |
| JobRecords.FinishRecord | harnesses/corpus_bench.py:489-537 | what finishing returns, and whether it raises, follows from how far the job got |
| JobRecords.NotedIs | harnesses/corpus_bench.py:571-582 | hit, both failure flags and both paths of a record follow from the two lookups and the outcomes of the model's steps; a step that raises leaves a gradient failure and nothing else |
| JobRecords.CommandsAre | harnesses/corpus_bench.py:540-552 | which commands a model runs, and in which order, follows from the two lookups and the outcomes of its steps |
| Prebuild.GuardedKeeps | harnesses/corpus_bench.py:577-582 | applying a stage, or aborting its job and recording the failure, keeps every other job, record and directory |
| PrebuildStages.Stancs | harnesses/corpus_bench.py:599-601 | models go through stanc one at a time: exactly those that miss run a command, alone, and each ends up where its outcome says |
| PrebuildStages.Makes | harnesses/corpus_bench.py:606-608 | the same for make |
| PrebuildPool.RunDrivers | harnesses/corpus_bench.py:602-605 | driver commands start and end in any order up to the number of workers, exactly the ready models without a driver that get as far run one, never more at a time than workers, none is left running, and each model ends up where its outcome says |
| PrebuildRun.SplitInputs | harnesses/corpus_bench.py:561-568 | leaders are exactly the first of each group of equal sources, twins all others |
| PrebuildWaves.RunWave | harnesses/corpus_bench.py:593-612 | every name of the wave ends with exactly one record; the records, the commands each model ran and their order, the entries that were filled and whether directories are left follow exactly from the cache at the start of the wave and the outcomes of the steps |
| PrebuildRun.PrebuildAll | harnesses/corpus_bench.py:555-621 | one record per input; every record says hit, failure and paths exactly as the lookups at the start (for a twin: what its leader leaves) and the steps of the model decide, and without a failure it has both paths; every model ran exactly its commands in order, all leaders before the first twin, and never more than workers at a time; a recorded path exists if and only if it does not lead into a nonempty entry that lacked the file before; stanc and make never ran beside another command; scratch directories are left if and only if a leader loses its source on a miss, or a twin does while its model is neither complete before nor committed by the leader; a leader is idle if and only if its lookups and steps say so, a twin likewise by what its leader commits; a twin of a successful leader is idle if and only if both entries were complete, empty or absent, or its own steps fail first (no directory; no source while the model is broken; no driver scratch while only the driver is) |
| PrebuildRun.TwinRebuildsIff | harnesses/corpus_bench.py:593-612 | after a successful leader, a twin runs a command exactly when a nonempty entry was broken before and the twin's own steps get that far |
| PrebuildRun.TwinCanRebuild | harnesses/corpus_bench.py:593-612 | a concrete cache with a half-deleted model entry in which the leader succeeds and the twin still runs a command |
| ContainerFlow.AssignWrites | tools/gen_container_flow_models.py:161-187 | assigning a walked literal sets exactly the selected cells, each to its own value, whatever the container held |
| ContainerFlow.LiteralIsWalked | tools/gen_container_flow_models.py:161-187 | the literal emitted position by position through `full` is the one obtained by walking the axes |
| ContainerFlow.AllWritten | tools/gen_container_flow_models.py:254-279 | after a list of slice assignments a cell holds its value if any slice touches it, else what it held |
| ContainerForms.NestIsAssign | tools/gen_container_flow_models.py:247-253 | the emitted loop nest stores what assigning the whole literal stores |
| ContainerForms.EveryFormWritesTheTensor | tools/gen_container_flow_models.py:235-281 | for every shape and every applicable form, each cell ends with its own value and there are no other cells |
| ContainerForms.FormsAgree | tools/gen_container_flow_models.py:235-281 | any two applicable forms leave the same container, each cell holding its canonical value plus the offset |
| ContainerForms.StatementWrites | tools/gen_container_flow_models.py:255-279 | every cell is written by exactly one statement of a form, and which one tells the forms apart: row, column, prefix in row-major order, or the two ranges |
| ContainerForms.StatementCount | tools/gen_container_flow_models.py:255-279 | each form has the number of statements its shape calls for |
| ContainerForms.PermMoves | tools/gen_container_flow_models.py:277-279 | the multi-index form writes the rows in an order that moves every row |
| ContainerForms.CanonicalIs | tools/gen_container_flow_models.py:123-130 | the value of a cell is 100*i + 10*j + k up to rank 3 and the number with the indices as digits from rank 3 on |
| ContainerForms.CellsAreDistinct | tools/gen_container_flow_models.py:123-130 | canonical values are pairwise distinct if no extent but the first exceeds 10 |
| ContainerForms.DistinctIffAtMostTen | tools/gen_container_flow_models.py:123-130 | with at least two values per index they are distinct if and only if no extent but the first exceeds 10 |
| ContainerForms.LinExpr | tools/gen_container_flow_models.py:625-632 | the fold computes the row-major position of the cell, counted from 1 |
| ContainerForms.OffsetThenCell | tools/gen_container_flow_models.py:625-632 | positions lie below the product of the extents and determine the cell |
| ContainerForms.CellThenOffset | tools/gen_container_flow_models.py:625-632 | every position is the position of a cell |
| ContainerSinks.VisitsInOrder | tools/gen_container_flow_models.py:616-622 | the k-th cell that nested loops visit is the cell at position k |
| ContainerSinks.AppendMatches | tools/gen_container_flow_models.py:669-683 | appending a block of labels and reads keeps the whole matched exactly when the block is matched on its own |
| ContainerSinks.LoopOrder | tools/gen_container_flow_models.py:616-632 | nested loops over a shape fill the positions 1 to n in order, each once |
| ContainerSinks.ExactlyOneRead | tools/gen_container_flow_models.py:366-372 | every index of p is the coefficient of exactly one read, whose label sits at that position of the label list |
| ContainerSinks.Sink.Scalar | tools/gen_container_flow_models.py:657-667 | a scalar sink in the model or function block keeps labels and reads matched |
| ContainerSinks.Sink.Cells | tools/gen_container_flow_models.py:669-683 | labels and reads stay matched if and only if the fill stores every position from 1 to n exactly once |
| ContainerSinks.Sink.CellsOf | tools/gen_container_flow_models.py:669-683 | a cell sink that loops over its shape keeps labels and reads matched |
| ContainerSinks.Sink.Close | tools/gen_container_flow_models.py:707-720 | turning a function's results into coefficients keeps labels and reads matched |
| ReduceTerms.Graph.ReduceTerms | tools/bench_opcost.cpp:25-46 | only additions of 2 to 6 older slots are appended, as many as taking six terms at a time calls for, each term is consumed exactly once, the arities minus one add up to the terms minus one, and the sum is kept in every memory |
| ReduceTerms.ChunkIsProgress | tools/bench_opcost.cpp:29-41 | replacing a chunk by a new slot keeps order, arity and exact consumption of all terms |
| ReduceTerms.ResultIsTheSum | tools/bench_opcost.cpp:25-46 | the forward sweep leaves the sum of the terms in the result slot |
| ReduceTerms.TermsGetOne | tools/bench_opcost.cpp:25-46 | the reverse sweep seeded with 1 gives every term the adjoint 1 per occurrence |
| Dispatch.Loop | tools/bench_dispatch.cpp:121-123 | the loop leaves the memory of running the ops in order, for any aliasing |
| Dispatch.Tail | tools/bench_dispatch.cpp:61-78 | the tail-threaded chain leaves the same memory and runs exactly the remaining kernels before the sentinel |
| Dispatch.Unroll4 | tools/bench_dispatch.cpp:127-136 | four call sites per iteration and the remainder loop leave the same memory for every program length |
| Dispatch.Inline | tools/bench_dispatch.cpp:137-153 | the switch leaves the same memory |
| Dispatch.LastWriterWins | tools/bench_dispatch.cpp:40-43 | a cell holds what its last writer computed from the memory of that moment |
| Selection.SelectIterations | tools/benchmark_points.py:34-52 | refuses exactly runs without a leapfrog step, else returns for every quantile the first iteration that reaches it, never running off the list |
| Selection.ReachesIsShare | tools/benchmark_points.py:34-39 | the integer test says that the share of leapfrog steps has come to (k + 1/2) / points |
| Selection.SelectionIsOrdered | tools/benchmark_points.py:111-114 | chosen indices never decrease, are below the number of iterations and belong to iterations with a positive count |
| Selection.SelectionIsFair | tools/benchmark_points.py:34-39 | iteration i is chosen the floor or the ceiling of points * l_i / total times |
| Ess.InitialPositive | harnesses/fast_sampling_check.py:119-134 | the first pass stays in bounds and keeps exactly the leading positive pairs and the single lag after them |
| Ess.StopIsUnique | harnesses/fast_sampling_check.py:125-131 | the number of leading pairs that count is determined by the autocorrelations |
| Ess.Monotone | harnesses/fast_sampling_check.py:135-140 | the second pass turns pair sums into their running minima |
| Ess.MinimaDecrease | harnesses/fast_sampling_check.py:135-140 | the lowered pair sums are positive, never increase, never exceed the raw ones and are among them |
| Ess.EffectiveSize | harnesses/fast_sampling_check.py:103-144 | the result times the floored sum of running minima is the size, and it is positive and at most size * log10(size) |
| Closure.SeedDependent | tools/generate_density_signature_model.py:415-423 | exactly the declarations from which a chain of references reaches the seed, with the dependent names each refers to |
| Closure.Needed | tools/generate_density_signature_model.py:434-443 | the worklist ends with the least set that holds the dependent arguments and whatever its members refer to |
| Closure.CaseDeclarations | tools/generate_density_signature_model.py:434-444 | emits exactly the needed declarations, in declaration order |
| Closure.DeclaredBeforeUse | tools/generate_density_signature_model.py:426-444 | a role variable on an emitted line is declared in the prelude or on an earlier emitted line |
| Ulp.OrderedAsValues | tools/bs_conformance.py:116-122 | the ordered integers compare as the values of finite doubles do, both zeros being equal |
| Ulp.EveryStepIsRepresentable | tools/bs_conformance.py:116-122 | every integer between two ordered integers is a finite double between their values |
| Ulp.NothingBetweenNeighbours | tools/bs_conformance.py:116-122 | no finite double lies between two neighbouring integers |
| Ulp.DistanceIffFits | tools/bs_conformance.py:121-123 | the wrapped distance is the number of steps if and only if that number is below 2^63; otherwise it is too small and the signs differ |
| Ulp.OppositeExtremesWrap | tools/bs_conformance.py:121-123 | the largest doubles of opposite sign come out 2^53 + 2 steps apart |
| Ulp.UlpsAgree | harnesses/fn_sweep.py:239-247 | the same-sign distance is finite exactly for same-sign or equal values, and there it equals the wrapped distance and the number of steps |
| Timer.RunWindow | tools/benchmark_timer.hpp:27-54 | refuses nonpositive windows and batches, else ends with the first reading past the duration, having counted the doubling batches up to there |
| Timer.BatchesBounded | tools/benchmark_timer.hpp:46-51 | batches never shrink below where they started nor double past 2^21, every window counts something, and an uncalibrated one counts batches of its starting size |
| Timer.BatchesDouble | tools/benchmark_timer.hpp:46-49 | a calibrated batch is the first one doubled once for every reading under a millisecond, until it reaches 2^20 |
| Timer.IterationsDouble | tools/benchmark_timer.hpp:36-49 | n quick readings below the cap count start * (2^n - 1) evaluations |
| Timer.TimedRun | tools/benchmark_timer.hpp:194-254 | fails exactly when no point is finite, else prints a trial whose every count and elapsed time is that of the windows on the given clock, measured exactly for the finite points |
| Timer.PrintedIsUnique | tools/benchmark_timer.hpp:228-235 | the clock and the evaluations determine the printed trial |
| Timer.ExactPrintsEarliest | tools/benchmark_timer.hpp:228-235 | there is a clock on which every window is crossed in one batch, and its run prints the earliest possible trial |
| Timer.AcceptedIffWhole | harnesses/corpus_bench.py:218-254 | the parser accepts what the driver prints on every clock if and only if the windows are whole nanoseconds and every finite point has a density |
| Measurement.CheckPair | harnesses/corpus_bench.py:271-293 | accepts a pair exactly when both engines keep the same points, at least one, with equal widths and errors within the gate, and records those points and errors |
| MeasurementMeaning.AcceptedIffNear | harnesses/corpus_bench.py:271-293 | a pair is accepted exactly when each point was run by both engines or by neither, some point was, and all compared values differ by at most 1e-9 of the larger magnitude or of 1 |
| MeasurementMeaning.RecordedErrors | harnesses/corpus_bench.py:271-293 | kept and dropped points are recorded in order, each error is the least fraction that the point's values are within, and the worst is the largest of them |
| Measurement.MeasureModel | harnesses/corpus_bench.py:742-764 | the record holds the rounds that pass before the first failure, stripped of their values, and a summary exactly when all rounds pass and keep the same points |
| MeasurementMeaning.RecordPublishes | harnesses/corpus_bench.py:302-317 | a summary publishes the statistics of both engines' mean times per evaluation over the kept points and of the series whose entries times stanli's mean are CmdStan's |
| MeasurementMeaning.SteadyMean | harnesses/corpus_bench.py:302-304 | kept points that all take x ns per evaluation have mean x |
| MeasurementMeaning.SteadySpeedup | harnesses/corpus_bench.py:313-314 | if CmdStan's mean is k times stanli's in every round, the published speedup is the statistics of k, .., k |
| Measurement.RecordPassesIff | tools/corpus_table.py:446-498 | a record, finished or failed, passes the catalog's check if and only if its rounds keep the same points and have the same width |
| Measurement.OkRecordPassesIff | tools/corpus_table.py:475-477 | a record that ends without a failure passes if and only if its rounds have the same width |
| Measurement.OneWidthPasses | harnesses/corpus_bench.py:742-764 | drivers that print one width at every point give records that pass |
| Measurement.WidthsCanDiffer | harnesses/corpus_bench.py:756-760 | two concrete rounds of different width that the recorder accepts and the catalog refuses |
| Measurement.CatalogPairs | tools/corpus_table.py:446-498 | decides for any record, measured or not, exactly whether orders, trials, kept and dropped points, errors, widths, medians, deviations and ratios follow from the raw pairs |
| MeasurementMeaning.CatalogMeans | tools/corpus_table.py:446-498 | a summary passes exactly when its rounds are good, complete and of one width and it is close to the one that publishes their times |
| MeasurementMeaning.PassedRecords | tools/corpus_table.py:446-498 | whoever wrote a record that passes: both engines were warmed up and measured long enough in every round, took turns, ran the same points, and all recorded errors are within 1e-9 |
| Agreement.CompareValues | tools/check_stanc3_good.py:236-247 | reports nothing exactly when widths are equal and all values are within the gate |
| Agreement.InGateIffNear | tools/check_stanc3_good.py:236-247 | finite values are in the gate if and only if they differ by at most 1e-9 of the larger magnitude or of 1, others only if equal |
| Agreement.VerdictIsExact | tools/check_stanc3_good.py:250-300 | a point is ok exactly when both sides return the same values, names and array outcome, and both_threw exactly when both refuse in agreement |
| Agreement.OtherVerdicts | tools/check_stanc3_good.py:250-300 | every other verdict exactly: one side refuses, messages differ, the array is unsupported, or values or names differ where none of that comes first |
| Agreement.Classify | tools/check_stanc3_good.py:303-367 | every status exactly, from what is known of CmdStan, how the run ended and the verdicts: verified exactly when every point is ok or both_threw and one is ok; the points map holds exactly the verdicts of the bad points |
| Agreement.VerifiedMeansAgreement | tools/check_stanc3_good.py:351-367 | a point counts as good exactly when both sides return the same, both refuse, or it is listed as unstable and mismatches |
| Agreement.UpdateLedger | tools/check_stanc3_good.py:483-506 | the loop rewrites the ledger to exactly the diverging results |
| Agreement.UpdatedLedgerIsQuiet | tools/check_stanc3_good.py:370-389 | a rewritten ledger passes the format checks and draws no complaint but a missing named cause |
| Agreement.NewEntriesNeedACause | tools/check_stanc3_good.py:494-505 | a new entry is complained about until its cause is named, unless a missing feature explains it |
| Agreement.UpdateIsIdempotent | tools/check_stanc3_good.py:483-506 | rewriting again with the same results changes nothing |
| Agreement.CausesSurvive | tools/check_stanc3_good.py:492-494 | a cause is kept exactly as long as the recorded divergence is the computed one |

## Left out

- The C++ memory model: team steps are sequentially consistent, and `size_t` counters do not wrap.
- Kernels, the lowering of Stan programs, islands and solvers: every kernel is an arbitrary function.
- Scratch sharing, slot lengths and ops without inputs or outputs (index -1): a shared primal is a copy of the survivor's slot, and lengths are part of an op's signature.
- Graphs in which the first write of a slot already reads it: `DefinedBeforeUse` excludes them, as the in-place pass refuses such bases.
- CseReverse.CsePreservesGradient: does not cover merging of active duplicates, which reassociates adjoints on purpose; `CseMergePass.MergePreservesGradient` does, under the laws that reassociation needs.
- The `busy_` flag of the runtime's team, which refuses a second concurrent caller: the model has one calling thread.
- CacheRefinement.CommitRefines: a rival is assumed to build exactly the listed files, and a rename that fails for another reason than an occupied entry is not covered.
- ConstFoldProof.FoldingPreserves: clean reads are judged on the marks the pass settles on, which the graph alone determines; kernels that raise while folding are not modelled.
- ConstFoldLimits.UncleanReadsDiffer: does not cover a folded and a surviving op of the same signature on one slot, which compute the same from equal inputs whatever the kernel.
- ConstFoldReverse.FoldingPreservesGradient: stated for update chains, because a pullback that reads its overwritten output is already at odds with itself in the original graph; kernels that raise while folding are not modelled.
- `compact_imports`: only the scatter plan over given imports is modelled.
- Other file-system failures than the ones named in `CmdstanJob.Fate` and `BuildCache.Action`, interrupts, timeouts and child processes; a successful command leaves its output file.
- CmdStan job objects: the stages are functions on values, so aliasing between job objects is not captured; finished jobs leave the job table.
- BuildCache.NothingLeftBehind: removal of a directory always succeeds; ignored removal errors are not modelled.
- The `udf`, `builtin`, `cpdelem` and `cpdrow` write forms, read forms and the Stan types of literals: they need library functions or change values on purpose.
- Output-column sinks (transformed data, transformed parameters, generated quantities): a column per label, nothing to match.
- Ess.EffectiveSize: exact reals with positive variance; NaN handling, the autocovariance by FFT and rank normalisation are not part of the model.
- Timer.RunWindow: iteration counts do not wrap at 64 bits.
- Measurement.CatalogPairs: JSON and TSV are structured values, and the median with its deviation is one function that both sides share.
- Message normalisation: agreement of messages is an arbitrary predicate, and ledger causes are structured rather than truncated text.
- Setup timing, reports, tables, packaging, the browser worker and bindings: glue without a hard property.
