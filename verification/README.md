# Interleavings, descriptors and buffers: a Dafny model of the Linux exercises

The repository is a set of C exercises on Linux processes, threads and buffers. This project models
the programs that contain a protocol or an in-place algorithm of their own and proves what those
promise. `dafny verify dfyconfig.toml` checks everything.

## How concurrency is modelled

Each concurrent program is a state and a step function. A step is one system call, lock operation or
shared access of one process; computation on local variables belongs to the shared access it goes
with. A schedule is a finite sequence of decisions (who is next, plus whatever the environment
chooses: the time, the size of a read, a spurious wakeup). A call that has to block leaves the state as
it is. So "for every schedule" means every interleaving, with any number of processes, and a sleep is
a stretch in which a process is not scheduled. `Runs.dfy` has the theory of schedules that the models
share: invariants, and termination once every process has had enough turns, in any order.

Beside each step function there is a class whose methods make the same step in place, on arrays,
counters and descriptor tables, proved equal to the function; the programs' loops appear there as
loops.

## What is proved

**The restaurant** (`10-Semaphore/main.c`; `Restaurant*.dfy`, `AtomicRestaurant.dfy`, `Kitchen.dfy`).
Chefs, single-diet customers and hybrid customers share two bounded trays, each under one semaphore.
A hybrid takes both semaphores, but posts the vegan one before it touches the non-vegan tray, and goes
on with the non-vegan count it read at the start. Every interleaving of any number of processes is
nevertheless a run of an atomic restaurant in which it takes both dishes at once. The atomic operation
happens where the customer reads its (first) dish; failed attempts are no operation at all. What holds
of the atomic restaurant then holds of the interleaved one: order, conservation, right diets, pairs.
Deadlock is excluded, every critical section is bounded, and from every reachable state that allows it
each role gets its work done: a chef puts a dish down, a customer takes one, a hybrid takes two.
`RestaurantDraws.dfy` says which: every choice in the atomic run is the one that the process's own random
numbers name, two for each dish and three for each pair, and failed attempts use up none.

One property fails: with a full tray the customers' code leaves the array `items[MAX_ITEM]` by one slot.
It is proved exactly when that happens, that it does happen for every `MAX_ITEM > 0`, and that the bytes
it moves are always zero.

**The pipeline** (`8-Pipe/main.c`; `Pipeline.dfy`, `PipelineProofs.dfy`, `PipeMachine.dfy`). Descriptor
tables are copied by `fork`, redirected by `dup2` and closed; an end of the pipe is open while some
descriptor anywhere refers to it, which is what the kernel's count of references decides. For every
capacity of at least 1: nothing is lost or reordered, `ls` never loses its reader, end-of-file comes
exactly when everything has been read, `ls` has exited and the parent has closed both ends, and every
fair run ends with both children reaped. It is also said exactly when each process has to wait.

**The threads** (`4-Thread`; `SharedCounter.dfy`, `Handoff.dfy`, `ReadersWriters.dfy`). The counter loses
no increment although its read and write are separate steps. The handoff accounts for every value, but
its customer does *not* always finish. A fair run ends with a finished customer if and only if the schedule
never lets the producer write while `data_ready` is set; and it is sure to end so if and only if there is
at most one round, while the program makes ten. In the readers-and-writers program the writers' loop
variable is the shared value, and its loop makes exactly its number of rounds in every interleaving.
What was read, written or reported is counted over the schedule, and for each lock it is proved exactly
when it holds a thread up: readers, in particular, wait for writers only, and can all be inside at once.

**The strings** (`1-GeneralKnowlegde/strutils.c`; `Text.dfy`, `StrUtils.dfy`). `str_reverse` undoes itself;
`str_trim` is right for every buffer of up to 2^31 characters in spite of copying within one buffer, and
for longer ones exactly when its 32-bit source index does not start over on text (a failing buffer is
given); `str_to_int` returns the number denoted if and only if it has 32 bits, so every 32-bit number that
is printed is parsed back. Its two error results cannot be told from numbers: `main.c` takes `INT32_MAX`
for an error, which is wrong for the valid text "2147483647", and it is proved for which texts and buffers
each of the two results arises.

## Assumptions

- Semaphores start at 1 and memory starts zeroed, as for objects that did not exist before. Each model
  starts in that state.
- `rand()` is a fixed stream of numbers for each process; `time()` is whatever the schedule says.
- The memory behind each tray's `MAX_ITEM` slots is modelled as one more slot, blank at the start. When it
  is reached is not assumed: `RestaurantInvariant.DeclaredSlotsLeftIff` and
  `RestaurantAlone.DeclaredSlotsGetLeft`; that it stays blank is `RestaurantInvariant.GuardIsBlank`.
- `MAX_ITEM`, the numbers of threads and rounds, and the writers' bound are parameters, assumed to fit
  their 32-bit variables.
- `ls` writes a given finite string and exits; `wc` reads to end-of-file and exits; `pipe`, `fork`, `dup2`
  and `execl` succeed; descriptors 0 and 1 start open.

## Model

| member | source | states |
|---|---|---|
| `RestaurantInvariant.AccessesInBounds` | 10-Semaphore/main.c:326-334 | no statement of a process that respects the protocol goes further than one slot behind the `MAX_ITEM` declared ones, or takes `count` below zero; when it leaves the declared ones is said by `DeclaredSlotsLeftIff` |
| `RestaurantInvariant.OwnStep` | 10-Semaphore/main.c:387-416 | one statement takes, keeps or gives back each semaphore exactly as the process's position says, and leaves a tray it gives back well formed |
| `RestaurantInvariant.Exclusive` | 10-Semaphore/main.c:252-270 | two processes never hold the same tray, and its semaphore is 0 while one does |
| `RestaurantInvariant.StepKeepsInv` | 10-Semaphore/main.c:251-274 | every statement of every process keeps the global invariant |
| `RestaurantInvariant.ReachableTrays` | 10-Semaphore/main.c:318-335 | always, semaphore value plus number of holders is 1; a free tray has `count <= MAX_ITEM` and only blank slots from `count` on, although the removal clears slot `count` and not `count-1` |
| `RestaurantInvariant.OnlyTouched` | 10-Semaphore/main.c:326-334 | the slots a statement is said to touch are the only ones it depends on and the only ones it changes |
| `RestaurantInvariant.DeclaredSlotsLeftIff` | 10-Semaphore/main.c:330-333 | in every reachable state, the next statement of a process touches the slot behind the `MAX_ITEM` declared ones if and only if it has counted a full tray and is in the last round of its shift loop or at the `memset`; it never touches one further behind |
| `RestaurantInvariant.GuardIsBlank` | 10-Semaphore/main.c:330-333 | in every reachable state, tray held or free, that slot is blank, so only zeros are read and written there |
| `AtomicRestaurant.AtomicRunsAreGood` | 10-Semaphore/main.c:326-334 | with atomic operations: each tray is an order-preserving selection of what was cooked for it, cooked = taken + left as multisets, dishes match the diet, ids are at least the slot number and below `MAX_ITEM`, hybrids take equally from both trays |
| `RestaurantRefinement.ShiftKeepsLeft` | 10-Semaphore/main.c:330-332 | one round of the gap-closing loop does not change what the loop will have left in the end |
| `RestaurantRefinement.OtherView` | 10-Semaphore/main.c:400-410 | a hybrid's claim on the non-vegan tray arises when it reads its vegan dish, from the count read before, and stays the same until it gets there |
| `RestaurantRefinement.StepSimulates` | 10-Semaphore/main.c:386-416 | each statement is the one atomic operation of its process that its position and local variables name, and that operation is allowed; it is no operation exactly for all statements but a chef's new count, a customer's pick and a hybrid's first pick, so failed retries are none |
| `RestaurantRefinement.Refinement` | 10-Semaphore/main.c:386-416 | every interleaving refines an atomic run whose i-th operation is the one named for the statement scheduled i-th, with the hybrid's two removals one operation; free trays agree dish by dish and receipt by receipt |
| `RestaurantRefinement.UnheldTray` | 10-Semaphore/main.c:263-269 | in every reachable state a free tray keeps the order of cooking, nothing is lost or duplicated, dishes match the diet and ids lie between slot number and `MAX_ITEM` |
| `RestaurantRefinement.HeldTray` | 10-Semaphore/main.c:329-334 | the same order and conservation in the middle of an operation, counting the dish in hand |
| `RestaurantRefinement.HybridTakesPairs` | 10-Semaphore/main.c:400-416 | a hybrid's vegan dishes exceed its non-vegan ones by one exactly between its two removals, and otherwise not at all |
| `RestaurantRefinement.OnlyRightDishesTaken` | 10-Semaphore/main.c:326-336 | every dish taken from a tray is one of the two on its menu, never a blank slot |
| `RestaurantProgress.HoldersLeadOut` | 10-Semaphore/main.c:387-388 | from a waiting process, following holders reaches one that can move in at most two steps |
| `RestaurantProgress.EnabledIffMoves` | 10-Semaphore/main.c:387-388 | a process is held up exactly when it is at `sem_wait` and the semaphore is 0: every other statement changes the state |
| `RestaurantProgress.NoDeadlock` | 10-Semaphore/main.c:386-396 | in every reachable state there is a process whose next step changes the state |
| `RestaurantProgress.SectionIsBounded` | 10-Semaphore/main.c:317-335 | under any interleaving, a process executes at most 2 * cap + 13 statements before it has posted all it holds |
| `RestaurantProgress.CanBeFreed` | 10-Semaphore/main.c:386-416 | either tray can be freed within 4 * cap + 26 statements without moving those that wait at the head of their loop |
| `RestaurantProgress.WaitCanEnd` | 10-Semaphore/main.c:251-274 | from every reachable state, any process that waits to enter can be let in |
| `RestaurantAlone.HybridGetsBoth` | 10-Semaphore/main.c:386-420 | from every reachable state with both trays free and stocked, a hybrid at the head of its loop that runs alone comes home with slot `rand() % count` of each tray, by its second and third next random number, and has used up three |
| `RestaurantAlone.CustomerGetsOne` | 10-Semaphore/main.c:317-340 | from every reachable state with its tray free and stocked, a customer that runs alone takes slot `rand() % count`, by its second next random number, and has used up two |
| `RestaurantAlone.ChefPutsOne` | 10-Semaphore/main.c:251-274 | from every reachable state with its tray free and not full, a chef that runs alone appends one dish: its id the old count, its time what `time()` says, its name by whether the second next random number is even; two are used up |
| `RestaurantDraws.RunsAreDrawn` | 10-Semaphore/main.c:386-410 | every interleaving comes from an atomic run in which operation n of a process is the one its random numbers name: 2n+1 the dish cooked or the slot emptied, 3n+1 and 3n+2 a hybrid's two slots, modulo the count there is |
| `RestaurantDraws.ChefFollowsStream` | 10-Semaphore/main.c:260-267 | in every reachable state, the i-th dish cooked for a tray with one chef has the name that the chef's random number 2i+1 selects; between rounds it has called `rand()` twice per dish |
| `RestaurantDraws.CustomerFollowsStream` | 10-Semaphore/main.c:319-327 | in every reachable state, a customer at the head of its loop has called `rand()` twice for each dish it has taken, a hybrid three times for each pair; failed attempts call it not at all |
| `RestaurantAlone.DeclaredSlotsGetLeft` | 10-Semaphore/main.c:330-333 | for every `MAX_ITEM > 0`, a chef and a customer of one tray reach a state whose next statement writes behind the declared slots |
| `Kitchen.FoodBuffer.constructor` | 10-Semaphore/main.c:129-158 | fresh memory: semaphore 1, count 0, blank slots |
| `Kitchen.FoodBuffer.Cook` | 10-Semaphore/main.c:263-269 | a chef's update appends one fresh dish whose id is the old count |
| `Kitchen.FoodBuffer.CloseGap` | 10-Semaphore/main.c:330-332 | the loop moves every dish behind the gap up by one, in place |
| `Kitchen.FoodBuffer.TakeAt` | 10-Semaphore/main.c:326-334 | a customer's update removes exactly the chosen dish, keeps the order of the rest, and leaves the vacated slot blank |
| `Kitchen.FoodBuffer.Execute` | 10-Semaphore/main.c:317-335 | one statement on one tray, in place, is the step of the model |
| `Kitchen.Kitchen.Execute` | 10-Semaphore/main.c:386-416 | one statement of one process on the shared trays is the step of the model |
| `Kitchen.Kitchen.Serve` | 10-Semaphore/main.c:245-420 | with all processes present, a whole schedule on the shared trays is the run of the model; one that has not been forked yet is one that has not been scheduled |
| `PipelineProofs.LsHasReader` | 8-Pipe/main.c:163-171 | from fork to exit of `ls` the read end is open: the parent has it until its cleanup, and `wc` from its own fork on |
| `PipelineProofs.WriteEndClosed` | 8-Pipe/main.c:182-186 | while `wc` runs, the write end is closed exactly if `ls` has exited and the parent has cleaned up |
| `PipelineProofs.ReachableInv` | 8-Pipe/main.c:154-180 | in every reachable state the invariant holds, which fixes each descriptor table by how far its process has come |
| `PipelineProofs.NothingLost` | 8-Pipe/main.c:128-152 | read + in transit + unwritten is always the output of `ls`; end-of-file implies all of it was read; the pipe never overflows; `ls` never wrote without a reader |
| `PipelineProofs.ReaderThroughout` | 8-Pipe/main.c:163-171 | at every moment of every run `ls` has a reader, and both children's standard descriptors are the right ends |
| `PipelineProofs.EndOfFileExactly` | 8-Pipe/main.c:182-186 | the next read of `wc` is end-of-file if and only if everything has been read, `ls` is gone and the parent has closed both ends |
| `PipelineProofs.LsWritesAny` | 8-Pipe/main.c:128-152 | a write moves any number of bytes, from one to what there is room for |
| `PipelineProofs.WcReadsAny` | 8-Pipe/main.c:128-152 | a read moves any number of bytes, from one to what there is |
| `PipelineProofs.HeldUpIff` | 8-Pipe/main.c:182-206 | `ls` waits exactly on a full pipe, `wc` exactly on an empty one that may still be written, the parent exactly for the child whose turn it is |
| `PipelineProofs.SomeoneMoves` | 8-Pipe/main.c:55-68 | in every state but the final one some process can move |
| `PipelineProofs.FairRunsTerminate` | 8-Pipe/main.c:55-68 | after 22 + 2 * size-of-output turns each, the parent has exited, both children are reaped, `wc` has read everything, and neither end is open anywhere |
| `PipelineProofs.StuckIsFinal` | 8-Pipe/main.c:188-206 | nothing can move if and only if the parent has exited |
| `PipeMachine.Process.ExecuteCommandWithPipe` | 8-Pipe/main.c:154-180 | from fork to `execl` the child ends up with the inherited table, the one pipe end it needs on the redirected descriptor, and no other; it fails exactly if that end is not open |
| `PipeMachine.Process.SetUpStep` | 8-Pipe/main.c:163-174 | one of those calls, in place, is the step of the model |
| `PipeMachine.Machine.SpawnChildren` | 8-Pipe/main.c:78-100 | the loop forks both children with copies of the parent's table and records them in order |
| `PipeMachine.Machine.ExecuteParent` | 8-Pipe/main.c:55-68 | one call of the parent, in place, is the step of the model |
| `PipeMachine.Machine.Go` | 8-Pipe/main.c:55-68 | a whole schedule in place is the run of the model, and nothing is lost on the way |
| `SharedCounter.NoLostUpdate` | 4-Thread/task2.c:23-27 | the counter is always the number of times the schedule has let a thread write it, modulo 2^32 |
| `SharedCounter.HeldUpIff` | 4-Thread/task2.c:24-26 | a thread is held up exactly at the lock, while some thread is between lock and unlock |
| `SharedCounter.Exclusion` | 4-Thread/task2.c:24-26 | at most one thread is between lock and unlock |
| `SharedCounter.JoinedTotal` | 4-Thread/task2.c:48-60 | when all threads have finished the counter is threads * rounds modulo 2^32, and some thread logged exactly that |
| `SharedCounter.LoggedRange` | 4-Thread/task2.c:29-29 | without overflow, what a thread logs lies between its own increments and all of them, although it reads without the lock |
| `SharedCounter.LoggedIsRead` | 4-Thread/task2.c:29-29 | what a thread has logged is the counter in the state in which it logged |
| `SharedCounter.FairRunsTerminate` | 4-Thread/task2.c:48-60 | every fair run ends with all threads finished |
| `SharedCounter.Program.Entry` | 4-Thread/task2.c:23-27 | one thread's loop on its own adds its rounds, modulo 2^32 |
| `SharedCounter.Program.Execute` | 4-Thread/task2.c:19-31 | one step of one thread, in place, is the step of the model |
| `SharedCounter.Program.Go` | 4-Thread/task2.c:71-99 | a whole schedule in place is the run of the model; if the joins return, the counter is the product |
| `Handoff.ValuesAccounted` | 4-Thread/task3.c:19-47 | values produced = consumed + overwritten + the one pending, as multisets and in number; the consumed ones are in order of production |
| `Handoff.Exclusion` | 4-Thread/task3.c:22-27 | producer and customer are never both between lock and unlock |
| `Handoff.NoLostWakeup` | 4-Thread/task3.c:39-41 | whenever the mutex is free, a parked customer has nothing to take |
| `Handoff.ProducedIsDrawn` | 4-Thread/task3.c:21-23 | in every state the i-th value written is `rand() % 100` of the i-th call |
| `Handoff.HeldUpIff` | 4-Thread/task3.c:22-44 | a thread is held up exactly at the mutex, while the other one has it, or in the wait set |
| `Handoff.SpuriousIsHarmless` | 4-Thread/task3.c:39-41 | a spurious wakeup takes the customer out of the wait set; with the mutex free it rechecks and is back in the same state |
| `Handoff.LostIff` | 4-Thread/task3.c:22-25 | a value is lost if and only if the schedule lets the producer write while `data_ready` is set |
| `Handoff.OneRoundLosesNothing` | 4-Thread/task3.c:21-28 | with at most one round no schedule overwrites anything |
| `Handoff.HowItEnds` | 4-Thread/task3.c:21-45 | at rest the producer has finished; the customer has finished if and only if the schedule never overwrites, and then has consumed exactly the random numbers modulo 100, in order; otherwise it is parked, short by the overwritten values |
| `Handoff.OverwriteMeansHang` | 4-Thread/task3.c:35-45 | once a value has been overwritten the customer never finishes |
| `Handoff.OverwriteHappens` | 4-Thread/task3.c:21-28 | a concrete schedule that overwrites the first value: seven producer steps before the customer's first |
| `Handoff.FairRunsEnd` | 4-Thread/task3.c:19-47 | whatever happened before, spurious wakeups included, fair rounds without further ones bring the program to rest: customer finished with everything consumed in order if and only if the schedule never overwrites, otherwise parked |
| `Handoff.FairRunHangs` | 4-Thread/task3.c:19-47 | with two rounds or more there is a whole fair run that ends with the customer parked |
| `Handoff.AlwaysFinishesIff` | 4-Thread/task3.c:19-47 | every fair run finishes the customer if and only if there is at most one round |
| `Handoff.MovesAreBounded` | 4-Thread/task3.c:39-41 | under any schedule with k spurious wakeups at most 26 * rounds + 28 + 3 * k decisions change the state |
| `Handoff.RestInSpiteOfWakeups` | 4-Thread/task3.c:19-47 | with k spurious wakeups anywhere among fair rounds, the program is at rest before some round within 26 * rounds + 29 + 3 * k |
| `Handoff.Program.Produce` | 4-Thread/task3.c:21-29 | one producer step, in place, is the step of the model |
| `Handoff.Program.Consume` | 4-Thread/task3.c:35-45 | one customer step, in place, is the step of the model |
| `ReadersWriters.Exclusion` | 4-Thread/task4.c:43-48 | while a writer is in its section, no other thread is in one |
| `ReadersWriters.ReaderHeldUpIff` | 4-Thread/task4.c:27-27 | a reader at the lock is held up if and only if some writer is in its section |
| `ReadersWriters.WriterHeldUpIff` | 4-Thread/task4.c:43-43 | a writer at the lock is held up if and only if some thread is in its section |
| `ReadersWriters.AllInside` | 4-Thread/task4.c:27-32 | a schedule after which all readers are inside at once |
| `ReadersWriters.StableReads` | 4-Thread/task4.c:27-32 | what a reader reports are the values of the shared variable in the states in which the schedule let it read; in one section all are 0, or all are the writers' bound, according to whether a writer had released before; and there are as many as there should be |
| `ReadersWriters.LateMeansReleased` | 4-Thread/task4.c:27-28 | which of the two it is, is settled at admission: whether some writer had finished by then |
| `ReadersWriters.WriterTurns` | 4-Thread/task4.c:43-48 | in every interleaving the schedule lets a writer store the shared value exactly its bound of times, and in between the value is the number of its stores |
| `ReadersWriters.FairRunsTerminate` | 4-Thread/task4.c:88-130 | every fair run ends with all threads finished and the bound as the shared value |
| `ReadersWriters.Program.WriterEntry` | 4-Thread/task4.c:43-48 | the writer's loop on its own, in place |
| `ReadersWriters.Program.Read` | 4-Thread/task4.c:27-32 | one reader step, in place, is the step of the model |
| `ReadersWriters.Program.Write` | 4-Thread/task4.c:43-48 | one writer step, in place, is the step of the model |
| `Text.ReverseTwice` | 1-GeneralKnowlegde/strutils.c:23-41 | reversing the part before the first NUL (or all but the last character) is its own inverse |
| `Text.ReverseAt` | 1-GeneralKnowlegde/strutils.c:28-38 | for the one t with no NUL before it that is a NUL or the last index, the characters before t come out in opposite order and the rest stays |
| `Text.TrimIs` | 1-GeneralKnowlegde/strutils.c:46-52 | the trimmed text is the one text without outer spaces that lies between spaces |
| `Text.PaddedAt` | 1-GeneralKnowlegde/strutils.c:46-59 | character by character: the text between its first and last character other than a space, then NULs |
| `Text.PaddedSpaces` | 1-GeneralKnowlegde/strutils.c:46-59 | a buffer of spaces becomes one of NULs |
| `Text.TrimIsRightIff` | 1-GeneralKnowlegde/strutils.c:53-59 | the buffer is trimmed right if and only if the 32-bit source index does not start over on text |
| `Text.TrimIsRight` | 1-GeneralKnowlegde/strutils.c:53-59 | buffers of up to 2^31 characters are always trimmed right |
| `Text.TrimGoesWrong` | 1-GeneralKnowlegde/strutils.c:53-59 | a letter after 2^31 spaces is not |
| `Text.PaddedTwice` | 1-GeneralKnowlegde/strutils.c:42-62 | trimming twice is trimming once |
| `Text.TrimThenReverse` | 1-GeneralKnowlegde/main.c:7-10 | trimming and then reversing gives the trimmed text backwards, character by character, filled with NULs |
| `Text.ParsePrinted` | 1-GeneralKnowlegde/strutils.c:64-83 | parsing the decimal notation of any 32-bit number, the smallest included, gives the number |
| `Text.ValueOfBoth` | 1-GeneralKnowlegde/strutils.c:73-79 | a string of digits counts as a decimal number: the front part times a power of ten plus the back part |
| `Text.InvalidIff` | 1-GeneralKnowlegde/strutils.c:69-78 | the text is rejected, with 0x7FFFFFFF, if and only if before its end there is a character outside '0' to '9' that is not a '-' in front |
| `Text.ParsedIsExactIff` | 1-GeneralKnowlegde/strutils.c:69-82 | a text of digits with an optional sign is converted to the number it denotes if and only if that is a signed 32-bit number |
| `Text.ParsedMaxIff` | 1-GeneralKnowlegde/strutils.c:76-78 | the result is INT32_MAX if and only if some character is not a digit, or the number denoted is INT32_MAX modulo 2^32 |
| `Text.ParsedMinusOneIff` | 1-GeneralKnowlegde/strutils.c:64-66 | a buffer that is not empty gives -1 if and only if it denotes -1 modulo 2^32 |
| `Text.MaxTestGoesWrong` | 1-GeneralKnowlegde/main.c:13-17 | the valid text "2147483647" gives the result that the caller reports as a conversion error |
| `StrUtils.SwapCharacter` | 1-GeneralKnowlegde/strutils.c:4-9 | two characters change places, the rest stays |
| `StrUtils.FindTail` | 1-GeneralKnowlegde/strutils.c:28-34 | the first NUL, or the last character when there is none |
| `StrUtils.ReversePrefix` | 1-GeneralKnowlegde/strutils.c:36-38 | the swaps put the character of slot t-1-i into slot i, in place, for every i before t, and leave the rest |
| `StrUtils.StrReverse` | 1-GeneralKnowlegde/strutils.c:23-41 | the whole routine: error code; slot by slot, the part before the NUL (or all but the last character) backwards; untouched rest |
| `StrUtils.ScanSpaces` | 1-GeneralKnowlegde/strutils.c:46-52 | the two scans delimit the text without its outer spaces |
| `StrUtils.CopyForward` | 1-GeneralKnowlegde/strutils.c:54-59 | the overlapping copy, with its 32-bit index, leaves what `Text.TrimResult` says |
| `StrUtils.StrTrim` | 1-GeneralKnowlegde/strutils.c:42-62 | the whole routine: error code, the trimmed text filled up with NULs, slot by slot for buffers of up to 2^31 characters, untouched rest |
| `StrUtils.TrimReverse` | 1-GeneralKnowlegde/main.c:7-10 | the two routines one after the other, in place: the trimmed text backwards, slot by slot |
| `StrUtils.Accumulate` | 1-GeneralKnowlegde/strutils.c:69-79 | the loop stops at NUL, rejects anything else that is not a digit, and yields the decimal value modulo 2^32 |
| `StrUtils.StrToInt` | 1-GeneralKnowlegde/strutils.c:64-83 | the whole routine, and what its result says: -1 if and only if the buffer is invalid or denotes -1 modulo 2^32; INT32_MAX if some character before the end is neither a digit nor a sign in front, and otherwise only for INT32_MAX modulo 2^32; the number itself if and only if it has 32 bits |
| `StrUtils.ParseBack` | 1-GeneralKnowlegde/strutils.c:64-83 | a printed 32-bit number in a buffer is parsed back |

## Left out

- 10-Semaphore/main.c, signal handling and shutdown (120-126, 215-243): a signal can stop a process anywhere, and what follows is up to the kernel; the processes of the model never stop.
- 10-Semaphore/main.c, opening shared memory and semaphores (129-158): only the state they establish when nothing was left over from before.
- Starvation-freedom of chefs and customers: the semaphores give no such guarantee; `RestaurantProgress.WaitCanEnd` says that waiting can end, not that it must.
- `Kitchen.FoodBuffer.Execute`: a structure assignment is one step, which the semaphore makes unobservable; dish names are an enumeration instead of 255-byte strings.
- Log lines: the values they report are part of the state; their order on the terminal is not.
- 8-Pipe/main.c, failing calls (72, 115-117, 175): except for `dup2` on a descriptor that is not open, calls succeed.
- What `ls` and `wc` compute, and the exit statuses the parent logs.
- 4-Thread, thread creation and failing calls: a thread that has not been created yet is one that has not been scheduled yet.
- `ReadersWriters.FairRunsTerminate`: a read lock is granted whenever no writer holds it; a library that lets waiting writers go first delays readers further, which is another schedule, but not one in which the reader's turn always counts.
- `Handoff.FairRunsEnd`: the spurious wakeups end at some point, or are few enough for `Handoff.RestInSpiteOfWakeups`; under endless ones the customer may be woken for ever.
- 6-Socket, 7-Queue, 9-ShareMemory, 5-Signal, 3-Process, 2-FileSystem, 4-Thread/task1.c: short uses of system calls with little state of their own; they would add only easy members.
- CmnBase: formatting of log lines and a table of error names.
