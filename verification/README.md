# EvalX: a verification model in Dafny

EvalX runs submitted programs in Docker containers. Calls compete for semaphore permits and for
containers of a keyed pool, load a program into a container, run it, and share a Redis store of
results and of compiled artifacts. This project models that system and proves what holds in every
state of every run, whatever the interleaving, the failures, the cancellations and the expiry of
cache entries; it proves the loops of the implementation against the same specification; it shows, by
runs, which promises fail, and proves exactly when they hold; and it proves that the text encodings have
inverses.

Check it with `dafny verify dfyconfig.toml`, or with the limit that every proof keeps:
`dafny verify --resource-limit 2000000 --verification-time-limit 0 *.dfy`.

## Layers

1. **The engine, a state machine** (`Engine`, and the proofs in `Custody`, `Invariants`, `Moves`, `Contents`,
   `Reachability`, `Theorems`, `Endings`, `Steady`, `Progress`, `Faults`). A state has the free permits, the pool,
   what every call in flight holds, the files in every container, the store, and one record per call. A call is
   `execute` (`Direct`), `execute` behind the early lookup of `handle_execute` and `execute_parallel` (`Handled`), or
   `execute_batch` (`Batch`). Each phase of a call is one awaited operation; between two moves any other call may
   move, any call may be cancelled, and any entry may vanish. The phases are, in `src/executor.rs`: `Looking` 719-728
   (and `src/controllers/executionControllers.rs` 38-50), `Waiting` 27 and 223, `Admitted` 30-68, 79-81 and 226-306,
   317-319, `Artifact` to `Archiving` 71-76 and 309-314, `Lookup` 112-116 and 340-343, `Writing` 118-139 and 344-365,
   `Running` 141-202 and 367-422, `Storing` 204-208 and 424-428, `Deciding` 434-459, `Sizing` 462, `Filling` and
   `Loading` 465-516 and 638-682, `Chunk` 519-632, `Draining` 634-637, `Finishing` 210 and 686-688. An operation ends
   `Good`, `Soft` (a failure the code handles) or `Hard` (a failure passed on by `?`, which drops the containers
   held). One function gives each phase's move; its contract says what it leaves alone, and the lemmas over runs say
   what it achieves.
2. **The code as it is written** (`Services`, `Compilers`, `ContainerPool`, `Executor`, `Queue`, `Manager`,
   `Controllers`): classes with the fields the code updates, and methods with its loops. A foreign operation fails
   whenever it likes. The ghost field `past` of `Docker` and of `RedisClient` is the history of the one call whose
   operations these are: how many of them have failed and how many of these were passed on by `?`, how many writes of
   a source were late, which lookups hit or missed, and which request was run on which container.
   `Executor.CodeExecutor.Others` stands for everything other calls do: its body does nothing, and its callers know
   only what it may not touch. It is called before every operation of a call, where getting a compiled program ready
   and handing all containers back are taken as one operation each. Other calls may spoil programs, that is, store
   wrong results of them: `bad` are those spoilt when the call is entered, and `foul`, an input too, those that others
   spoil while it is under way. Every result is promised for all programs in neither, whatever else happens. A batch
   may spoil its own program; it then returns `spoilt`, and that has one of the causes in `Outcomes.SpoilCause`, each
   of them an event in its own history. The ghost flag `alone` says that no other call is in flight; what a call
   returns and leaves behind is then stated exactly. `Shares` has the arithmetic of a batch's containers and of its
   runs on them, `Outcomes` what a call may come to. `Interference` closes the circle: in every run of the engine,
   what other calls do between two moves of a call is what `Others` allows.
3. **The queue, a second state machine** (`Lifecycle`): every interleaving of `add_task` with 32 workers for each
   configured pair.
4. **Text** (`Text`, `Keys`, `Shell`): trimming, the colon-joined keys, single quotes and here-documents.
5. **Runs that fail** (`Witness`, `Worlds`, `Failures`): `Witness` puts runs of single calls together, step by step,
   in any world; `Worlds` gives worlds in which all assumptions hold, with programs that are compiled, do not build,
   or run as they are; `Failures` has the runs.

`Platform` holds what is not modelled further: the compiler, the running of programs, the shell, SHA-256 and the
printing of numbers are fixed but unknown functions. `Platform.Fresh` says what a request means on a fresh container
without a cache, `Platform.BatchResult` what a batch means; everything else is proved against these two. `Meaning`
says the same once more, from the fields of the requests, the compiler and the processes alone, and says which
requests can be served at all; nothing that handles a request uses it, it is proved equal, and the contracts of the
operations that clients call are stated with it.

## What is assumed

- `Platform.WorldOk`: SHA-256 and number printing are injective and free of colons; a run reads no file of /app but
  its own program's (if the build has its main file at all); a compiler that is given a source that was written
  completely reads no other file of /app; the shell complains on stderr about an empty command behind a pipe; `gcc -o
  main`, if it succeeds, makes the one file `main`.
- Times are counted in a unit that every f64 is a multiple of, so that they are naturals. A program's running time is
  a function of the program and its input.
- A write that succeeds is complete; one that fails may leave anything in its container. (The code does not wait for
  `echo ... > file` to end; a run that overtakes it is not modelled.)
- Compiled code with a line `EOF` ends the here-document early, for C and C++ as for Java: the shell executes what is
  left, with whatever effect on /app, and then the compiler reads what it finds there. Nothing is assumed of what
  becomes of such code (`Platform.Certain` excludes it where a result is promised).
- A run does not change the files of /app, and nothing outlives it.

## What turned out to be false, and exactly when it is true

- *A batch's Ok result is the map of its runs.* False: `Failures.StaleBatch` is a run of three calls without any
  failure in which a batch returns another program's output, and `Failures.Usurped` is the same in every world, for
  any two programs of one interpreted language that print nothing on stderr: the second result is exactly the other
  program's. `Failures.ExpiredBatch`, and `Failures.Expires` in every world, are the same for a compiled program whose
  artifact has expired. An interpreted batch whose first result is cached keeps its first container unloaded
  (`src/executor.rs` 340-365), and a container whose artifact is not found, or whose source is not written, is kept as
  it is (470-492, 508-513, 643-659, 674-679). When it is true: in every reachable state, whatever is in them, later
  runs on the first container are right if and only if the program is compiled or its first result is not in the cache
  (`Theorems.FirstContainerExactly`), and those on a further one if and only if the program is interpreted or its
  artifact is in the cache (`Theorems.LaterContainerExactly`); where they fail, runs do reach states with wrong files
  in that container (`Failures.FirstReached`, `Failures.LaterReached`). For a whole batch that nobody interferes with:
  `Executor.CodeExecutor.ExecuteBatch` returns what `Outcomes.Yields` says, and by `Outcomes.BatchRightExactly` that
  is the map of the runs, whatever the container has, if and only if the program is compiled, or its first result is
  not cached or not good, or its second result is cached as well. For every program that no batch runs on a container
  kept so, if its code has no line `EOF` where it is compiled and its build is one file, every result of every run is
  right (`Theorems.CacheTransparency`, `Theorems.NotStale`), in particular as long as its artifact does not expire,
  the cache does not fail where artifacts are stored or fetched for a batch, no write to a further container is late,
  and no interpreted batch finds its first result cached (`Steady.SteadyTransparency`). One batch for which it is
  false poisons the cache for its own program, and for no other.
- *The early lookup gives what `execute` would.* It takes 1.0 for an absent timeout, the executor DEFAULT_TIMEOUT.
  `Failures.EarlyLookupExactly`: it does in every run if and only if 1.0 is no more than DEFAULT_TIMEOUT;
  `Failures.EarlyCanFail` is a world in which it does not.
- *An artifact is the program.* Only one file is archived, and the Java handler runs the script for the source after
  it has uploaded the class. `Compilers.HitLoadsExactly`: unpacking readies every container if and only if the build
  is that one file and, for Java, no line of the code is `EOF`; `Failures.CutExecutedTwice` is a run in which the
  second of two executions of such Java code, on the artifact of the first, gives another result.
  `Compilers.ArchiveExactly`: what is archived is the program's if and only if the build has the main file; Java code
  without a class Main archives what an earlier program left there.
- *A program builds as it does on a fresh container.* It does if no line of its code is `EOF`. Otherwise the commands
  behind the here-document may look at what the container has: `Failures.CutBuiltTwice` is a run in which C code,
  executed a second time after its artifact has expired, does not build any more, and `Failures.RebuildsElse` is the
  same in every world whose compiler fails on what these commands leave.
- *Here-documents are read back.* `Shell.ScriptReadsBack`: if and only if no line of the code is `EOF`.
- *A batch reports a failed build.* Only if its first request has stdin: `Theorems.BuildErrorReported` in every run,
  and both ways in `Outcomes.ToldIfAny`, which `Executor.CodeExecutor.ExecuteBatch` ensures. Without stdin the empty
  command is refused, the batch ends by `?`, and its container is lost: `Failures.BuildErrorUnreported` in every
  world, `Failures.UnbuiltBatch` in one. (`execute` always reports it.)
- *Batches do not fault.* `Faults.FaultsExactly`: in every run a batch faults if and only if it went on without a
  container while requests were left. `Faults.FaultsWithoutPermits`: one that got past its first request, read no free
  permit, was not cancelled and met no failure, faults if and only if it has three requests or more. Alone
  (`Executor.CodeExecutor.ExecuteBatch`) it faults if and only if there is one permit, there are three requests or
  more and the first one ends well. `Failures.FaultingBatch` is such a run.
- *Calls finish.* `Progress.Termination` holds with one permit or more; `Progress.DeadlockWithoutPermits`: with none,
  which `min(max, 5)` allows, every call waits for ever.
- *Containers come back.* `Theorems.OkReturnsAll`: every container that a call with an Ok exit ever held is in the
  pool again, or in the hands of another call, or lost by another one. `Endings.HandledReturnsAll`: the same for every
  call that comes to hand its containers back, be it after a failure that the code handles, and is not cancelled then.
  `Theorems.LostWhen` and `Theorems.LostBy`: a container is lost only when the call that holds it ends by `?` or is
  cancelled.
- *Nothing but a failure of its own makes a call fail.* True once it has a container, for a program that can be built
  and has something to run: `Endings.ErrExactly`: in every run it ends with an error if and only if it is cancelled or
  an operation of its own fails for which the code has no other way. No failure of the cache does that, nor anything
  that other calls do.

## Model

| member | source | states |
|---|---|---|
| Text.TrimTwice | src/executor.rs:30-32 | trimmed text has no white space at either end, and trimming it again changes nothing, so queue, pool and cache keys of one request agree |
| Text.TrimExactly | src/executor.rs:30-32 | a text is white space, its trimmed text, and white space again; of the texts without white space at either end only that one reads so |
| Platform.BatchResult | src/executor.rs:434-459 | the meaning of a batch has exactly one result per request, also when it is cut short by a failing first request |
| Platform.PoolKeyUnique | src/setup.rs:35-43 | a text pair whose joined key is a configured pool key is that configured pair, and is free of colons |
| Meaning.AnswersExactly | src/executor.rs:141-202 | what is wanted of a request is, and is only, its answer: stdout, stderr (absent if and only if it is empty) and exit code of the process that its trimmed program is, run on its stdin, or Time Limit Exceeded and 124 if that takes longer than its own timeout, or else the default one; for a rejected build the compiler's stderr on both streams and exit code 1 |
| Meaning.ExpectedExactly | src/executor.rs:434-632 | what is wanted of a batch are the answers of the first request's program to the stdin of each request, in order, or placeholders after a first answer that does not exit with 0 |
| Meaning.SupportedExactly | src/executor.rs:231-276 | the requests that are gone on with are those of the seven languages, and the batches of a compiled language, or of python or javascript with no later request that names another language or version |
| Outcomes.FeasibleExactly | src/executor.rs:71-110 | what can keep a request, or a batch, from its results, apart from failures: an unsupported request, an empty stack, code with a line EOF, a build without a main file, or a build that failed where there is no stdin |
| Keys.ResultKeyUnique | src/executor.rs:103-110 | a key written for a colon-free language and version equals the key of a lookup with arbitrary raw texts only if language, version, limit, code and stdin all agree; absent stdin is not empty stdin |
| Keys.ArtifactKeyUnique | src/executor.rs:69-70 | the same for artifact keys |
| Keys.KeysApart | src/executor.rs:331-338 | a result key is never an artifact key |
| Store.OutputIsWanted | src/executor.rs:141-202 | a run on a container that has the program shows what a fresh run shows; after a failed build it shows something on stderr |
| Store.FreshMonotone | src/controllers/executionControllers.rs:38-50 | a result without stderr is the result for every longer limit too |
| Store.HitIsWanted | src/executor.rs:112-116 | what a lookup finds under the key of a request was stored for that very request |
| Store.ArtifactHitIsOurs | src/compilers/artifact_handlers.rs:21-22 | an artifact found under the key of a program was stored for that program; if its code has no line EOF, the program builds and the artifact is the main file of that build, if it has one |
| Store.UnpackLoads | src/compilers/artifact_handlers.rs:89-115 | unpacking the artifact of a one-file build makes any container ready, whatever was in it, if the Java script does nothing but write the source |
| Store.ResultGood | src/executor.rs:204-208 | storing a run without stderr under its key keeps every entry of the store right, so a timeout is never stored |
| Store.ArtifactGood | src/compilers/compilers.rs:40-41 | storing the main file of a build, of however many files, under the program's key keeps every entry right |
| Services.Docker.Create | src/container_management/container_pool.rs:27-64 | a container no one has seen before, or none |
| Services.Docker.Upload | src/compilers/artifact_handlers.rs:24-36 | one file of one container is set, or a failure is counted and passed on, and anything may be left there |
| Services.Docker.Echo | src/executor.rs:118-139 | one file of one container is set by the shell; not created, not started in time and done are told apart and counted, and unless it is done anything may be left there |
| Services.Docker.WriteSource | src/compilers/compilers.rs:19-33 | the source file holds what the here-document leaves, and the commands behind it have run; or a failure is passed on |
| Services.Docker.Compile | src/compilers/compilers.rs:35-39 | the compiler is run on the files that the container has then, whatever the script has left there, and that is counted; its output is added to the container on success only, and the other containers stay |
| Services.Docker.Fetch | src/executor.rs:745-759 | a fetched file is the container's and not empty; without a failure only a missing or empty file is not fetched |
| Services.Docker.Exec | src/executor.rs:153-202 | unless the engine fails, what the program does with the container's files within the limit, or a refusal of an empty command; the run is added to the history with its request and its container |
| Services.RedisClient.GetFromCache | src/caching/redis_client.rs:20-27 | a hit is the stored result, a miss means there is no entry; without a failure the answer is exactly what is stored; a hit for a first request is counted |
| Services.RedisClient.SetInCache | src/caching/redis_client.rs:29-34 | the entry is overwritten and the others stay, or a failure is counted and nothing changes |
| Services.RedisClient.GetArtifact | src/caching/redis_client.rs:48-55 | a hit is the stored artifact, a miss means there is no entry; an artifact not found for a further container is counted |
| Services.RedisClient.SetArtifact | src/caching/redis_client.rs:57-66 | the entry is overwritten and the others stay, or nothing changes |
| Compilers.HitLoadsExactly | src/compilers/artifact_handlers.rs:89-115 | unpacking the artifact readies every container, whatever a shell makes of commands, if and only if the build is the one file kept and, for Java, no line of the code ends the here-document |
| Compilers.ArchiveExactly | src/compilers/compilers.rs:118-131 | what is archived after a successful build belongs to it, whatever was left in the container and whatever a shell makes of commands, if and only if the build has the main file |
| Compilers.CompileProgram | src/compilers/compilers.rs:9-48 | after success the container has the program, if its code has no line EOF, and, unless the cache fails, the store its artifact; a failed build stores nothing; only the artifact's entry changes; an error needs a failure, a build without a main file, or a line EOF, and every failure is passed on |
| Compilers.Archive | src/compilers/compilers.rs:40-45 | the main file of the build is in the store unless the cache fails, and every entry stays right |
| Compilers.Unpack | src/compilers/artifact_handlers.rs:89-115 | the container has its old files with the artifact on top and, for Java, what the script for the source, and the commands behind its here-document, make of them; no other container changes |
| Compilers.HandleArtifact | src/compilers/artifact_handlers.rs:12-44 | hit, miss and cache error give the same run command and, for a program that is one file and has no line EOF, the same program in the container; unless the cache fails they leave the artifact in it, and one that is there before is unpacked and nothing compiled; an error needs a failure, a build without a main file, or a line EOF |
| Custody.Conserved | src/container_management/container_pool.rs:66-95 | pool, hands of calls and lost containers partition all containers |
| Custody.HeldOnce | src/container_management/container_pool.rs:66-78 | a container in the hands of two calls is in the hands of one |
| Custody.PopPlaced | src/container_management/container_pool.rs:66-78 | taking a container keeps every container in exactly one place |
| Custody.PushPlaced | src/container_management/container_pool.rs:80-95 | returning one keeps every container in exactly one place, under its own key |
| Custody.AbandonPlaced | src/executor.rs:631-631 | dropping containers on an error exit keeps every container in exactly one place |
| Custody.SizeBounded | src/executor.rs:462-462 | a batch that reads the permits gets a share bounded by its rank among the batches in flight |
| Custody.LeaveBounded | src/executor.rs:691-691 | the ranks and their bounds survive a call that leaves, in any order |
| Custody.QuadraticBound | src/executor.rs:462-516 | with n permits the calls in flight hold at most n(n-1)/2 + 1 containers |
| Reachability.RunKeeps | src/executor.rs:22-692 | every state of every run satisfies the invariant: custody, phases, loaded programs, results and store |
| Theorems.CacheTransparency | src/executor.rs:103-210 | an Ok result of any call equals that of fresh runs without a cache, that is, the answers to its requests, each in its place, for every program whose build is one file, whose code, if compiled, has no line EOF, and that was not run on an unloaded container |
| Theorems.ExecuteTransparency | src/executor.rs:22-212 | as long as no call is a batch, every Ok result of `execute`, direct or behind the early lookup, is the answer to its request, for every program whose build is one file and whose code, if compiled, has no line EOF |
| Theorems.OneResultEach | src/executor.rs:448-457 | an Ok exit has exactly one result for every request, in every case |
| Theorems.NotStale | src/executor.rs:340-365 | a program that no batch kept a container unloaded for is not stale, in any run |
| Theorems.FirstContainerExactly | src/executor.rs:340-365 | in every reachable state in which a batch looks its first result up: later runs on its first container are right, whatever files the invariant allows there, if and only if the program is compiled or its first result is not in the cache; runs that reach wrong files are in `Failures.FirstReached` |
| Theorems.LaterContainerExactly | src/executor.rs:469-513 | in every reachable state in which a batch loads a further container: runs there after a loading without failure are right, whatever files the invariant allows there, if and only if the program is interpreted or its artifact is in the cache; runs that reach wrong files are in `Failures.LaterReached` |
| Theorems.BuildErrorReported | src/executor.rs:367-447 | in every run, a batch of a program that is not spoilt, with an Ok exit, whose build failed had stdin for its first request, and reports the build error and placeholders |
| Theorems.StoredIsGenuine | src/executor.rs:204-208 | every stored result is a run, on some files, of a configured pair, without stderr and within the limit its key names; for a clean program it is the fresh run |
| Theorems.StoredArtifact | src/compilers/compilers.rs:40-41 | every stored artifact was stored for the code its key names; if that has no line EOF it is the main file of its build, if the build has one |
| Theorems.LoadedUnderInterference | src/executor.rs:525-528 | every container a chunk runs on has the program, whatever other calls loaded into it while it was in the pool, unless the batch itself kept one unloaded |
| Theorems.Conservation | src/container_management/container_pool.rs:66-95 | in every reachable state all containers are the disjoint union of pool, held and lost, each once |
| Theorems.Exclusivity | src/container_management/container_pool.rs:66-78 | in every reachable state no container is held by two calls |
| Theorems.HomeKeys | src/container_management/container_pool.rs:80-92 | pooled and held containers were made for the pair they are under, and no pool is made after start-up |
| Theorems.ContainerBound | src/container_management/init.rs:98-98 | the quadratic bound in every reachable state, 11 with at most five permits, and the bound of each batch by its rank |
| Theorems.LostWhen | src/executor.rs:631-637 | one step loses containers only by an error end or a cancellation, and then exactly those the call holds |
| Theorems.LostBy | src/executor.rs:153-157 | in every run, a lost container was held by a call that has ended with an error |
| Theorems.OkReturnsAll | src/executor.rs:686-691 | in every run, each container that a call with an Ok exit ever held is back in the pool, or held, or lost, by another call |
| Endings.ErrExactly | src/executor.rs:81-212 | in every run, a call that has obtained a container, and whose program can be built and has something to run, ends with an error if and only if it is cancelled or an operation of its own fails that the code cannot do without, whatever other calls do |
| Endings.UnharmedEndsWell | src/executor.rs:81-212 | so one that none of this happens to ends Ok, but for a batch of three or more that faults |
| Endings.HandledReturnsAll | src/executor.rs:126-134 | in every run, of a call that comes to hand its containers back, with results or after a failure that the code handles, and is not cancelled then, each container it ever held is back in the pool, or held, or lost, by another call |
| Endings.LosesExactly | src/executor.rs:126-174 | a step loses containers if and only if the call is cancelled, passes a failure on, finds no main file, is refused its first run, or joins a chunk with a broken request, and then all that it holds |
| Endings.TriesAll | src/executor.rs:468-516 | in every run, while a batch fills its hands, the containers in hand, the attempts left, and the attempts for which there was none, add up to the same |
| Endings.SizesTries | src/executor.rs:462-469 | before the first chunk they add up to max_parallel, or 1 if that is 0 |
| Endings.DrainsTries | src/executor.rs:634-655 | before any other the batch holds nothing and they add up to max_parallel |
| Endings.RefusedErrs | src/executor.rs:231-276 | in every run, a call whose language is not supported, or a batch of an interpreted language with a later request of another language or version, never has a container and ends with an error |
| Interference.OthersMove | src/executor.rs:22-692 | in every run, whatever happens between two moves of a call leaves it, its containers and their files as they were, and all else as `Executor.CodeExecutor.Others` promises: every result stored of a program not spoilt by then is right, and the pool is in order |
| Progress.HolderMoves | src/executor.rs:27-27 | a call with a permit never waits for another permit: its next move is always possible |
| Progress.NoDeadlock | src/executor.rs:27-27 | with at least one permit some call can move if and only if not all are done |
| Progress.DeadlockWithoutPermits | src/container_management/init.rs:98-98 | without permits a waiting call never moves |
| Progress.StepWorks | src/executor.rs:521-684 | every move and cancellation lowers a natural number, and an eviction leaves it |
| Progress.Termination | src/executor.rs:521-684 | after the last call has come in, the number of moves is bounded by the work then left |
| Progress.EndsFree | src/executor.rs:691-691 | a run in which nothing can move any more has all calls done, all permits free and no container held |
| Faults.FaultsOnlyIf | src/executor.rs:462-528 | in every reachable state a batch that has faulted has three requests or more, and one with three or more that read no free permit has no Ok result |
| Faults.FaultsExactly | src/executor.rs:519-528 | in every run a batch ends in a fault if and only if at some earlier point it moved on with requests left and no container |
| Faults.FaultsWithoutPermits | src/executor.rs:462-528 | in every run, a batch past its first request that read no free permit, met no failure and was not cancelled, ends in a fault if and only if it has three requests or more |
| Shell.WrappedReadsBack | src/executor.rs:122-122 | a quote-wrapped text is read as one word, the text itself, and reading stops behind it (sections 2.2.1 and 2.2.2 of the Shell Command Language) |
| Shell.WriteCommandReadsBack | src/executor.rs:122-122 | the whole write command is read as echo, the code, a redirection and the file name |
| Shell.PipeCommandReadsBack | src/executor.rs:149-149 | the whole run command is read as echo -n, the stdin text, a pipe, and the words of the command |
| Shell.DocumentComplete | src/compilers/compilers.rs:22-22 | code without a delimiter line is read back with a newline (section 2.7.4) |
| Shell.DocumentCut | src/compilers/compilers.rs:22-22 | code with a delimiter line is not |
| Shell.ScriptReadsBack | src/compilers/compilers.rs:19-23 | the generated script writes exactly the code and a newline if and only if no line of the code is EOF |
| ContainerPool.LastInFirstOut | src/container_management/container_pool.rs:66-95 | what is returned last is taken first, and the rest of the pool is as before |
| ContainerPool.PairsSeparate | src/setup.rs:35-43 | the configured pairs have distinct pool keys |
| ContainerPool.StartupKeys | src/setup.rs:35-43 | the stacks made at start-up are those of python:3.9, pypy:3.9, java:java-slim-executor, java11:11, c:11, cpp:11 and javascript:18 |
| ContainerPool.StartsEngine | src/setup.rs:46-46 | the pool that start-up fills, with its empty containers, is one that the state machine starts from |
| ContainerPool.ContainerPool.CreateIdle | src/container_management/container_pool.rs:13-17 | as many new, distinct, empty containers as were asked for, less one for each failure of the engine in this call |
| ContainerPool.ContainerPool.AddPair | src/container_management/container_pool.rs:9-19 | a new key with its containers joins, as many as asked for less the failures of the engine; the other stacks stay |
| ContainerPool.ContainerPool.InitContainerPool | src/container_management/container_pool.rs:8-25 | every container made is in the pool once, empty, under its own key; all the stacks together are short by exactly the failures of the engine |
| ContainerPool.ContainerPool.GetContainer | src/container_management/container_pool.rs:66-78 | the top of the stack, if there is one, and the pool without it |
| ContainerPool.ContainerPool.ReturnContainer | src/container_management/container_pool.rs:80-95 | the container is on top of its stack |
| ContainerPool.ContainerPool.AvailableContainers | src/container_management/container_pool.rs:111-115 | the height of the stack, 0 without one |
| Shares.HandsTurn | src/executor.rs:634-663 | handing a share back and taking as many turns its order round |
| Shares.AdmittedShare | src/queue_management/manager.rs:41-52 | with a container for every request the share is max_parallel |
| Outcomes.RefusedIsUndoable | src/executor.rs:380-383 | a command is refused only for a build that failed, so a request that is refused is one of a program that cannot be done |
| Shares.UndisturbedReturns | src/executor.rs:634-688 | a batch alone that ends well leaves its stack a rearrangement of what it was, and the others as they were |
| Shares.UndisturbedEven | src/executor.rs:634-688 | after an even number of chunks the pool is exactly as before |
| Shares.UndisturbedApart | src/executor.rs:523-528 | in a batch alone, runs of two requests of one chunk are on different containers, and all runs after the first request are on the same top of the stack; which request ran where is read from the runs the engine was asked for |
| Outcomes.BatchRightExactly | src/executor.rs:340-428 | whatever its first container has, an undisturbed batch returns the map of its runs if and only if its program is compiled, or its first result is not cached or not good, or its second is cached as well |
| Outcomes.SkipsWrong | src/executor.rs:340-428 | if that condition fails there are files of the first container with which every result that such a batch can return is wrong |
| Outcomes.EndsWellExactly | src/executor.rs:434-459 | a batch of a clean program goes on after its first request if and only if its program builds and a fresh run of that request exits with 0 |
| Executor.CodeExecutor.Others | src/executor.rs:22-692 | other calls may change anything but the containers held by this one and what it has met, and spoil no program that is not in `bad`; permits are free or some call's throughout; alone, nothing changes |
| Executor.CodeExecutor.Acquire | src/executor.rs:27-27 | other calls act until there is a permit, if need be one that another call frees, and this call has it then: every permit is free or some call's; alone, nothing else changes |
| Executor.CodeExecutor.Cached | src/executor.rs:112-116 | a cached result is what a fresh run gives; unless the cache fails it is found exactly if it is stored |
| Executor.CodeExecutor.RunOnce | src/executor.rs:141-202 | a run gives what the files of its container show: on one that has the program what a fresh run gives, on one kept unloaded anything, which spoils the program and nothing else does; it is refused only as an empty command without stdin |
| Executor.CodeExecutor.Keep | src/executor.rs:204-208 | a result is stored under its own key exactly if it has no stderr and the cache does not fail; every entry stays right, and artifacts stay |
| Executor.CodeExecutor.Prepare | src/executor.rs:65-88 | the container is ready for a compiled program whose build was good, and only the artifact's entry of the store changes; an error needs a failure or a build that cannot be used |
| Executor.CodeExecutor.Try | src/executor.rs:118-208 | write, run and store of a first request, with other calls before each: the fresh result for every program not in `bad`, or a failure that hands the container back exactly if none was passed on; at most one run, on this container; alone, the result is in the cache exactly if it has no stderr and that does not fail |
| Executor.CodeExecutor.Answer | src/executor.rs:340-430 | the first result is the fresh one for every program not in `bad`; the container is left unloaded exactly if an interpreted program found its result in the cache; a failed attempt hands the container back exactly if no failure was passed on; alone, the result is the cached one if there is one, and in the cache afterwards if it has no stderr |
| Executor.CodeExecutor.Respond | src/executor.rs:71-210 | an Ok outcome is the fresh result, for every program not in `bad`, and always hands the container back; an error needs a failure of its own or a program that cannot be done, and hands the container back exactly if no failure was passed on, for a program that can be done |
| Executor.CodeExecutor.ExecuteHolding | src/executor.rs:30-212 | the same with the container taken and returned; a request that is not supported is an error; alone, the pool is as it was unless a failure was passed on by `?`, and then the one container is missing |
| Executor.CodeExecutor.Execute | src/executor.rs:22-212 | whatever others do between its operations, an Ok result is the answer to the request for every program neither spoilt before nor by others meanwhile, a language that is not supported is an error, and the permit is given back; alone, the permits are as before, the pool lacks the container exactly if a failure was passed on, a result without stderr is in the cache unless that fails, a result that was in it is returned and nothing run, an artifact that was in it is used and nothing compiled, and an error needs a failure, an unsupported language, an empty stack, or a program that cannot be done |
| Executor.CodeExecutor.CachedEarly | src/executor.rs:710-720 | a hit of the early lookup is the stored result under the raw fields and 1.0, has no stderr, and is the answer to the request for a patient lookup; unless the cache fails it is found exactly if it is stored |
| Executor.CodeExecutor.AnswerEarly | src/executor.rs:719-738 | one request of execute_parallel gets its answer, for every program not in `bad`, or an error result with exit code 1; unless the cache fails, a result stored under the early key is returned as it is; alone an error needs the reasons `execute` has |
| Executor.CodeExecutor.ExecuteParallel | src/executor.rs:705-743 | one such answer for every request in order, whatever other calls or the other requests do in between, for every program neither spoilt before nor by others meanwhile; if they come one after the other, the answer of each if all can be served and the engine does not fail, and no error for a request whose result is stored from the start if the cache does not fail |
| Executor.CodeExecutor.LoadExtra | src/executor.rs:470-513 | a further container has the program unless it was kept as it is, which happens exactly if the artifact was not found for it or the write of the source was late; without failures only if there is no artifact |
| Executor.CodeExecutor.TakeOne | src/executor.rs:469-469 | the top of the stack is taken and no other stack changes |
| Executor.CodeExecutor.AddOne | src/executor.rs:469-493 | one more container, loaded, if there is one; it is counted as kept unloaded exactly if its artifact was not found or its write late |
| Executor.CodeExecutor.Fill | src/executor.rs:465-516 | up to `count` more containers, all loaded unless kept, and none is kept if every artifact was found and no write late; alone, exactly the topmost ones in the order of taking |
| Executor.CodeExecutor.Drain | src/executor.rs:635-637 | all containers lie on the stack in their order |
| Executor.CodeExecutor.Advance | src/executor.rs:553-626 | one request of a chunk is looked up, or run, or its result stored; what it then holds is what some run showed, and the fresh result unless the program is spoilt, here exactly by a run on a container kept unloaded |
| Executor.CodeExecutor.RunSlots | src/executor.rs:521-632 | the requests of a chunk move in any order, with other calls in between, until each has a result or an error; each runs at most once and on its container, and they spoil the program only if some container was kept unloaded |
| Executor.CodeExecutor.RunChunk | src/executor.rs:521-632 | the requests of a chunk run at once, in any interleaving and with other calls in between: the fresh result of each in order, unless the chunk has spoilt the program, which takes a container kept unloaded; each runs at most once, and on `containers[i % len]`; alone and without cache failures, the program stays unspoilt if all that would run on such a container is cached, and a first request not in the cache has what its container shows |
| Executor.CodeExecutor.RunMore | src/executor.rs:521-632 | the results so far grow by a whole chunk, and stay the fresh ones unless the program is spoilt |
| Executor.CodeExecutor.Renew | src/executor.rs:634-683 | whatever others did to the containers in between, the batch has at most max_parallel loaded ones again, and keeps one unloaded only if an artifact was not found or a write late; alone, the same ones turned round, or, if max_parallel is 0, none and the pool as before the batch |
| Executor.CodeExecutor.Round | src/executor.rs:521-684 | one turn of the loop keeps all of this; its runs spoil the program only if a container was kept unloaded, and each is on the container that the log has for it |
| Executor.CodeExecutor.Chunks | src/executor.rs:519-691 | the loop gives the map of fresh runs for every program not in `bad`, unless it spoils that itself, for one of the causes; each request runs at most once, on the container the log has for it; alone, its chunks are the remaining requests, it faults only with max_parallel 0 and three requests and then never ends well, it hands its share back, and its second result is exactly what the first container shows if that request was not cached |
| Executor.CodeExecutor.Conclude | src/executor.rs:686-691 | all results are there, and all containers are on their stack |
| Executor.CodeExecutor.Extend | src/executor.rs:461-516 | the first containers of the batch, at most max_parallel and at least the one it has, loaded or kept, the latter only if an artifact was not found or a write late; alone, exactly its share of the stack, in order |
| Executor.CodeExecutor.FirstOf | src/executor.rs:309-430 | build and first request of a batch: the fresh result for every program not in `bad`, or an error that needs a failure or a program that cannot be done; its container is left unloaded exactly if an interpreted program found its result in the cache |
| Executor.CodeExecutor.Begin | src/executor.rs:309-430 | the first request of a batch: the fresh result with the container still held, or an error |
| Executor.CodeExecutor.BatchRest | src/executor.rs:461-691 | everything after a first request that went well; alone, it faults if and only if it starves |
| Executor.CodeExecutor.BatchWith | src/executor.rs:309-691 | a batch with its first container; cut short if the first request fails; the first result is right even if the batch spoils its program, which has one of the named causes; alone, when it faults and what a failed build comes to, both ways |
| Executor.CodeExecutor.BatchHolding | src/executor.rs:226-691 | a batch with its permit: the same, which container ran which request, and, alone, an error without a failure means that the request is not feasible |
| Executor.CodeExecutor.ExecuteBatch | src/executor.rs:214-692 | an Ok result has the answers to the requests, the k-th to the stdin of `requests[k]`, or placeholders after a first that does not exit with 0, whatever others do between any two operations, for every program neither spoilt before nor by others meanwhile, unless the batch itself has spoilt it, and even then its first result is right; it has done so only if it found the first result of an interpreted program in the cache, did not find an artifact for a further container, or was late writing a source; every request runs at most once and on the container its log has for it; a batch that is not supported is an error; alone, an error needs a failure or requests that cannot be served, and then loses containers unless it is a failure of the first request that is not passed on; otherwise permits and pool come back as `Undisturbed` says, after a fault exactly as before; a fault happens if and only if there is one permit, there are three requests and the first ends well, a failed build is reported if and only if the first request has stdin, an artifact in the cache is used and nothing compiled, and without failures the results are exactly what `Yields` says |
| Queue.ExecutionQueue.constructor | src/queue_management/mod.rs:19-24 | no queues |
| Queue.ExecutionQueue.Enqueue | src/queue_management/mod.rs:26-32 | the id waits under its key with its priority, and nothing else changes |
| Queue.ExecutionQueue.TryDequeue | src/queue_management/mod.rs:34-46 | some id of the highest priority is taken if and only if one waits |
| Queue.ExecutionQueue.Remove | src/queue_management/mod.rs:48-54 | the id no longer waits under the key, and no other queue changes |
| Manager.AdmittedBatch | src/queue_management/manager.rs:41-52 | a batch admitted at once that can read a free permit never faults, each chunk but the last has exactly max_parallel containers, and no two requests of a chunk run on one of them, as read from the runs the engine was asked for |
| Manager.AdmitsExactly | src/queue_management/manager.rs:41-52 | as many containers can be taken one after the other as a task needs, one for a single execution and else one for each request, if and only if the stack of its pair has that many |
| Manager.QueueManager.constructor | src/queue_management/manager.rs:22-28 | no tasks |
| Manager.QueueManager.Perform | src/queue_management/manager.rs:54-70 | whatever other calls do in between, an Ok outcome has the answers the kind of execution asks for, for every program neither spoilt before nor by others meanwhile nor, by a batch and for one of the named causes, by itself; only a batch of three or more faults, a parallel execution is always Ok, and requests that are not supported are errors; alone and without a failure of the engine, a single execution that can be served is Ok, and a batch is Ok or, if and only if there is one permit, it has three requests and its first ends well, a fault |
| Manager.QueueManager.AddTask | src/queue_management/manager.rs:30-89 | executed at once, as above, if and only if so many containers can be taken under the trimmed pair of the first request, one for a single execution and else one for each request; otherwise in the map and in the queue of that pair with its priority; an empty request list is an error |
| Manager.QueueManager.ProcessNext | src/queue_management/manager.rs:91-138 | an id of the highest priority is taken, executed as above, and removed from the map if and only if the execution ends well; an unknown id is an error |
| Controllers.HandleExecute | src/controllers/executionControllers.rs:18-83 | unless the cache fails, a result stored under the early key is returned as it is; a result returned at once is the answer to the request, for every program neither spoilt before nor by others meanwhile; without a free container, and without such a result, the request goes to the queue of its pair with priority 1 and the list is empty; there is no fault; alone, an error needs a failure of the engine or a request that cannot be served |
| Lifecycle.CourseFits | src/queue_management/manager.rs:71-133 | every reachable state keeps each id in exactly one place |
| Lifecycle.Partition | src/queue_management/manager.rs:80-85 | the task map is the disjoint union of ids being added, waiting, in a worker's hands, failed and orphaned; finished ones are gone |
| Lifecycle.OneHolder | src/queue_management/mod.rs:34-46 | no two workers have the same id |
| Lifecycle.HighestFirst | src/queue_management/mod.rs:36-54 | in every course, a task that waits for the pair of a worker and is not taken has no higher priority than the one the worker takes |
| Lifecycle.OwnPlace | src/queue_management/manager.rs:80-85 | in every course, what waits is in the task map and in the queue of its own pair, with the priority it came with |
| Lifecycle.AtMostOnce | src/queue_management/manager.rs:91-97 | every id is dequeued at most once and executed at most once, and a finished or failed one was executed |
| Lifecycle.AlwaysFound | src/queue_management/manager.rs:130-133 | the branch "Task not found" is never taken |
| Lifecycle.OwnPairOnly | src/queue_management/manager.rs:140-157 | a worker takes and executes only ids whose trimmed language and version are its configured pair |
| Lifecycle.LeftBehind | src/queue_management/manager.rs:103-127 | an id whose execution failed, or whose add_task was dropped halfway, stays in the map for ever |
| Steady.NeverStale | src/executor.rs:469-513 | in every run in which the artifact of p does not expire, the cache does not fail on it for a batch of p, no write to a further container is late and no interpreted batch of p finds its first result, p is not stale, if its code, compiled, has no line EOF |
| Steady.SteadyTransparency | src/executor.rs:214-692 | in every such run every Ok result of every call for p has the answers to its requests, each in its place, whatever happens to other programs, if the build of p is one file and its code, if compiled, has no line EOF |
| Failures.EarlyLookupExactly | src/executor.rs:710-720 | in every world with a container and a program that runs between the two limits, if there is room between them: every early answer of every run is what `execute` gives if and only if 1.0 is no more than DEFAULT_TIMEOUT |
| Failures.EarlyAnswer | src/controllers/executionControllers.rs:38-50 | in every world, a run in which the early lookup returns the result of the longer limit |
| Failures.EarlyCanFail | src/controllers/executionControllers.rs:38-50 | a world that meets all assumptions and in which an early answer is wrong |
| Failures.Usurped | src/executor.rs:340-365 | in every world, executing p, then q of the same language, then a batch of p twice returns for the second request the result of q |
| Failures.FirstReached | src/executor.rs:340-365 | in every world with two programs of one interpreted language that differ in what they show, a run without failures reaches a state in which a batch looks its first result up and its first container has files that make its second run wrong |
| Failures.StaleBatch | src/executor.rs:340-365 | a concrete run without failures whose batch returns another program's output |
| Failures.Starves | src/executor.rs:519-528 | in every world with one permit, a batch of three or more whose first request succeeds ends in a fault |
| Failures.FaultingBatch | src/executor.rs:519-528 | a concrete run without failures that ends in such a fault |
| Failures.BuildErrorUnreported | src/executor.rs:367-430 | in every world, a batch that does not build, without stdin, ends with an error and its container is lost |
| Failures.UnbuiltBatch | src/executor.rs:367-430 | that in a concrete world, where the build error should have been reported |
| Failures.Expires | src/executor.rs:469-492 | in every world, if the artifact expires before the second container is taken, the third result of a compiled batch is what its program shows on whatever that container has |
| Failures.LaterReached | src/executor.rs:469-492 | in every world, if the program does not run right on what its second container has, a run that fails in nothing reaches a state in which a batch loads that container, its artifact having expired, with files that make the run there wrong |
| Failures.ExpiredBatch | src/executor.rs:469-492 | a concrete run, failing in nothing, in which that result is wrong |
| Failures.RunsReloaded | src/compilers/artifact_handlers.rs:105-114 | in every world, the second execution of a compiled program runs on what the unpacked artifact, and the commands behind its here-document, left |
| Failures.CutExecutedTwice | src/compilers/artifact_handlers.rs:105-114 | a concrete run of Java code with a line EOF whose second result, on the artifact, differs from the fresh one |
| Failures.RebuildsElse | src/compilers/compilers.rs:19-39 | in every world, if the compiler rejects what the second execution of the script leaves in the container, and the artifact has expired, the second execution of a program that built at first returns that compile error |
| Failures.CutBuiltTwice | src/compilers/compilers.rs:19-39 | a concrete run, failing in nothing, of C code with a line EOF that does not build the second time |
| Witness.Solo | src/executor.rs:118-208 | from any state at rest, `execute` alone leaves its program in the container and its result in the cache |
| Worlds.WorldIsOk | src/executor.rs:103-110 | the assumptions on the surroundings can be met, with programs that build and programs that do not |

## Left out

- Compilers.HandleArtifact: its operations happen without other calls in between; all but a first get and a last set of the cache work on the call's own container.
- Executor.CodeExecutor.Drain: hands all containers back at once; in the engine other calls move between any two.
- Executor.CodeExecutor.Acquire: takes for granted that some call frees its permit while this one waits, and that there are permits at all; that one does, and what happens when there are none, is proved in `Progress`.
- Executor.CodeExecutor.ExecuteParallel: takes the requests one after the other; each of them meets whatever the others may do, but the limit of four at a time is not stated.
- Executor.CodeExecutor.ExecuteBatch: with other calls in flight nothing is said of how the pool is left, nor when there is an error, which depends on those too; for every interleaving that is in the engine (`Theorems`, `Endings`, `Faults`).
- Executor.CodeExecutor.Execute: the same.
- Theorems.FirstContainerExactly: its only-if half is about every content that the invariant allows; that such contents are reached is shown for two programs that differ (`Failures.FirstReached`).
- Theorems.LaterContainerExactly: the same, with `Failures.LaterReached`.
- Manager.QueueManager.AddTask: other calls act on the executor, but not on the map of tasks and the queues; those interleavings are in `Lifecycle`.
- Manager.QueueManager.ProcessNext: starts when something waits; the retry loop around the wake-up is the choice of the next move in `Lifecycle`.
- Outcomes.BatchRightExactly: for batches in which no later request repeats the stdin of the second, and of the first two results; a repeated request may get the stored result instead.
- Services.Docker.Create: a container that is created but cannot be started is not tracked.
- Compilers.CompileProgram: one method for the three compilers, which differ in command and file names.
- Shell.WrappedReadsBack: stops at the shell word; what `echo` makes of backslashes is part of running the program.
- The texts of error messages: an error result of `execute_parallel` has some text on both streams.
- compile_time, run_time and space_consumed: they vary, and results are compared on what the program prints and its exit code.
- A failed build with nothing on stderr: modelled as the code treats it, that is, as if there were something to run.
- pypy: its run command is a literal format string; `execute` is modelled for it as for any language, batches reject it.
- Negative and huge timeouts, for which Duration::from_secs_f64 panics, and `parse_memory_limit`: not part of this model.
- Redis expiry times: any entry may vanish at any time instead.
- The order in which waiting calls get permits, and the limit of four concurrent batch requests: any order, any number.
- Completion notifications, `CodeExecutor.task_queue` and queue wake-ups: nothing in the repository sends "completed", and one notification serves all keys, so no delivery and no liveness of the queue is claimed.
- Docker stats, logging, WebSockets, routing, `cleanup`, `remove_container` and request validation: they touch none of the state above; the 60 s limit on batches is the cancellation of a call.
