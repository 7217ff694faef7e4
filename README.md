# baloon test fixture, modelled in Dafny

baloon is a Go library for end-to-end tests of HTTP APIs. A `Fixture` runs
database setup scripts, builds the application under test with `go build`,
starts it, and waits until a given line appears on its standard output or
standard error. After the tests it kills the program, deletes the binary and
runs the database teardown scripts. `TestSetup` and `TestTeardown` run
per-test routines: each routine is a list of databases to script, plus an
optional callback. `NewFixture` validates the configuration first.

This project models that core and proves properties of the model:

- `wrappers.dfy`: `Option`, `Result` and `Outcome`. A Go `error` is an
  `Outcome<string>`, where `Pass` is `nil` and `Fail` carries the error's text.
- `types.dfy`: the configuration records (`Script`, `DBConn`, `DB`, `App`,
  `FixtureConfig`, `UnitTest`) and `NewScript`/`NewScriptPath`. It also
  defines `Event`, one entry of the log of what the fixture did to the world:
  - a database command sent;
  - a temporary file created;
  - a build;
  - a start;
  - a kill;
  - a file removed;
  - a per-test callback.
- `config.dfy`: `NewFixture`'s guards and timeout normalisation, as the
  function `Validate`. Path-absoluteness and `os.Stat` are oracles.
- `utils.dfy`:
  - `truncate`, as `Truncate`.
  - `randomCharacters`, as a method filling an array. The random generator
    becomes an oracle for an index below 62.
  - A decimal rendering for the `%d` in error texts.
- `db.dfy`: `DB.run`. It is specified by the functions `Plan` (the commands a
  script list stands for once globbed) and `Perform` (which executes them and
  stops at the first failure). The step-by-step method `Run` is proved to
  equal `RunSpec`.
- `readiness.dfy`: the readiness wait. The reader loop is the method `Scan`.
  The `select` over the two readers and the timer is the function `Await`,
  over the lines each stream delivers before the deadline.
- `fixture.dfy`: the lifecycle.
  - Each operation is a function to the new state and the error. Its inputs
    are a `State` (the fixture's fields plus the event log), an `Env` (the
    world's answers to the process and file calls) and a runner for one
    database.
  - The class's methods use `DB.run` as that runner.
  - The class `Fixture` holds the same fields. Each of its methods is proved
    to follow its function through `Current()`.
  - The lemmas state the ordering, gating and first-failure properties.

## Model

| member | source | states |
|---|---|---|
| Types.NewScript | main.go:45-51 | the script is literal (tag 1), runnable, and carries the given command |
| Types.NewScriptPath | main.go:53-59 | the script is a path script (tag 2), runnable, and carries the given pattern |
| Config.Validate | main.go:110-144 | the errors come in guard order and the first failing guard decides: empty root, then not absolute, then missing or unreadable, then the empty sentinel, which is reported only when every root check passed; success iff all guards pass; every field is kept except a timeout of at most 0, which becomes 10 s, while a positive timeout is unchanged |
| Config.ValidateIdempotent | main.go:136-143 | running the validation again on a configuration it accepted gives the same configuration back |
| Config.ConfigMessages | main.go:114-134 | the exact texts for a missing root, a missing directory and a missing sentinel; a relative root's error starts with "Please use an absolute path" |
| Utils.Truncate | utils.go:20-26 | text that fits is returned unchanged; otherwise the result is the first maxLength elements followed by the affix, with length maxLength plus the affix length; in both cases the first min(len, maxLength) elements are a prefix of the result |
| Utils.RandomCharacters | utils.go:8-18 | exactly n characters, the i-th being the alphabet symbol at the i-th drawn index, so every character is one of the 62 |
| Utils.NatToString | fixture.go:36 | the decimal rendering used for `%d` is non-empty, has no leading zero and uses only digits |
| Utils.NatToStringRoundTrip | fixture.go:36 | reading the rendering back as a decimal number gives the index, so the error text determines the index |
| DbRunner.Message | db.go:28-56 | every runner error text ends with the text of the Go error it wraps; a failing literal, path or file is named in quotes just before it |
| DbRunner.ExcerptShape | db.go:43 | a failing literal's error shows the command itself when it has at most 40 bytes, otherwise its first 40 bytes, and never more than 43 bytes |
| DbRunner.RunSucceedsIff | db.go:26-62 | a connection failure is reported before any command is sent; a run succeeds iff the connection opens and every step of the plan succeeds, and then it has sent every command of the plan in order |
| DbRunner.PerformPassIff | db.go:39-62 | executing a plan succeeds iff every step succeeds, and a successful execution sends exactly the plan's commands |
| DbRunner.PerformFirstFailure | db.go:39-60 | when step k is the first to fail, the run returns step k's error and has sent exactly the commands of steps 0..k |
| DbRunner.PerformAppend | db.go:39-60 | executing a + b executes a and continues with b only if all of a succeeded |
| DbRunner.PerformOnlyExecs | db.go:39-60 | a run does nothing to the world but send database commands |
| DbRunner.PlanAppend | db.go:32-39 | the commands of a concatenated script list are the two lists' commands in order |
| DbRunner.UnrunnableSkipped | db.go:34-59 | scripts whose tag is neither 1 nor 2 are ignored: dropping them from the list leaves the plan unchanged |
| DbRunner.ReadErrorIgnored | db.go:52-57 | a read error is never looked at: the run is the same as if every read had succeeded with the bytes it returned, so a file read only in part runs the part that was read, one that could not be read at all runs as empty, and only the exec result can stop the run |
| DbRunner.NewScriptRunsLiteral | db.go:40-44 | a database with only `NewScript(c)` sends `c` once; on failure the error names the 40-byte excerpt of `c` |
| DbRunner.NewScriptPathGlobs | db.go:45-58 | a database with only `NewScriptPath(p)` globs `p` joined to the root; a glob error names `p` and sends nothing; otherwise it runs the matches as files |
| DbRunner.ScriptStep | db.go:39-60 | after scripts 0..i-1 succeeded, running script i extends the run by what script i does, and if script i fails the whole run ends with its error |
| DbRunner.ExecFiles | db.go:52-58 | the loop over the glob matches executes each file's contents in enumeration order, stops at the first failing exec, and names that file |
| DbRunner.RunScript | db.go:40-59 | one iteration of the script loop does exactly what the script's expansion specifies: a literal is one exec, a path is a glob and then its files, any other tag is nothing |
| DbRunner.Run | db.go:25-63 | the step-by-step runner (open, build the list by append, loop with early return) returns exactly the specified run |
| Readiness.Scan | fixture.go:88-105 | a reader finds the sentinel iff it is one of the lines; it stops right after the first line equal to it and has read no earlier copy; otherwise it reads every line |
| Readiness.Await | fixture.go:107-115 | the wait is ready iff the sentinel is a line of stdout or of stderr; the winning stream contains it; when only one stream does, that stream wins |
| Readiness.TieDoesNotMatter | fixture.go:107-111 | which reader wins a tie never changes whether the program counts as ready |
| Readiness.AwaitMonotone | fixture.go:107-115 | lines arriving later cannot undo a success or rescue a timeout measured on more lines |
| Lifecycle.RunDbsStops | fixture.go:33-38 | once database i has failed, no later database of the list is run |
| Lifecycle.RunDbsPassIff | fixture.go:33-38 | a list of databases succeeds iff each database's run succeeds |
| Lifecycle.RunDbsFailsAt | fixture.go:33-38 | a failing list names a valid index i; databases 0..i-1 passed, database i failed with the reported cause, and the list's run is the run of databases 0..i only |
| Lifecycle.RunDbsFirstFailure | fixture.go:144-149 | a failing list names the first failing database: every earlier one passed, it failed with the reported cause, and nothing after it ran |
| Lifecycle.DbRunExecOnly | db.go:25-63 | running one database only ever sends database commands |
| Lifecycle.RunDbsOnlyExecs | fixture.go:33-38 | with such a runner, running a list of databases only sends database commands |
| Lifecycle.RunRoutinesStops | fixture.go:170-182 | once a routine's database failed, no later routine runs |
| Lifecycle.RunRoutinesPassIff | fixture.go:170-184 | the per-test routines succeed iff every routine's databases succeed |
| Lifecycle.RunRoutinesFailsAt | fixture.go:170-177 | a failing routine run names a valid routine i; routines 0..i-1 passed, routine i's databases failed at the reported database with the reported cause, and the run is the run of routines 0..i only |
| Lifecycle.RunRoutinesFirstFailure | fixture.go:170-177 | a failure names the first routine whose databases failed and the failing database inside it; earlier routines passed and nothing after it ran |
| Lifecycle.CallbackRunsIff | fixture.go:179-181 | routine i's callback runs iff the routine has one and the databases of routines 0..i all succeeded; a nil callback is skipped and a failure stops every later callback |
| Lifecycle.RunRoutinesEvents | fixture.go:170-182 | the routines only send database commands and make callbacks |
| Lifecycle.SetupPreservesConsistency | fixture.go:26-116 | Setup keeps "teardown attempted implies setup attempted" and "a process handle exists only after Setup and runs the built binary"; it keeps the configuration and the routine lists, and only appends to the log |
| Lifecycle.TeardownPreservesConsistency | fixture.go:120-152 | Teardown keeps both invariants, the configuration, the routine lists, the binary path and the process handle, and only appends to the log |
| Lifecycle.ClosePreservesConsistency | fixture.go:222-238 | Close keeps both invariants and the configuration, and only appends to the log |
| Lifecycle.SetupOnlyOnce | fixture.go:27-31 | after any Setup the setup flag is set, and a later Setup returns the "already been called" error and changes nothing, including the log |
| Lifecycle.MessageWrapsDetail | fixture.go:46-140 | the texts for a failed temporary file, build, stdout pipe, stderr pipe, start, kill and removal each end with the text of the Go error they wrap |
| Lifecycle.MessageWrapsCause | fixture.go:36-147 | the texts for a failed database setup and a failed database teardown end with the failing database's index in decimal and then the runner's error text |
| Lifecycle.RoutineMessageWrapsCause | fixture.go:174-208 | the text for a failed per-test routine ends with the routine's index in decimal and then the runner's error text |
| Lifecycle.SetupTwiceText | fixture.go:28 | the second Setup's error is exactly the text the test suite expects |
| Lifecycle.TimeoutText | fixture.go:113-114 | the timeout error for the sentinel "Running" is exactly the text the test suite expects |
| Lifecycle.TeardownBeforeSetupText | fixture.go:122 | the error for Teardown before Setup is exactly "Please run Setup() first before calling Teardown()" |
| Lifecycle.TeardownTwiceText | fixture.go:126 | the second Teardown's error is exactly the text the test suite expects |
| Lifecycle.TornDownText | fixture.go:167 | a per-test phase after Teardown fails with exactly "Fixture has already been teared down" |
| Lifecycle.SetupDatabaseFailure | fixture.go:31-38 | when database setup i fails, Setup reports index i with its cause; only setups 0..i ran, and only the flag and the log changed; with a runner that only sends database commands, no file was created and nothing was built or started |
| Lifecycle.SetupLaunchFailures | fixture.go:40-85 | a failed temporary file, a failed build, a failed stdout pipe, a failed stderr pipe (checked only once stdout's succeeded) or a failed start each ends Setup with exactly that step's error and its detail; the new state is given in full: the flag set, the binary path from the file step on, the process handle from the pipe step on and never marked started when the start fails, and a log that ends at the failed step |
| Lifecycle.SetupReadiness | fixture.go:82-115 | after a successful start the program is left running, and Setup succeeds iff the sentinel is a line of stdout or stderr; otherwise it reports the timeout error naming the sentinel |
| Lifecycle.SetupSucceedsIff | fixture.go:26-116 | Setup succeeds iff it is the first call, every database setup succeeds, every launch step succeeds and the sentinel is seen |
| Lifecycle.TeardownBeforeSetup | fixture.go:121-123 | Teardown before Setup is refused and changes nothing: no flag is set and nothing is killed |
| Lifecycle.TeardownOnlyOnce | fixture.go:125-129 | after Setup, Teardown sets its flag whatever follows, and a second Teardown returns the "already been called" error and changes nothing |
| Lifecycle.TeardownInOrder | fixture.go:129-151 | Teardown kills, then removes the binary, then runs the database teardowns; a failed kill stops before the removal, a failed removal stops before the databases, and the flag stays set |
| Lifecycle.TeardownSucceedsIff | fixture.go:120-152 | Teardown succeeds iff Setup ran, Teardown did not, the program is running, and the kill, the removal and every database teardown succeed |
| Lifecycle.TestRoutinesGate | fixture.go:161-218 | TestSetup and TestTeardown fail before Setup with nothing changed, and fail after Teardown with the torn-down error and nothing changed; otherwise they change only the log, and they succeed iff every routine's databases succeed |
| Lifecycle.TestRoutinesFailure | fixture.go:170-177 | a failing TestSetup or TestTeardown names its phase, then the first failing routine and its failing database, and the log holds exactly the routines up to that one |
| Lifecycle.TestRoutinesCallbacks | fixture.go:161-218 | a phase makes routine i's callback iff it passed the gate, routine i has a callback, and the databases of routines 0..i succeeded |
| Lifecycle.CloseSteps | fixture.go:222-238 | Close runs Teardown only when Teardown was never attempted, and ignores its error; it then kills iff the process was started, and removes the binary iff it exists; once Setup was attempted, the fixture ends up torn down |
| Lifecycle.CloseRemovesOnce | fixture.go:222-237 | when Close's own Teardown removed the binary and a removed file no longer exists, Close kills, removes, runs the teardowns and kills again, with exactly one removal of the binary |
| Lifecycle.CloseKillsRunningProgram | fixture.go:228-231 | when the program was running, Close always issues a kill |
| Lifecycle.CloseAfterFailedSetupCleansUp | fixture.go:132-134 | when Setup stopped before the start, Teardown reports that there is nothing to kill and sets the flag, and Close then only deletes an existing binary |
| Lifecycle.RunEach | fixture.go:33-38 | the `for i, db := range` loop, calling `DB.run` for each database, returns exactly the list run of RunDbs and stops at the first error with its index |
| Lifecycle.RunEachRoutine | fixture.go:170-184 | the nested routine loop returns exactly the routines' run of RunRoutines |
| Lifecycle.Fixture.constructor | main.go:111-143 | a new fixture holds the configuration, empty routine lists, no binary path, no process and clear flags |
| Lifecycle.Fixture.Setup | fixture.go:26-116 | the method's new fields and error are exactly those of SetupSpec |
| Lifecycle.Fixture.Launch | fixture.go:40-115 | the build, start and wait section sets appPath and appProcess and returns exactly as LaunchSpec |
| Lifecycle.Fixture.Teardown | fixture.go:120-152 | the method's new fields and error are exactly those of TeardownSpec |
| Lifecycle.Fixture.AddTestSetup | fixture.go:155-157 | exactly one routine is appended at the end of the setups and nothing else changes |
| Lifecycle.Fixture.AddTestTeardown | fixture.go:188-190 | exactly one routine is appended at the end of the teardowns and nothing else changes |
| Lifecycle.Fixture.TestSetup | fixture.go:161-185 | the method's new state and error are exactly those of TestRoutinesSpec for the setup phase |
| Lifecycle.Fixture.TestTeardown | fixture.go:194-218 | the method's new state and error are exactly those of TestRoutinesSpec for the teardown phase |
| Lifecycle.Fixture.Close | fixture.go:222-238 | the method's new state is exactly CloseSpec |
| Lifecycle.NewFixture | main.go:110-144 | a fresh fixture holds the validated configuration with no error; otherwise it holds the zero configuration and the validation error |

## Left out

- The child process, the compiler and the database are outside the model.
  - Each of `ioutil.TempFile`, `go build`, the pipes, `Start`, `Process.Kill`, `os.Remove` and `os.Stat` is one answer in `Env`.
  - `sql.Open`, `db.Exec`, `filepath.Join`, `filepath.Glob` and `ioutil.ReadFile` are oracles in `DbEnv`.
  - The database oracle answers the same way for the same command on every call.
- The temporary file's name, which is `path.Base(AppRoot)` plus `_` and a random suffix, is not computed. It is the name the `tempFile` answer carries.
- The reader goroutines, `select` and `time.After` are modelled by the lines each stream delivers before the deadline. The timeout's duration therefore does not appear, and neither do wall-clock time or lines after the deadline.
- `defer outReader.Close()` and `defer errReader.Close()` are not modelled. The readers are closed when Setup returns.
- A callback's own effect is not modelled. It is recorded as a `Callback` event naming the phase and the routine.
- `BuildArguments` is carried in the configuration but never used. The build always uses `-o appPath`.
- `math/rand` seeded from the clock is replaced by the index oracle of `RandomCharacters`.
- `db.Close` (the deferred close of the connection) is not modelled.
- Lifecycle.TeardownSpec: the model answers `NoProcessToKill` and does not crash. The source dereferences `appProcess.Process` without a nil check, which panics when Setup stopped before starting the program. `Close` after a failed build reaches that panic.
  - The error text for this case, "Error shutting down program: the program was never started", has no counterpart in the source.
- Lifecycle.CloseSpec: the existence answer `fileExists` is an oracle of its own and is not tied to an earlier removal. `CloseRemovesOnce` states the single deletion under the hypothesis that a successful removal leaves no file.
- The bytes `ioutil.ReadFile` returns with an error are whatever the `readFile` oracle answers. The model does not require them to be a prefix of the file, since file contents are not modelled.
- Lifecycle.Message: the exact texts are stated only for the refusals and the timeout, and otherwise through what each text ends with.
- The test files are not modelled. They only supply the exact error texts and the call sequences behind the lemmas.

## Where the sources disagree

- The shown sources are mid-way through a rename. fixture.go uses `TestSetup`/`TestTeardown` records with `DatabaseSetups`/`DatabaseTeardowns`, and `AppSetup.Arguments`. main.go defines `UnitTest` with `DatabaseRoutines` and `Func`, and `App.RunArguments`, and db.go declares `run` in lower case.
  - The model uses the single shape `UnitTest(databaseRoutines, hasFunc)` and `runArguments`.
  - It keeps the behaviour fixture.go implements.
- The gate of `TestSetup`/`TestTeardown` is "Setup was attempted" (fixture.go:162), not "Setup succeeded". So the routines also run after a Setup that failed.
- `Close` kills the process again even after a successful Teardown (fixture.go:229-231), because the handle is never cleared. The model logs that second kill.
- A glob error names the script's own pattern, not the pattern joined to the application root (db.go:49).
