/** The fixture lifecycle of fixture.go: Setup, TestSetup, TestTeardown,
    Teardown and Close, gated by two flags. Each operation is specified by a
    function from the fixture's state and the world's answers to its new
    state and its error; the class `Fixture` implements each one step by
    step and is proved to follow that function. */
module Lifecycle {

  import opened Wrappers
  import opened Types
  import Config
  import Utils
  import opened DbRunner
  import opened Readiness

  /** The world's answers to the process and filesystem calls the fixture
      makes during one call. Database runs are given separately, as a
      runner `DB -> Report<DbError>`. */
  datatype Env = Env(
    tempFile: Result<string, string>,    // ioutil.TempFile: the new file's name
    build: Outcome<string>,              // go build -o appPath
    stdoutPipe: Outcome<string>,         // appProcess.StdoutPipe
    stderrPipe: Outcome<string>,         // appProcess.StderrPipe
    start: Outcome<string>,              // appProcess.Start
    stdoutLines: seq<string>,            // lines on stdout before the deadline
    stderrLines: seq<string>,            // lines on stderr before the deadline
    tie: Stream,                         // which reader `select` sees first when both match
    kill: Outcome<string>,               // Process.Kill
    remove: string -> Outcome<string>,   // os.Remove
    fileExists: string -> bool)          // os.Stat succeeds

  /** The `*exec.Cmd` handle: absent, created but not started (its
      `Process` is nil), or started. */
  datatype Process =
    | NoProcess
    | Prepared(program: string, args: seq<string>)
    | Running(program: string, args: seq<string>)

  /** The operations that require Setup first. */
  datatype Operation = TeardownOp | TestSetupOp | TestTeardownOp

  datatype FixtureError =
    | SetupAlreadyCalled
    | DatabaseSetupFailed(index: nat, cause: DbError)
    | TempFileFailed(detail: string)
    | BuildFailed(detail: string)
    | StdoutPipeFailed(detail: string)
    | StderrPipeFailed(detail: string)
    | StartFailed(detail: string)
    | ReadinessTimeout(sentinel: string)
    | SetupNotRun(op: Operation)
    | TeardownAlreadyCalled
    | NoProcessToKill
    | KillFailed(detail: string)
    | RemoveFailed(detail: string)
    | DatabaseTeardownFailed(index: nat, cause: DbError)
    | AlreadyTornDown
    | RoutineFailed(phase: Phase, dbIndex: nat, routine: nat, cause: DbError)

  function OperationName(op: Operation): string {
    match op
    case TeardownOp => "Teardown()"
    case TestSetupOp => "TestSetup()"
    case TestTeardownOp => "TestTeardown()"
  }

  /** The error texts of fixture.go; `NoProcessToKill` is the error the
      model gives where the source dereferences a nil process. */
  function Message(e: FixtureError): string
  {
    match e
    case SetupAlreadyCalled =>
      "Setup() has already been called. Only run this function once for the test suite."
    case DatabaseSetupFailed(i, c) =>
      "Error running Database Setup at index " + Utils.NatToString(i) + ": " + DbRunner.Message(c)
    case TempFileFailed(d) => "Error generating random file for program: " + d
    case BuildFailed(d) => "Error building program: " + d
    case StdoutPipeFailed(d) => "Error getting stdout pipe from running program: " + d
    case StderrPipeFailed(d) => "Error getting stderr pipe from running program: " + d
    case StartFailed(d) => "Error running program under test: " + d
    case ReadinessTimeout(s) =>
      "Timeout waiting for program to start. Was looking for output line \"" + s + "\"."
    case SetupNotRun(op) => "Please run Setup() first before calling " + OperationName(op)
    case TeardownAlreadyCalled =>
      "Teardown() has already been called. Only run this function once for the test suite."
    case NoProcessToKill => "Error shutting down program: the program was never started"
    case KillFailed(d) => "Error shutting down program: " + d
    case RemoveFailed(d) => "Error trying to delete complile binary: " + d
    case DatabaseTeardownFailed(i, c) =>
      "Error running Database Teardown at index " + Utils.NatToString(i) + ": " + DbRunner.Message(c)
    case AlreadyTornDown => "Fixture has already been teared down"
    case RoutineFailed(phase, d, i, c) =>
      "Error running Database Setup at index " + Utils.NatToString(d) + " for "
        + (if phase == PerTestSetup then "TestSetup" else "TestTeardown")
        + " at index " + Utils.NatToString(i) + ": " + DbRunner.Message(c)
  }

  /** An error that wraps a Go error ends with that error's text. */
  lemma MessageWrapsDetail(d: string)
    ensures Utils.EndsWith(Message(TempFileFailed(d)), d)
    ensures Utils.EndsWith(Message(BuildFailed(d)), d)
    ensures Utils.EndsWith(Message(StdoutPipeFailed(d)), d)
    ensures Utils.EndsWith(Message(StderrPipeFailed(d)), d)
    ensures Utils.EndsWith(Message(StartFailed(d)), d)
    ensures Utils.EndsWith(Message(KillFailed(d)), d)
    ensures Utils.EndsWith(Message(RemoveFailed(d)), d)
  {
    Utils.EndsWithTail("Error generating random file for program: ", d);
    Utils.EndsWithTail("Error building program: ", d);
    Utils.EndsWithTail("Error getting stdout pipe from running program: ", d);
    Utils.EndsWithTail("Error getting stderr pipe from running program: ", d);
    Utils.EndsWithTail("Error running program under test: ", d);
    Utils.EndsWithTail("Error shutting down program: ", d);
    Utils.EndsWithTail("Error trying to delete complile binary: ", d);
  }

  /** A failed database setup or teardown ends with the decimal index of
      the failing database and then the runner's message. */
  lemma MessageWrapsCause(index: nat, cause: DbError)
    ensures Utils.EndsWith(Message(DatabaseSetupFailed(index, cause)),
      Utils.NatToString(index) + ": " + DbRunner.Message(cause))
    ensures Utils.EndsWith(Message(DatabaseTeardownFailed(index, cause)),
      Utils.NatToString(index) + ": " + DbRunner.Message(cause))
  {
    var m := DbRunner.Message(cause);
    Utils.EndsWithAppend("Error running Database Setup at index ", Utils.NatToString(index), ": ", m);
    Utils.EndsWithAppend("Error running Database Teardown at index ", Utils.NatToString(index), ": ", m);
  }

  /** A failed per-test routine ends with the decimal index of the failing
      routine and then the runner's message. */
  lemma RoutineMessageWrapsCause(phase: Phase, dbIndex: nat, index: nat, cause: DbError)
    ensures Utils.EndsWith(Message(RoutineFailed(phase, dbIndex, index, cause)),
      Utils.NatToString(index) + ": " + DbRunner.Message(cause))
  {
    Utils.EndsWithAppend("Error running Database Setup at index " + Utils.NatToString(dbIndex) + " for "
      + (if phase == PerTestSetup then "TestSetup" else "TestTeardown") + " at index ",
      Utils.NatToString(index), ": ", DbRunner.Message(cause));
  }

  /** The fields of a Fixture (fixture.go:14-23), plus the log of what it
      has done to the world. */
  datatype State = State(
    config: FixtureConfig,
    testSetups: seq<UnitTest>,
    testTeardowns: seq<UnitTest>,
    appPath: string,
    appProcess: Process,
    setupAttempted: bool,
    teardownAttempted: bool,
    log: seq<Event>)

  /** A fixture as NewFixture returns it. */
  function Initial(config: FixtureConfig): State {
    State(config, [], [], "", NoProcess, false, false, [])
  }

  /** The zero configuration of a Fixture returned with an error. */
  const ZeroConfig := FixtureConfig("", [], App([], [], "", 0), [])

  /** The new state and the error of one call. */
  datatype Transition = Transition(state: State, outcome: Outcome<FixtureError>)

  /** Which database of a list failed, and why. */
  datatype Indexed = Indexed(index: nat, cause: DbError)

  /** The runner of one database under an application root: `DB.run`. */
  function DbRun(appRoot: string, env: DbEnv): DB -> Report<DbError> {
    (db: DB) => RunSpec(db, appRoot, env)
  }

  /** Runs a list of databases in order with `run` and stops at the first
      failure: the loop fixture.go repeats for every list it runs. */
  function RunDbs(dbs: seq<DB>, run: DB -> Report<DbError>): Report<Indexed>
    decreases |dbs|
  {
    if dbs == [] then Report(Pass, [])
    else
      var n := |dbs| - 1;
      var prev := RunDbs(dbs[..n], run);
      if prev.outcome.Fail? then prev
      else
        var last := run(dbs[n]);
        Report(if last.outcome.Pass? then Pass else Fail(Indexed(n, last.outcome.error)),
               prev.executed + last.executed)
  }

  /** Once a prefix of the list has failed, the rest of the list is not run. */
  lemma {:induction false} RunDbsStops(dbs: seq<DB>, n: nat, run: DB -> Report<DbError>)
    requires n <= |dbs|
    requires RunDbs(dbs[..n], run).outcome.Fail?
    ensures RunDbs(dbs, run) == RunDbs(dbs[..n], run)
    decreases |dbs| - n
  {
    if n < |dbs| {
      var m := |dbs| - 1;
      assert dbs[..m][..n] == dbs[..n];
      RunDbsStops(dbs[..m], n, run);
    } else {
      assert dbs[..n] == dbs;
    }
  }

  /** A list run succeeds iff every database run in it succeeds. */
  lemma {:induction false} RunDbsPassIff(dbs: seq<DB>, run: DB -> Report<DbError>)
    ensures RunDbs(dbs, run).outcome.Pass? <==> forall j :: 0 <= j < |dbs| ==> run(dbs[j]).outcome.Pass?
  {
    if dbs != [] {
      var n := |dbs| - 1;
      RunDbsPassIff(dbs[..n], run);
      assert forall j :: 0 <= j < n ==> dbs[..n][j] == dbs[j];
    }
  }

  /** A failing list run names a database i: the databases before it
      passed, it failed with the reported cause, and the list's run is the
      run of databases 0..i only. */
  lemma {:induction false} RunDbsFailsAt(dbs: seq<DB>, run: DB -> Report<DbError>)
    requires RunDbs(dbs, run).outcome.Fail?
    ensures var f := RunDbs(dbs, run).outcome.error;
      && f.index < |dbs|
      && RunDbs(dbs[..f.index], run).outcome.Pass?
      && run(dbs[f.index]).outcome == Fail(f.cause)
      && RunDbs(dbs, run) == RunDbs(dbs[..f.index + 1], run)
  {
    var n := |dbs| - 1;
    var prev := RunDbs(dbs[..n], run);
    if prev.outcome.Fail? {
      assert RunDbs(dbs, run) == prev;
      RunDbsFailsAt(dbs[..n], run);
      var i := prev.outcome.error.index;
      assert dbs[..n][..i] == dbs[..i];
      assert dbs[..n][..i + 1] == dbs[..i + 1];
      assert dbs[..n][i] == dbs[i];
    } else {
      assert dbs[..n + 1] == dbs;
    }
  }

  /** A failing list run names the first database that failed, with its
      error; the ones before it succeeded and the ones after it never ran. */
  lemma RunDbsFirstFailure(dbs: seq<DB>, run: DB -> Report<DbError>)
    requires RunDbs(dbs, run).outcome.Fail?
    ensures var f := RunDbs(dbs, run).outcome.error;
      && f.index < |dbs|
      && (forall j :: 0 <= j < f.index ==> run(dbs[j]).outcome.Pass?)
      && run(dbs[f.index]).outcome == Fail(f.cause)
      && RunDbs(dbs, run) == RunDbs(dbs[..f.index + 1], run)
  {
    RunDbsFailsAt(dbs, run);
    var i := RunDbs(dbs, run).outcome.error.index;
    RunDbsPassIff(dbs[..i], run);
    assert forall j :: 0 <= j < i ==> dbs[..i][j] == dbs[j];
  }

  /** The runner sends nothing but database commands. */
  ghost predicate ExecOnly(run: DB -> Report<DbError>) {
    forall db :: OnlyExecs(run(db).executed)
  }

  /** `DB.run` itself sends nothing but database commands. */
  lemma DbRunExecOnly(appRoot: string, env: DbEnv)
    ensures ExecOnly(DbRun(appRoot, env))
  {
    forall db ensures OnlyExecs(DbRun(appRoot, env)(db).executed) {
      RunOnlyExecs(db, appRoot, env);
    }
  }

  lemma OnlyExecsAppend(a: seq<Event>, b: seq<Event>)
    requires OnlyExecs(a) && OnlyExecs(b)
    ensures OnlyExecs(a + b)
  {
    forall k | 0 <= k < |a + b| ensures (a + b)[k].Exec? {
      if k < |a| {
        assert (a + b)[k] == a[k];
      } else {
        assert (a + b)[k] == b[k - |a|];
      }
    }
  }

  /** Running databases only sends database commands. */
  lemma {:induction false} RunDbsOnlyExecs(dbs: seq<DB>, run: DB -> Report<DbError>)
    requires ExecOnly(run)
    ensures OnlyExecs(RunDbs(dbs, run).executed)
  {
    if dbs != [] {
      var n := |dbs| - 1;
      RunDbsOnlyExecs(dbs[..n], run);
      if RunDbs(dbs[..n], run).outcome.Pass? {
        OnlyExecsAppend(RunDbs(dbs[..n], run).executed, run(dbs[n]).executed);
      }
    }
  }

  /** Which routine failed, at which of its databases, and why. */
  datatype RoutineFailure = RoutineFailure(dbIndex: nat, routine: nat, cause: DbError)

  /** Runs per-test routines in registration order: each routine's
      databases, then its callback when it has one; the first database
      failure stops everything (fixture.go:170-182 and 203-215). */
  function RunRoutines(routines: seq<UnitTest>, phase: Phase, run: DB -> Report<DbError>): Report<RoutineFailure>
    decreases |routines|
  {
    if routines == [] then Report(Pass, [])
    else
      var n := |routines| - 1;
      var prev := RunRoutines(routines[..n], phase, run);
      if prev.outcome.Fail? then prev
      else
        var db := RunDbs(routines[n].databaseRoutines, run);
        if db.outcome.Fail? then
          Report(Fail(RoutineFailure(db.outcome.error.index, n, db.outcome.error.cause)), prev.executed + db.executed)
        else
          Report(Pass, prev.executed + db.executed + (if routines[n].hasFunc then [Callback(phase, n)] else []))
  }

  /** Once a routine's databases failed, no later routine runs. */
  lemma {:induction false} RunRoutinesStops(routines: seq<UnitTest>, n: nat, phase: Phase, run: DB -> Report<DbError>)
    requires n <= |routines|
    requires RunRoutines(routines[..n], phase, run).outcome.Fail?
    ensures RunRoutines(routines, phase, run) == RunRoutines(routines[..n], phase, run)
    decreases |routines| - n
  {
    if n < |routines| {
      var m := |routines| - 1;
      assert routines[..m][..n] == routines[..n];
      RunRoutinesStops(routines[..m], n, phase, run);
    } else {
      assert routines[..n] == routines;
    }
  }

  /** The databases of routine u all succeed. */
  predicate RoutineDbsPass(u: UnitTest, run: DB -> Report<DbError>) {
    RunDbs(u.databaseRoutines, run).outcome.Pass?
  }

  /** The routines pass iff the databases of every routine do. */
  lemma {:induction false} RunRoutinesPassIff(routines: seq<UnitTest>, phase: Phase, run: DB -> Report<DbError>)
    ensures RunRoutines(routines, phase, run).outcome.Pass? <==>
      forall j :: 0 <= j < |routines| ==> RoutineDbsPass(routines[j], run)
  {
    if routines != [] {
      var n := |routines| - 1;
      RunRoutinesPassIff(routines[..n], phase, run);
      assert forall j :: 0 <= j < n ==> routines[..n][j] == routines[j];
    }
  }

  /** The inductive core of RunRoutinesFirstFailure. */
  lemma {:induction false} RunRoutinesFailsAt(routines: seq<UnitTest>, phase: Phase, run: DB -> Report<DbError>)
    requires RunRoutines(routines, phase, run).outcome.Fail?
    ensures var f := RunRoutines(routines, phase, run).outcome.error;
      && f.routine < |routines|
      && RunRoutines(routines[..f.routine], phase, run).outcome.Pass?
      && RunDbs(routines[f.routine].databaseRoutines, run).outcome == Fail(Indexed(f.dbIndex, f.cause))
      && RunRoutines(routines, phase, run) == RunRoutines(routines[..f.routine + 1], phase, run)
  {
    var n := |routines| - 1;
    var prev := RunRoutines(routines[..n], phase, run);
    if prev.outcome.Fail? {
      assert RunRoutines(routines, phase, run) == prev;
      RunRoutinesFailsAt(routines[..n], phase, run);
      var i := prev.outcome.error.routine;
      assert routines[..n][..i] == routines[..i];
      assert routines[..n][..i + 1] == routines[..i + 1];
      assert routines[..n][i] == routines[i];
    } else {
      assert routines[..n + 1] == routines;
    }
  }

  /** A failure names the first routine whose databases failed, and the
      database within it; no later routine runs. */
  lemma RunRoutinesFirstFailure(routines: seq<UnitTest>, phase: Phase, run: DB -> Report<DbError>)
    requires RunRoutines(routines, phase, run).outcome.Fail?
    ensures var f := RunRoutines(routines, phase, run).outcome.error;
      && f.routine < |routines|
      && (forall j :: 0 <= j < f.routine ==> RoutineDbsPass(routines[j], run))
      && RunDbs(routines[f.routine].databaseRoutines, run).outcome == Fail(Indexed(f.dbIndex, f.cause))
      && RunRoutines(routines, phase, run) == RunRoutines(routines[..f.routine + 1], phase, run)
  {
    RunRoutinesFailsAt(routines, phase, run);
    var i := RunRoutines(routines, phase, run).outcome.error.routine;
    RunRoutinesPassIff(routines[..i], phase, run);
    assert forall j :: 0 <= j < i ==> routines[..i][j] == routines[j];
  }

  /** A database run sends no callback. */
  lemma NoCallbackInDbs(dbs: seq<DB>, phase: Phase, i: nat, run: DB -> Report<DbError>)
    requires ExecOnly(run)
    ensures Callback(phase, i) !in RunDbs(dbs, run).executed
  {
    RunDbsOnlyExecs(dbs, run);
  }

  /** The callback of routine i runs iff routine i has one and the
      databases of routines 0..i all succeeded: a nil Func is skipped and a
      failure stops every later callback. */
  lemma {:induction false} CallbackRunsIff(routines: seq<UnitTest>, phase: Phase, run: DB -> Report<DbError>, i: nat)
    requires ExecOnly(run)
    ensures Callback(phase, i) in RunRoutines(routines, phase, run).executed <==>
      && i < |routines|
      && routines[i].hasFunc
      && forall j :: 0 <= j <= i ==> RoutineDbsPass(routines[j], run)
  {
    if routines != [] {
      var n := |routines| - 1;
      var prefix := routines[..n];
      var prev := RunRoutines(prefix, phase, run);
      var r := RunRoutines(routines, phase, run);
      CallbackRunsIff(prefix, phase, run, i);
      RunRoutinesPassIff(prefix, phase, run);
      assert forall j :: 0 <= j < n ==> prefix[j] == routines[j];
      NoCallbackInDbs(routines[n].databaseRoutines, phase, i, run);
      var db := RunDbs(routines[n].databaseRoutines, run);
      var ok := i < |routines| && forall j :: 0 <= j <= i ==> RoutineDbsPass(routines[j], run);
      var rhs := ok && routines[i].hasFunc;
      var inPrev := Callback(phase, i) in prev.executed;
      if i < n {
        assert ok <==> forall j :: 0 <= j <= i ==> RoutineDbsPass(prefix[j], run);
        assert inPrev <==> rhs;
      } else {
        assert !inPrev;
      }
      if prev.outcome.Fail? {
        assert r == prev;
        if n <= i {
          var j :| 0 <= j < n && !RoutineDbsPass(prefix[j], run);
          assert !RoutineDbsPass(routines[j], run);
        }
      } else if db.outcome.Fail? {
        assert r.executed == prev.executed + db.executed;
        assert i == n ==> !RoutineDbsPass(routines[n], run);
      } else {
        var tail := if routines[n].hasFunc then [Callback(phase, n)] else [];
        assert r.executed == prev.executed + db.executed + tail;
        if i == n {
          forall j | 0 <= j <= i
            ensures RoutineDbsPass(routines[j], run)
          {
            if j < n {
              assert RoutineDbsPass(prefix[j], run);
            }
          }
        }
      }
    }
  }

  /** Every event is a database command or a callback. */
  predicate ExecsAndCallbacks(t: seq<Event>) {
    forall k :: 0 <= k < |t| ==> t[k].Exec? || t[k].Callback?
  }

  lemma ExecsAndCallbacksAppend(a: seq<Event>, b: seq<Event>)
    requires ExecsAndCallbacks(a) && ExecsAndCallbacks(b)
    ensures ExecsAndCallbacks(a + b)
  {
    forall k | 0 <= k < |a + b| ensures (a + b)[k].Exec? || (a + b)[k].Callback? {
      if k < |a| {
        assert (a + b)[k] == a[k];
      } else {
        assert (a + b)[k] == b[k - |a|];
      }
    }
  }

  /** The routines only send database commands and make callbacks. */
  lemma {:induction false} RunRoutinesEvents(routines: seq<UnitTest>, phase: Phase, run: DB -> Report<DbError>)
    requires ExecOnly(run)
    ensures ExecsAndCallbacks(RunRoutines(routines, phase, run).executed)
  {
    if routines != [] {
      var n := |routines| - 1;
      var prev := RunRoutines(routines[..n], phase, run);
      var db := RunDbs(routines[n].databaseRoutines, run);
      RunRoutinesEvents(routines[..n], phase, run);
      RunDbsOnlyExecs(routines[n].databaseRoutines, run);
      if prev.outcome.Pass? {
        ExecsAndCallbacksAppend(prev.executed, db.executed);
        var tail := if routines[n].hasFunc then [Callback(phase, n)] else [];
        ExecsAndCallbacksAppend(prev.executed + db.executed, tail);
      }
    }
  }

  // ---------------------------------------------------------------------
  // The operations, as functions of the state

  /** Setup (fixture.go:26-116); `run` runs one database. */
  function SetupSpec(s: State, env: Env, run: DB -> Report<DbError>): Transition {
    if s.setupAttempted then Transition(s, Fail(SetupAlreadyCalled))
    else
      var dbs := RunDbs(s.config.databaseSetups, run);
      var afterDbs := s.(setupAttempted := true, log := s.log + dbs.executed);
      if dbs.outcome.Fail? then
        Transition(afterDbs, Fail(DatabaseSetupFailed(dbs.outcome.error.index, dbs.outcome.error.cause)))
      else LaunchSpec(afterDbs, env)
  }

  /** The build, start and readiness part of Setup (fixture.go:40-115). */
  function LaunchSpec(s: State, env: Env): Transition {
    var root := s.config.appRoot;
    var s1 := s.(log := s.log + [CreateTemp(root)]);
    if env.tempFile.Failure? then Transition(s1, Fail(TempFileFailed(env.tempFile.error)))
    else
      var path := env.tempFile.value;
      var s2 := s1.(appPath := path, log := s1.log + [Build(root, path)]);
      if env.build.Fail? then Transition(s2, Fail(BuildFailed(env.build.error)))
      else
        var args := s.config.appSetup.runArguments;
        var s3 := s2.(appProcess := Prepared(path, args));
        if env.stdoutPipe.Fail? then Transition(s3, Fail(StdoutPipeFailed(env.stdoutPipe.error)))
        else if env.stderrPipe.Fail? then Transition(s3, Fail(StderrPipeFailed(env.stderrPipe.error)))
        else
          var s4 := s3.(log := s3.log + [Start(root, path, args)]);
          if env.start.Fail? then Transition(s4, Fail(StartFailed(env.start.error)))
          else
            var s5 := s4.(appProcess := Running(path, args));
            var sentinel := s.config.appSetup.waitForOutputLine;
            if Await(sentinel, env.stdoutLines, env.stderrLines, env.tie).Ready? then Transition(s5, Pass)
            else Transition(s5, Fail(ReadinessTimeout(sentinel)))
  }

  /** Teardown (fixture.go:120-152). Where the source calls Kill on a
      process that was never started, the model reports NoProcessToKill. */
  function TeardownSpec(s: State, env: Env, run: DB -> Report<DbError>): Transition {
    if !s.setupAttempted then Transition(s, Fail(SetupNotRun(TeardownOp)))
    else if s.teardownAttempted then Transition(s, Fail(TeardownAlreadyCalled))
    else
      var s1 := s.(teardownAttempted := true);
      if !s1.appProcess.Running? then Transition(s1, Fail(NoProcessToKill))
      else
        var s2 := s1.(log := s1.log + [Kill]);
        if env.kill.Fail? then Transition(s2, Fail(KillFailed(env.kill.error)))
        else
          var s3 := s2.(log := s2.log + [Remove(s.appPath)]);
          if env.remove(s.appPath).Fail? then Transition(s3, Fail(RemoveFailed(env.remove(s.appPath).error)))
          else
            var dbs := RunDbs(s.config.databaseTeardowns, run);
            var s4 := s3.(log := s3.log + dbs.executed);
            if dbs.outcome.Fail? then
              Transition(s4, Fail(DatabaseTeardownFailed(dbs.outcome.error.index, dbs.outcome.error.cause)))
            else Transition(s4, Pass)
  }

  /** The routines a phase runs. */
  function RoutinesOf(s: State, phase: Phase): seq<UnitTest> {
    if phase == PerTestSetup then s.testSetups else s.testTeardowns
  }

  /** TestSetup and TestTeardown (fixture.go:161-185 and 194-218). */
  function TestRoutinesSpec(s: State, phase: Phase, run: DB -> Report<DbError>): Transition {
    if !s.setupAttempted then
      Transition(s, Fail(SetupNotRun(if phase == PerTestSetup then TestSetupOp else TestTeardownOp)))
    else if s.teardownAttempted then Transition(s, Fail(AlreadyTornDown))
    else
      var r := RunRoutines(RoutinesOf(s, phase), phase, run);
      Transition(s.(log := s.log + r.executed),
        if r.outcome.Pass? then Pass
        else Fail(RoutineFailed(phase, r.outcome.error.dbIndex, r.outcome.error.routine, r.outcome.error.cause)))
  }

  /** The kill and delete that Close performs after its Teardown attempt
      (fixture.go:228-237). */
  function CloseCleanup(s: State, env: Env): State {
    var s1 := if s.appProcess.Running? then s.(log := s.log + [Kill]) else s;
    if env.fileExists(s1.appPath) then s1.(log := s1.log + [Remove(s1.appPath)]) else s1
  }

  /** Close (fixture.go:222-238): Teardown if it was never attempted, its
      error dropped; then the cleanup. */
  function CloseSpec(s: State, env: Env, run: DB -> Report<DbError>): State {
    CloseCleanup(if !s.teardownAttempted then TeardownSpec(s, env, run).state else s, env)
  }

  // ---------------------------------------------------------------------
  // Properties of the operations

  /** What every operation keeps: Teardown is only ever attempted after
      Setup, and a process handle exists only after Setup and runs the
      built program. */
  predicate Consistent(s: State) {
    && (s.teardownAttempted ==> s.setupAttempted)
    && (!s.appProcess.NoProcess? ==> s.setupAttempted && s.appProcess.program == s.appPath)
  }

  /** Setup keeps the state consistent, keeps the configuration and the
      routines, and only appends to the log. */
  lemma SetupPreservesConsistency(s: State, env: Env, run: DB -> Report<DbError>)
    requires Consistent(s)
    ensures var t := SetupSpec(s, env, run).state;
      Consistent(t) && t.config == s.config && t.testSetups == s.testSetups &&
      t.testTeardowns == s.testTeardowns && s.log <= t.log
  {
  }

  /** Teardown keeps the state consistent, keeps the configuration, the
      routines, the binary path and the process handle, and only appends to
      the log. */
  lemma TeardownPreservesConsistency(s: State, env: Env, run: DB -> Report<DbError>)
    requires Consistent(s)
    ensures var t := TeardownSpec(s, env, run).state;
      Consistent(t) && t.config == s.config && t.testSetups == s.testSetups &&
      t.testTeardowns == s.testTeardowns && t.appPath == s.appPath && t.appProcess == s.appProcess &&
      s.log <= t.log
  {
  }

  /** Close keeps the state consistent and only appends to the log. */
  lemma ClosePreservesConsistency(s: State, env: Env, run: DB -> Report<DbError>)
    requires Consistent(s)
    ensures var t := CloseSpec(s, env, run);
      Consistent(t) && t.config == s.config && s.log <= t.log
  {
    TeardownPreservesConsistency(s, env, run);
  }

  /** Setup marks itself attempted before any work, so the flag is set
      whether it succeeds or fails, and every later Setup is refused with
      the same error and changes nothing (tests/fixture_test.go:88-93). */
  lemma SetupOnlyOnce(s: State, env: Env, later: Env, run: DB -> Report<DbError>)
    ensures SetupSpec(s, env, run).state.setupAttempted
    ensures var t := SetupSpec(s, env, run).state;
      SetupSpec(t, later, run) == Transition(t, Fail(SetupAlreadyCalled))
  {
  }

  /** When the database setup at index i fails, Setup fails naming i, has
      run the setups 0..i only, and has not created, built or started the
      program. */
  lemma SetupDatabaseFailure(s: State, env: Env, run: DB -> Report<DbError>)
    requires !s.setupAttempted
    requires RunDbs(s.config.databaseSetups, run).outcome.Fail?
    ensures var f := RunDbs(s.config.databaseSetups, run).outcome.error;
      var t := SetupSpec(s, env, run);
      && f.index < |s.config.databaseSetups|
      && t.outcome == Fail(DatabaseSetupFailed(f.index, f.cause))
      && run(s.config.databaseSetups[f.index]).outcome == Fail(f.cause)
      && t.state == s.(setupAttempted := true,
                       log := s.log + RunDbs(s.config.databaseSetups[..f.index + 1], run).executed)
    ensures ExecOnly(run) ==> OnlyExecs(SetupSpec(s, env, run).state.log[|s.log|..])
  {
    var dbs := s.config.databaseSetups;
    RunDbsFirstFailure(dbs, run);
    if ExecOnly(run) {
      RunDbsOnlyExecs(dbs, run);
      assert SetupSpec(s, env, run).state.log[|s.log|..] == RunDbs(dbs, run).executed;
    }
  }

  /** Each step of the launch runs only when the one before succeeded, and
      a failure leaves the log ending at the failed step: creating the
      file, building, obtaining the pipes, starting. */
  lemma SetupLaunchFailures(s: State, env: Env, run: DB -> Report<DbError>)
    requires !s.setupAttempted
    requires RunDbs(s.config.databaseSetups, run).outcome.Pass?
    ensures var root := s.config.appRoot;
      var before := s.log + RunDbs(s.config.databaseSetups, run).executed;
      var t := SetupSpec(s, env, run);
      && (env.tempFile.Failure? ==>
            t == Transition(s.(setupAttempted := true, log := before + [CreateTemp(root)]),
                            Fail(TempFileFailed(env.tempFile.error))))
      && (env.tempFile.Success? && env.build.Fail? ==>
            t == Transition(s.(setupAttempted := true, appPath := env.tempFile.value,
                               log := before + [CreateTemp(root), Build(root, env.tempFile.value)]),
                            Fail(BuildFailed(env.build.error))))
      && (env.tempFile.Success? && env.build.Pass? && env.stdoutPipe.Fail? ==>
            t == Transition(s.(setupAttempted := true, appPath := env.tempFile.value,
                               appProcess := Prepared(env.tempFile.value, s.config.appSetup.runArguments),
                               log := before + [CreateTemp(root), Build(root, env.tempFile.value)]),
                            Fail(StdoutPipeFailed(env.stdoutPipe.error))))
      && (env.tempFile.Success? && env.build.Pass? && env.stdoutPipe.Pass? && env.stderrPipe.Fail? ==>
            t == Transition(s.(setupAttempted := true, appPath := env.tempFile.value,
                               appProcess := Prepared(env.tempFile.value, s.config.appSetup.runArguments),
                               log := before + [CreateTemp(root), Build(root, env.tempFile.value)]),
                            Fail(StderrPipeFailed(env.stderrPipe.error))))
      && (env.tempFile.Success? && env.build.Pass? && env.stdoutPipe.Pass? && env.stderrPipe.Pass? && env.start.Fail? ==>
            t == Transition(s.(setupAttempted := true, appPath := env.tempFile.value,
                               appProcess := Prepared(env.tempFile.value, s.config.appSetup.runArguments),
                               log := before + [CreateTemp(root), Build(root, env.tempFile.value),
                                                Start(root, env.tempFile.value, s.config.appSetup.runArguments)]),
                            Fail(StartFailed(env.start.error))))
  {
  }

  /** When every step up to the start succeeds, the program is left
      running, and Setup succeeds iff the sentinel is a line of stdout or of
      stderr before the deadline; otherwise it fails with the timeout
      error naming the sentinel (tests/fixture_test.go:113-118). */
  lemma SetupReadiness(s: State, env: Env, run: DB -> Report<DbError>)
    requires !s.setupAttempted
    requires RunDbs(s.config.databaseSetups, run).outcome.Pass?
    requires env.tempFile.Success? && env.build.Pass? && env.stdoutPipe.Pass? && env.stderrPipe.Pass? && env.start.Pass?
    ensures var root := s.config.appRoot;
      var path := env.tempFile.value;
      var args := s.config.appSetup.runArguments;
      var sentinel := s.config.appSetup.waitForOutputLine;
      var t := SetupSpec(s, env, run);
      && t.state == s.(setupAttempted := true, appPath := path, appProcess := Running(path, args),
                       log := s.log + RunDbs(s.config.databaseSetups, run).executed
                              + [CreateTemp(root), Build(root, path), Start(root, path, args)])
      && (t.outcome == Pass <==> sentinel in env.stdoutLines || sentinel in env.stderrLines)
      && (t.outcome != Pass ==> t.outcome == Fail(ReadinessTimeout(sentinel)))
  {
  }

  /** Setup succeeds iff it is the first call, every database setup
      succeeds, every launch step succeeds and the sentinel is seen. */
  lemma SetupSucceedsIff(s: State, env: Env, run: DB -> Report<DbError>)
    ensures SetupSpec(s, env, run).outcome == Pass <==>
      && !s.setupAttempted
      && (forall j :: 0 <= j < |s.config.databaseSetups| ==> run(s.config.databaseSetups[j]).outcome.Pass?)
      && env.tempFile.Success? && env.build.Pass? && env.stdoutPipe.Pass? && env.stderrPipe.Pass? && env.start.Pass?
      && (s.config.appSetup.waitForOutputLine in env.stdoutLines ||
          s.config.appSetup.waitForOutputLine in env.stderrLines)
  {
    RunDbsPassIff(s.config.databaseSetups, run);
  }

  /** The error of a second Setup (tests/fixture_test.go:88-93). */
  lemma SetupTwiceText()
    ensures Message(SetupAlreadyCalled) ==
      "Setup() has already been called. Only run this function once for the test suite."
  {
  }

  /** The timeout error for the sentinel "Running" (tests/fixture_test.go:113-118). */
  lemma TimeoutText()
    ensures Message(ReadinessTimeout("Running")) ==
      "Timeout waiting for program to start. Was looking for output line \"Running\"."
  {
  }

  /** The error of Teardown before Setup (tests/fixture_test.go:177-182). */
  lemma TeardownBeforeSetupText()
    ensures Message(SetupNotRun(TeardownOp)) == "Please run Setup() first before calling Teardown()"
  {
  }

  /** The error of a second Teardown (tests/fixture_test.go:152-157). */
  lemma TeardownTwiceText()
    ensures Message(TeardownAlreadyCalled) ==
      "Teardown() has already been called. Only run this function once for the test suite."
  {
  }

  /** The error of a per-test phase after Teardown (fixture.go:166-168). */
  lemma TornDownText()
    ensures Message(AlreadyTornDown) == "Fixture has already been teared down"
  {
  }


  /** Teardown before Setup is refused, leaves the teardown flag unset and
      kills nothing (tests/fixture_test.go:177-182). */
  lemma TeardownBeforeSetup(s: State, env: Env, run: DB -> Report<DbError>)
    requires !s.setupAttempted
    ensures TeardownSpec(s, env, run) == Transition(s, Fail(SetupNotRun(TeardownOp)))
  {
  }

  /** After Setup, Teardown sets its flag whatever happens next, so a
      second Teardown is refused and changes nothing
      (tests/fixture_test.go:152-157). */
  lemma TeardownOnlyOnce(s: State, env: Env, later: Env, run: DB -> Report<DbError>)
    requires s.setupAttempted
    ensures TeardownSpec(s, env, run).state.teardownAttempted
    ensures var t := TeardownSpec(s, env, run).state;
      TeardownSpec(t, later, run) == Transition(t, Fail(TeardownAlreadyCalled))
  {
  }

  /** Teardown kills the program, then deletes it, then runs the database
      teardowns in order; the first failing step ends it. */
  lemma TeardownInOrder(s: State, env: Env, run: DB -> Report<DbError>)
    requires s.setupAttempted && !s.teardownAttempted && s.appProcess.Running?
    ensures var dbs := RunDbs(s.config.databaseTeardowns, run);
      var t := TeardownSpec(s, env, run);
      var flagged := s.(teardownAttempted := true);
      && (env.kill.Fail? ==>
            t == Transition(flagged.(log := s.log + [Kill]), Fail(KillFailed(env.kill.error))))
      && (env.kill.Pass? && env.remove(s.appPath).Fail? ==>
            t == Transition(flagged.(log := s.log + [Kill, Remove(s.appPath)]),
                            Fail(RemoveFailed(env.remove(s.appPath).error))))
      && (env.kill.Pass? && env.remove(s.appPath).Pass? ==>
            && t.state == flagged.(log := s.log + [Kill, Remove(s.appPath)] + dbs.executed)
            && (dbs.outcome.Pass? ==> t.outcome == Pass)
            && (dbs.outcome.Fail? ==>
                  t.outcome == Fail(DatabaseTeardownFailed(dbs.outcome.error.index, dbs.outcome.error.cause))))
  {
  }

  /** Teardown succeeds iff Setup ran, Teardown did not, the program is
      running, the kill and delete succeed and every database teardown
      does. */
  lemma TeardownSucceedsIff(s: State, env: Env, run: DB -> Report<DbError>)
    ensures TeardownSpec(s, env, run).outcome == Pass <==>
      && s.setupAttempted && !s.teardownAttempted && s.appProcess.Running?
      && env.kill.Pass? && env.remove(s.appPath).Pass?
      && forall j :: 0 <= j < |s.config.databaseTeardowns| ==> run(s.config.databaseTeardowns[j]).outcome.Pass?
  {
    RunDbsPassIff(s.config.databaseTeardowns, run);
  }

  /** TestSetup and TestTeardown are refused unless Setup was attempted and
      Teardown was not; otherwise they change nothing but the log, which
      grows by the routines' run. */
  lemma TestRoutinesGate(s: State, phase: Phase, run: DB -> Report<DbError>)
    ensures var t := TestRoutinesSpec(s, phase, run);
      var routines := RoutinesOf(s, phase);
      && (!s.setupAttempted ==> t.state == s && t.outcome.Fail? && t.outcome.error.SetupNotRun?)
      && (s.setupAttempted && s.teardownAttempted ==> t == Transition(s, Fail(AlreadyTornDown)))
      && (s.setupAttempted && !s.teardownAttempted ==>
            && t.state == s.(log := s.log + RunRoutines(routines, phase, run).executed)
            && (t.outcome == Pass <==> forall j :: 0 <= j < |routines| ==> RoutineDbsPass(routines[j], run)))
  {
    RunRoutinesPassIff(RoutinesOf(s, phase), phase, run);
  }

  /** A failing TestSetup or TestTeardown names the first failing routine
      and its failing database; the routines before it ran in full, and
      nothing after it ran. */
  lemma TestRoutinesFailure(s: State, phase: Phase, run: DB -> Report<DbError>)
    requires s.setupAttempted && !s.teardownAttempted
    requires TestRoutinesSpec(s, phase, run).outcome.Fail?
    ensures var routines := RoutinesOf(s, phase);
      var e := TestRoutinesSpec(s, phase, run).outcome.error;
      && e.RoutineFailed? && e.phase == phase && e.routine < |routines|
      && (forall j :: 0 <= j < e.routine ==> RoutineDbsPass(routines[j], run))
      && RunDbs(routines[e.routine].databaseRoutines, run).outcome == Fail(Indexed(e.dbIndex, e.cause))
      && TestRoutinesSpec(s, phase, run).state.log ==
           s.log + RunRoutines(routines[..e.routine + 1], phase, run).executed
  {
    RunRoutinesFirstFailure(RoutinesOf(s, phase), phase, run);
  }

  /** The callback of routine i of a phase runs in TestSetup or
      TestTeardown iff the call passed the gate, the routine has a callback
      and the databases of routines 0..i succeeded. */
  lemma TestRoutinesCallbacks(s: State, phase: Phase, run: DB -> Report<DbError>, i: nat)
    requires ExecOnly(run)
    ensures var t := TestRoutinesSpec(s, phase, run).state;
      var routines := RoutinesOf(s, phase);
      Callback(phase, i) in t.log[|s.log|..] <==>
        && s.setupAttempted && !s.teardownAttempted
        && i < |routines| && routines[i].hasFunc
        && forall j :: 0 <= j <= i ==> RoutineDbsPass(routines[j], run)
  {
    var t := TestRoutinesSpec(s, phase, run).state;
    if s.setupAttempted && !s.teardownAttempted {
      CallbackRunsIff(RoutinesOf(s, phase), phase, run, i);
      assert t.log[|s.log|..] == RunRoutines(RoutinesOf(s, phase), phase, run).executed;
    } else {
      assert t.log[|s.log|..] == [];
    }
  }

  /** Close drops Teardown's error and then kills a started program and
      deletes an existing binary; when Teardown was already attempted it
      is not run again and no database script runs. */
  lemma CloseSteps(s: State, env: Env, run: DB -> Report<DbError>)
    ensures !s.teardownAttempted ==> CloseSpec(s, env, run) == CloseCleanup(TeardownSpec(s, env, run).state, env)
    ensures s.teardownAttempted ==>
      CloseSpec(s, env, run) == s.(log := s.log + (if s.appProcess.Running? then [Kill] else [])
                                           + (if env.fileExists(s.appPath) then [Remove(s.appPath)] else []))
    ensures s.setupAttempted ==> CloseSpec(s, env, run).teardownAttempted
    ensures !s.setupAttempted ==> CloseSpec(s, env, run).teardownAttempted == s.teardownAttempted
  {
  }

  /** Close never leaves a started program without a kill after it: when
      the program was running, a Kill is among the events Close adds. */
  lemma CloseKillsRunningProgram(s: State, env: Env, run: DB -> Report<DbError>)
    requires s.appProcess.Running?
    ensures Kill in CloseSpec(s, env, run).log[|s.log|..]
  {
    var u := if !s.teardownAttempted then TeardownSpec(s, env, run).state else s;
    assert s.log <= u.log;
    assert u.appProcess.Running?;
    var c := CloseSpec(s, env, run);
    var k := |u.log|;
    assert c.log[k] == Kill;
    assert c.log[|s.log|..][k - |s.log|] == Kill;
  }

  /** When Setup stopped before starting the program, Teardown reports
      that there is nothing to kill, and Close still marks the fixture torn
      down and deletes an existing binary without attempting a kill. */
  lemma CloseAfterFailedSetupCleansUp(s: State, env: Env, run: DB -> Report<DbError>)
    requires s.setupAttempted && !s.teardownAttempted && !s.appProcess.Running?
    ensures TeardownSpec(s, env, run) == Transition(s.(teardownAttempted := true), Fail(NoProcessToKill))
    ensures CloseSpec(s, env, run) ==
      s.(teardownAttempted := true,
         log := s.log + (if env.fileExists(s.appPath) then [Remove(s.appPath)] else []))
  {
  }

  /** The binary is deleted once: when Close's own Teardown removed it, and
      a successful removal leaves no file for `os.Stat` to find, Close kills
      twice but issues a single removal. */
  lemma CloseRemovesOnce(s: State, env: Env, run: DB -> Report<DbError>)
    requires ExecOnly(run)
    requires s.setupAttempted && !s.teardownAttempted && s.appProcess.Running?
    requires env.kill.Pass? && env.remove(s.appPath).Pass?
    requires env.remove(s.appPath).Pass? ==> !env.fileExists(s.appPath)
    ensures var t := CloseSpec(s, env, run);
      var dbs := RunDbs(s.config.databaseTeardowns, run).executed;
      && t.log == s.log + [Kill, Remove(s.appPath)] + dbs + [Kill]
      && multiset(t.log[|s.log|..])[Remove(s.appPath)] == 1
  {
    var dbs := RunDbs(s.config.databaseTeardowns, run).executed;
    var t := CloseSpec(s, env, run);
    RunDbsOnlyExecs(s.config.databaseTeardowns, run);
    assert t.log[|s.log|..] == [Kill, Remove(s.appPath)] + dbs + [Kill];
  }

  // ---------------------------------------------------------------------
  // The loops, as fixture.go runs them

  /** One `for i, dbSetup := range ...` loop of fixture.go: runs each
      database with `DB.run`, in order, and returns at the first error with
      its index. */
  method RunEach(dbs: seq<DB>, appRoot: string, env: DbEnv) returns (r: Report<Indexed>)
    ensures r == RunDbs(dbs, DbRun(appRoot, env))
  {
    ghost var run := DbRun(appRoot, env);
    var executed: seq<Event> := [];
    var i := 0;
    assert dbs[..0] == [];
    while i < |dbs|
      invariant 0 <= i <= |dbs|
      invariant RunDbs(dbs[..i], run) == Report(Pass, executed)
    {
      var x := Run(dbs[i], appRoot, env);
      assert x == run(dbs[i]);
      assert dbs[..i + 1][..i] == dbs[..i];
      if x.outcome.Fail? {
        RunDbsStops(dbs, i + 1, run);
        return Report(Fail(Indexed(i, x.outcome.error)), executed + x.executed);
      }
      executed := executed + x.executed;
      i := i + 1;
    }
    assert dbs[..i] == dbs;
    r := Report(Pass, executed);
  }

  /** The routine loop of TestSetup and TestTeardown: for each routine, its
      databases, then its callback if it has one. */
  method RunEachRoutine(routines: seq<UnitTest>, phase: Phase, appRoot: string, env: DbEnv)
    returns (r: Report<RoutineFailure>)
    ensures r == RunRoutines(routines, phase, DbRun(appRoot, env))
  {
    ghost var run := DbRun(appRoot, env);
    var executed: seq<Event> := [];
    var i := 0;
    assert routines[..0] == [];
    while i < |routines|
      invariant 0 <= i <= |routines|
      invariant RunRoutines(routines[..i], phase, run) == Report(Pass, executed)
    {
      var routine := routines[i];
      var x := RunEach(routine.databaseRoutines, appRoot, env);
      assert routines[..i + 1][..i] == routines[..i];
      if x.outcome.Fail? {
        RunRoutinesStops(routines, i + 1, phase, run);
        return Report(Fail(RoutineFailure(x.outcome.error.index, i, x.outcome.error.cause)), executed + x.executed);
      }
      executed := executed + x.executed;
      if routine.hasFunc {
        executed := executed + [Callback(phase, i)];
      }
      i := i + 1;
    }
    assert routines[..i] == routines;
    r := Report(Pass, executed);
  }

  // ---------------------------------------------------------------------
  // The Fixture object

  class Fixture {
    var config: FixtureConfig
    var testSetups: seq<UnitTest>
    var testTeardowns: seq<UnitTest>
    var appPath: string
    var appProcess: Process
    var alreadyAttemptedSetup: bool
    var alreadyAttemptedTeardown: bool
    /** What the fixture has done to the world so far. */
    ghost var log: seq<Event>

    ghost function Current(): State
      reads this
    {
      State(config, testSetups, testTeardowns, appPath, appProcess,
            alreadyAttemptedSetup, alreadyAttemptedTeardown, log)
    }

    /** The fixture NewFixture builds around a configuration (main.go:111, 141). */
    constructor (config: FixtureConfig)
      ensures Current() == Initial(config)
    {
      this.config := config;
      testSetups, testTeardowns := [], [];
      appPath, appProcess := "", NoProcess;
      alreadyAttemptedSetup, alreadyAttemptedTeardown := false, false;
      log := [];
    }

    method Setup(env: Env, db: DbEnv) returns (r: Outcome<FixtureError>)
      modifies this
      ensures Transition(Current(), r) == SetupSpec(old(Current()), env, DbRun(old(config.appRoot), db))
    {
      if alreadyAttemptedSetup {
        return Fail(SetupAlreadyCalled);
      }
      alreadyAttemptedSetup := true;

      var dbs := RunEach(config.databaseSetups, config.appRoot, db);
      log := log + dbs.executed;
      if dbs.outcome.Fail? {
        return Fail(DatabaseSetupFailed(dbs.outcome.error.index, dbs.outcome.error.cause));
      }
      r := Launch(env);
    }

    /** Build, start and wait for readiness (fixture.go:40-115). */
    method Launch(env: Env) returns (r: Outcome<FixtureError>)
      modifies this
      ensures Transition(Current(), r) == LaunchSpec(old(Current()), env)
    {
      var appRoot := config.appRoot;
      log := log + [CreateTemp(appRoot)];
      if env.tempFile.Failure? {
        return Fail(TempFileFailed(env.tempFile.error));
      }
      appPath := env.tempFile.value;

      log := log + [Build(appRoot, appPath)];
      if env.build.Fail? {
        return Fail(BuildFailed(env.build.error));
      }

      var args := config.appSetup.runArguments;
      appProcess := Prepared(appPath, args);
      if env.stdoutPipe.Fail? {
        return Fail(StdoutPipeFailed(env.stdoutPipe.error));
      }
      if env.stderrPipe.Fail? {
        return Fail(StderrPipeFailed(env.stderrPipe.error));
      }

      log := log + [Start(appRoot, appPath, args)];
      if env.start.Fail? {
        return Fail(StartFailed(env.start.error));
      }
      appProcess := Running(appPath, args);

      var sentinel := config.appSetup.waitForOutputLine;
      var outDone, _ := Scan(env.stdoutLines, sentinel);
      var errDone, _ := Scan(env.stderrLines, sentinel);
      if outDone || errDone {
        r := Pass;
      } else {
        r := Fail(ReadinessTimeout(sentinel));
      }
    }

    method Teardown(env: Env, db: DbEnv) returns (r: Outcome<FixtureError>)
      modifies this
      ensures Transition(Current(), r) == TeardownSpec(old(Current()), env, DbRun(old(config.appRoot), db))
    {
      if !alreadyAttemptedSetup {
        return Fail(SetupNotRun(TeardownOp));
      }
      if alreadyAttemptedTeardown {
        return Fail(TeardownAlreadyCalled);
      }
      alreadyAttemptedTeardown := true;

      if !appProcess.Running? {
        return Fail(NoProcessToKill);
      }
      log := log + [Kill];
      if env.kill.Fail? {
        return Fail(KillFailed(env.kill.error));
      }

      log := log + [Remove(appPath)];
      var removed := env.remove(appPath);
      if removed.Fail? {
        return Fail(RemoveFailed(removed.error));
      }

      var dbs := RunEach(config.databaseTeardowns, config.appRoot, db);
      log := log + dbs.executed;
      if dbs.outcome.Fail? {
        return Fail(DatabaseTeardownFailed(dbs.outcome.error.index, dbs.outcome.error.cause));
      }
      r := Pass;
    }

    method AddTestSetup(setup: UnitTest)
      modifies this
      ensures Current() == old(Current()).(testSetups := old(testSetups) + [setup])
    {
      testSetups := testSetups + [setup];
    }

    method AddTestTeardown(teardown: UnitTest)
      modifies this
      ensures Current() == old(Current()).(testTeardowns := old(testTeardowns) + [teardown])
    {
      testTeardowns := testTeardowns + [teardown];
    }

    method TestSetup(db: DbEnv) returns (r: Outcome<FixtureError>)
      modifies this
      ensures Transition(Current(), r) == TestRoutinesSpec(old(Current()), PerTestSetup, DbRun(old(config.appRoot), db))
    {
      if !alreadyAttemptedSetup {
        return Fail(SetupNotRun(TestSetupOp));
      }
      if alreadyAttemptedTeardown {
        return Fail(AlreadyTornDown);
      }
      var run := RunEachRoutine(testSetups, PerTestSetup, config.appRoot, db);
      log := log + run.executed;
      if run.outcome.Fail? {
        return Fail(RoutineFailed(PerTestSetup, run.outcome.error.dbIndex, run.outcome.error.routine, run.outcome.error.cause));
      }
      r := Pass;
    }

    method TestTeardown(db: DbEnv) returns (r: Outcome<FixtureError>)
      modifies this
      ensures Transition(Current(), r) == TestRoutinesSpec(old(Current()), PerTestTeardown, DbRun(old(config.appRoot), db))
    {
      if !alreadyAttemptedSetup {
        return Fail(SetupNotRun(TestTeardownOp));
      }
      if alreadyAttemptedTeardown {
        return Fail(AlreadyTornDown);
      }
      var run := RunEachRoutine(testTeardowns, PerTestTeardown, config.appRoot, db);
      log := log + run.executed;
      if run.outcome.Fail? {
        return Fail(RoutineFailed(PerTestTeardown, run.outcome.error.dbIndex, run.outcome.error.routine, run.outcome.error.cause));
      }
      r := Pass;
    }

    method Close(env: Env, db: DbEnv)
      modifies this
      ensures Current() == CloseSpec(old(Current()), env, DbRun(old(config.appRoot), db))
    {
      if !alreadyAttemptedTeardown {
        var ignored := Teardown(env, db);
      }
      if appProcess.Running? {
        log := log + [Kill];
      }
      if env.fileExists(appPath) {
        log := log + [Remove(appPath)];
      }
    }
  }

  /** NewFixture (main.go:110-144): validates the configuration and returns
      a fixture around the normalised configuration, or a fixture with the
      zero configuration and the error. */
  method NewFixture(config: FixtureConfig, fs: Config.FileSystem) returns (fixture: Fixture, err: Outcome<Config.ConfigError>)
    ensures fresh(fixture)
    ensures Config.Validate(config, fs).Success? ==>
      err == Pass && fixture.Current() == Initial(Config.Validate(config, fs).value)
    ensures Config.Validate(config, fs).Failure? ==>
      err == Fail(Config.Validate(config, fs).error) && fixture.Current() == Initial(ZeroConfig)
  {
    var v := Config.Validate(config, fs);
    if v.Failure? {
      fixture := new Fixture(ZeroConfig);
      err := Fail(v.error);
    } else {
      fixture := new Fixture(v.value);
      err := Pass;
    }
  }
}
