/** The database script runner, `DB.run` (db.go:25-63). */
module DbRunner {

  import opened Wrappers
  import opened Types
  import Utils

  /** What `ioutil.ReadFile` returns: the bytes it read, which may stop
      short of the whole file, and the error that stopped it, if any. */
  datatype ReadResult = ReadResult(data: string, error: Option<string>)

  /** The foreign calls the runner makes, as oracles. A `Fail` or `Failure`
      carries the message of the Go error. */
  datatype DbEnv = DbEnv(
    open: DBConn -> Outcome<string>,               // sql.Open
    join: (string, string) -> string,              // filepath.Join
    glob: string -> Result<seq<string>, string>,   // filepath.Glob
    readFile: string -> ReadResult,                // ioutil.ReadFile
    exec: (DBConn, string) -> Outcome<string>)     // db.Exec

  /** Why a run stopped, naming the offending script. */
  datatype DbError =
    | ConnectFailed(detail: string)
    | ScriptFailed(excerpt: string, detail: string)
    | GlobFailed(pattern: string, detail: string)
    | FileFailed(file: string, detail: string)

  /** The Go error text of each failure (db.go:28, 43, 49, 56). Each wraps
      the error that caused it: the cause's text comes last, and the
      failing script is named, in quotes, just before it. */
  function Message(e: DbError): (r: string)
    ensures Utils.EndsWith(r, e.detail)
    ensures e.ScriptFailed? ==> Utils.EndsWith(r, "\"" + e.excerpt + "\": " + e.detail)
    ensures e.GlobFailed? ==> Utils.EndsWith(r, "\"" + e.pattern + "\": " + e.detail)
    ensures e.FileFailed? ==> Utils.EndsWith(r, "\"" + e.file + "\": " + e.detail)
  {
    match e
    case ConnectFailed(d) => "Error connecting to database: " + d
    case ScriptFailed(x, d) => "Error running script \"" + x + "\": " + d
    case GlobFailed(p, d) => "Error getting files from path \"" + p + "\": " + d
    case FileFailed(f, d) => "Error executing script \"" + f + "\": " + d
  }

  /** How much of a failing literal command its error message shows. */
  const ExcerptLength: nat := 40
  const ExcerptAffix := "..."

  function Excerpt(command: string): string {
    Utils.Truncate(command, ExcerptLength, ExcerptAffix)
  }

  /** The excerpt shows the first 40 bytes of the command, and at most 43
      bytes in all. */
  lemma ExcerptShape(command: string)
    ensures |Excerpt(command)| <= ExcerptLength + |ExcerptAffix|
    ensures |command| <= ExcerptLength ==> Excerpt(command) == command
    ensures |command| > ExcerptLength ==> command[..ExcerptLength] <= Excerpt(command)
  {
  }

  /** The scripts a run considers, in order: the single `Script` when its
      tag is one the runner knows, then `Scripts`. */
  function ScriptList(db: DB): seq<Script> {
    (if db.script.Runnable() then [db.script] else []) + db.scripts
  }

  /** What an executed command is blamed as when it fails. */
  datatype Offender = LiteralText(excerpt: string) | ScriptFile(path: string)

  /** One step of a run: send a command, or stop with an error. */
  datatype Step = Command(text: string, offender: Offender) | Abort(error: DbError)

  function Blame(o: Offender, detail: string): DbError {
    match o
    case LiteralText(x) => ScriptFailed(x, detail)
    case ScriptFile(f) => FileFailed(f, detail)
  }

  /** The command run for a matched file: whatever bytes the read
      returned, even when it also returned an error, since that error is
      overwritten before it is looked at (db.go:53-54). */
  function FileText(file: string, env: DbEnv): string {
    env.readFile(file).data
  }

  function FileSteps(files: seq<string>, env: DbEnv): seq<Step> {
    seq(|files|, k requires 0 <= k < |files| => Command(FileText(files[k], env), ScriptFile(files[k])))
  }

  /** The steps one script stands for: a literal is one command; a path is
      globbed under the application root and each match is one command, or
      the glob's error; any other tag stands for nothing. */
  function Expand(s: Script, appRoot: string, env: DbEnv): seq<Step> {
    if s.kind == ScriptTypeLiteral then [Command(s.command, LiteralText(Excerpt(s.command)))]
    else if s.kind == ScriptTypePath then
      match env.glob(env.join(appRoot, s.command))
      case Failure(d) => [Abort(GlobFailed(s.command, d))]
      case Success(files) => FileSteps(files, env)
    else []
  }

  function Plan(scripts: seq<Script>, appRoot: string, env: DbEnv): seq<Step> {
    if scripts == [] then [] else Expand(scripts[0], appRoot, env) + Plan(scripts[1..], appRoot, env)
  }

  /** Performs steps in order on one connection, stopping at the first that
      fails. */
  function Perform(steps: seq<Step>, conn: DBConn, env: DbEnv): Report<DbError> {
    if steps == [] then Report(Pass, [])
    else match steps[0]
      case Abort(e) => Report(Fail(e), [])
      case Command(t, o) =>
        match env.exec(conn, t)
        case Fail(d) => Report(Fail(Blame(o, d)), [Exec(conn, t)])
        case Pass =>
          var rest := Perform(steps[1..], conn, env);
          Report(rest.outcome, [Exec(conn, t)] + rest.executed)
  }

  /** The specification of a run: open the connection, then perform the
      plan of the script list. */
  function RunSpec(db: DB, appRoot: string, env: DbEnv): Report<DbError> {
    match env.open(db.connection)
    case Fail(d) => Report(Fail(ConnectFailed(d)), [])
    case Pass => Perform(Plan(ScriptList(db), appRoot, env), db.connection, env)
  }

  /** A step that runs a command the database accepts. */
  predicate Succeeds(step: Step, conn: DBConn, env: DbEnv) {
    step.Command? && env.exec(conn, step.text).Pass?
  }

  /** The error a failing step produces. */
  function FailureOf(step: Step, conn: DBConn, env: DbEnv): DbError
    requires !Succeeds(step, conn, env)
  {
    match step
    case Abort(e) => e
    case Command(t, o) => Blame(o, env.exec(conn, t).error)
  }

  /** The commands a sequence of steps sends, in order. */
  function Sent(steps: seq<Step>, conn: DBConn): seq<Event> {
    if steps == [] then []
    else (if steps[0].Command? then [Exec(conn, steps[0].text)] else []) + Sent(steps[1..], conn)
  }

  lemma {:induction false} SentAppend(a: seq<Step>, b: seq<Step>, conn: DBConn)
    ensures Sent(a + b, conn) == Sent(a, conn) + Sent(b, conn)
  {
    if a == [] {
      assert a + b == b;
    } else {
      assert (a + b)[0] == a[0];
      assert (a + b)[1..] == a[1..] + b;
      SentAppend(a[1..], b, conn);
    }
  }

  /** Performing `a + b` performs `a` and, only if all of it succeeds, `b`. */
  lemma {:induction false} PerformAppend(a: seq<Step>, b: seq<Step>, conn: DBConn, env: DbEnv)
    ensures Perform(a + b, conn, env) ==
      if Perform(a, conn, env).outcome.Fail? then Perform(a, conn, env)
      else Report(Perform(b, conn, env).outcome, Perform(a, conn, env).executed + Perform(b, conn, env).executed)
  {
    if a == [] {
      assert a + b == b;
    } else {
      assert (a + b)[0] == a[0];
      assert (a + b)[1..] == a[1..] + b;
      PerformAppend(a[1..], b, conn, env);
      if a[0].Command? && env.exec(conn, a[0].text).Pass? {
        var x := [Exec(conn, a[0].text)];
        assert x + (Perform(a[1..], conn, env).executed + Perform(b, conn, env).executed)
            == (x + Perform(a[1..], conn, env).executed) + Perform(b, conn, env).executed;
      }
    }
  }

  /** A run succeeds iff every step of it succeeds, and then it has sent
      every command of the plan. */
  lemma {:induction false} PerformPassIff(steps: seq<Step>, conn: DBConn, env: DbEnv)
    ensures Perform(steps, conn, env).outcome.Pass? <==>
      forall k :: 0 <= k < |steps| ==> Succeeds(steps[k], conn, env)
    ensures Perform(steps, conn, env).outcome.Pass? ==> Perform(steps, conn, env).executed == Sent(steps, conn)
  {
    if steps != [] {
      PerformPassIff(steps[1..], conn, env);
      if Succeeds(steps[0], conn, env) {
        forall k | 0 < k < |steps|
          ensures Succeeds(steps[k], conn, env) == Succeeds(steps[1..][k - 1], conn, env)
        {
        }
      }
    }
  }

  /** When step k is the first that fails, the run fails with its error,
      and exactly the commands of steps 0..k have been sent: nothing later
      runs. */
  lemma {:induction false} PerformFirstFailure(steps: seq<Step>, conn: DBConn, env: DbEnv, k: nat)
    requires k < |steps|
    requires forall j :: 0 <= j < k ==> Succeeds(steps[j], conn, env)
    requires !Succeeds(steps[k], conn, env)
    ensures Perform(steps, conn, env) == Report(Fail(FailureOf(steps[k], conn, env)), Sent(steps[..k + 1], conn))
  {
    if k == 0 {
      assert steps[..1] == [steps[0]];
    } else {
      assert steps[1..][..k] == steps[1..k + 1];
      assert steps[..k + 1] == [steps[0]] + steps[1..k + 1];
      PerformFirstFailure(steps[1..], conn, env, k - 1);
      assert Succeeds(steps[0], conn, env);
    }
  }

  /** Everything a run does to the world is a database command. */
  lemma {:induction false} PerformOnlyExecs(steps: seq<Step>, conn: DBConn, env: DbEnv)
    ensures OnlyExecs(Perform(steps, conn, env).executed)
  {
    if steps != [] {
      PerformOnlyExecs(steps[1..], conn, env);
    }
  }

  lemma RunOnlyExecs(db: DB, appRoot: string, env: DbEnv)
    ensures OnlyExecs(RunSpec(db, appRoot, env).executed)
  {
    PerformOnlyExecs(Plan(ScriptList(db), appRoot, env), db.connection, env);
  }

  lemma {:induction false} PlanAppend(a: seq<Script>, b: seq<Script>, appRoot: string, env: DbEnv)
    ensures Plan(a + b, appRoot, env) == Plan(a, appRoot, env) + Plan(b, appRoot, env)
  {
    if a == [] {
      assert a + b == b;
    } else {
      assert (a + b)[0] == a[0];
      assert (a + b)[1..] == a[1..] + b;
      PlanAppend(a[1..], b, appRoot, env);
    }
  }

  /** The scripts with a tag the runner knows. */
  function Runnables(scripts: seq<Script>): seq<Script> {
    if scripts == [] then []
    else (if scripts[0].Runnable() then [scripts[0]] else []) + Runnables(scripts[1..])
  }

  /** Scripts whose tag is neither literal nor path are skipped without
      error: removing them changes nothing a run does. */
  lemma {:induction false} UnrunnableSkipped(scripts: seq<Script>, appRoot: string, env: DbEnv)
    ensures Plan(scripts, appRoot, env) == Plan(Runnables(scripts), appRoot, env)
  {
    if scripts != [] {
      UnrunnableSkipped(scripts[1..], appRoot, env);
      var head := if scripts[0].Runnable() then [scripts[0]] else [];
      PlanAppend(head, Runnables(scripts[1..]), appRoot, env);
      assert Plan(head, appRoot, env) == Expand(scripts[0], appRoot, env) by {
        if head != [] {
          assert head[1..] == [];
        }
      }
    }
  }

  /** A read error is never looked at: a run behaves exactly as if every
      read had succeeded with the bytes it did return, so a file that could
      not be read, or was read only in part, runs what was read, and a read
      error on its own never stops the run. */
  lemma ReadErrorIgnored(db: DB, appRoot: string, env: DbEnv)
    ensures RunSpec(db, appRoot, env) ==
      RunSpec(db, appRoot, env.(readFile := (f: string) => ReadResult(env.readFile(f).data, None)))
  {
    var env' := env.(readFile := (f: string) => ReadResult(env.readFile(f).data, None));
    PlanIgnoresReadErrors(ScriptList(db), appRoot, env, env');
    assert forall steps :: Perform(steps, db.connection, env) == Perform(steps, db.connection, env') by {
      forall steps ensures Perform(steps, db.connection, env) == Perform(steps, db.connection, env') {
        PerformSameExec(steps, db.connection, env, env');
      }
    }
  }

  lemma {:induction false} PerformSameExec(steps: seq<Step>, conn: DBConn, env: DbEnv, env': DbEnv)
    requires env'.exec == env.exec
    ensures Perform(steps, conn, env) == Perform(steps, conn, env')
  {
    if steps != [] {
      PerformSameExec(steps[1..], conn, env, env');
    }
  }

  lemma {:induction false} PlanIgnoresReadErrors(scripts: seq<Script>, appRoot: string, env: DbEnv, env': DbEnv)
    requires env'.join == env.join && env'.glob == env.glob
    requires forall f :: FileText(f, env) == FileText(f, env')
    ensures Plan(scripts, appRoot, env) == Plan(scripts, appRoot, env')
  {
    if scripts != [] {
      PlanIgnoresReadErrors(scripts[1..], appRoot, env, env');
      var s := scripts[0];
      if s.kind == ScriptTypePath {
        var g := env.glob(env.join(appRoot, s.command));
        if g.Success? {
          assert FileSteps(g.value, env) == FileSteps(g.value, env');
        }
      }
    }
  }

  /** A run succeeds iff the connection opens and every command of its plan
      succeeds; a connection failure is reported before any command. */
  lemma RunSucceedsIff(db: DB, appRoot: string, env: DbEnv)
    ensures env.open(db.connection).Fail? ==>
      RunSpec(db, appRoot, env) == Report(Fail(ConnectFailed(env.open(db.connection).error)), [])
    ensures RunSpec(db, appRoot, env).outcome.Pass? <==>
      env.open(db.connection).Pass? &&
      forall k :: 0 <= k < |Plan(ScriptList(db), appRoot, env)| ==>
        Succeeds(Plan(ScriptList(db), appRoot, env)[k], db.connection, env)
    ensures RunSpec(db, appRoot, env).outcome.Pass? ==>
      RunSpec(db, appRoot, env).executed == Sent(Plan(ScriptList(db), appRoot, env), db.connection)
  {
    PerformPassIff(Plan(ScriptList(db), appRoot, env), db.connection, env);
    if env.open(db.connection).Pass? {
      assert RunSpec(db, appRoot, env) == Perform(Plan(ScriptList(db), appRoot, env), db.connection, env);
    }
  }

  /** A database holding `NewScript(c)` alone runs the literal command `c`,
      and a failure names the 40-byte excerpt of `c`. */
  lemma NewScriptRunsLiteral(conn: DBConn, c: string, appRoot: string, env: DbEnv)
    requires env.open(conn).Pass?
    ensures RunSpec(DB(conn, NewScript(c), []), appRoot, env) ==
      match env.exec(conn, c)
      case Pass => Report(Pass, [Exec(conn, c)])
      case Fail(d) => Report(Fail(ScriptFailed(Excerpt(c), d)), [Exec(conn, c)])
  {
    var db := DB(conn, NewScript(c), []);
    var step := Command(c, LiteralText(Excerpt(c)));
    assert ScriptList(db) == [NewScript(c)];
    assert Plan([NewScript(c)], appRoot, env) == [step] by {
      assert [NewScript(c)][1..] == [];
    }
    assert RunSpec(db, appRoot, env) == Perform([step], conn, env);
    assert [step][1..] == [];
  }

  /** A database holding `NewScriptPath(p)` alone globs `p` under the
      application root: a glob error names `p`, otherwise each match is run
      as a file. */
  lemma NewScriptPathGlobs(conn: DBConn, p: string, appRoot: string, env: DbEnv)
    requires env.open(conn).Pass?
    ensures env.glob(env.join(appRoot, p)).Failure? ==>
      RunSpec(DB(conn, NewScriptPath(p), []), appRoot, env) ==
        Report(Fail(GlobFailed(p, env.glob(env.join(appRoot, p)).error)), [])
    ensures env.glob(env.join(appRoot, p)).Success? ==>
      RunSpec(DB(conn, NewScriptPath(p), []), appRoot, env) ==
        Perform(FileSteps(env.glob(env.join(appRoot, p)).value, env), conn, env)
  {
    var db := DB(conn, NewScriptPath(p), []);
    assert ScriptList(db) == [NewScriptPath(p)];
    assert [NewScriptPath(p)][1..] == [];
    var steps := Expand(NewScriptPath(p), appRoot, env);
    assert Plan([NewScriptPath(p)], appRoot, env) == steps + [];
    assert steps + [] == steps;
    assert RunSpec(db, appRoot, env) == Perform(steps, conn, env);
  }

  lemma PerformExtend(steps: seq<Step>, p: nat, conn: DBConn, env: DbEnv)
    requires p < |steps| && Succeeds(steps[p], conn, env)
    requires Perform(steps[..p], conn, env).outcome.Pass?
    ensures Perform(steps[..p + 1], conn, env) ==
      Report(Pass, Perform(steps[..p], conn, env).executed + [Exec(conn, steps[p].text)])
  {
    assert steps[..p + 1] == steps[..p] + [steps[p]];
    PerformAppend(steps[..p], [steps[p]], conn, env);
    assert [steps[p]][1..] == [];
  }

  lemma PerformFailsAt(steps: seq<Step>, p: nat, conn: DBConn, env: DbEnv)
    requires p < |steps| && !Succeeds(steps[p], conn, env)
    requires Perform(steps[..p], conn, env).outcome.Pass?
    ensures Perform(steps, conn, env) ==
      Report(Fail(FailureOf(steps[p], conn, env)),
        Perform(steps[..p], conn, env).executed + (if steps[p].Command? then [Exec(conn, steps[p].text)] else []))
  {
    assert steps == steps[..p] + steps[p..];
    PerformAppend(steps[..p], steps[p..], conn, env);
    assert steps[p..][0] == steps[p];
  }

  lemma PlanStep(scripts: seq<Script>, i: nat, appRoot: string, env: DbEnv)
    requires i < |scripts|
    ensures Plan(scripts[..i + 1], appRoot, env) == Plan(scripts[..i], appRoot, env) + Expand(scripts[i], appRoot, env)
  {
    assert scripts[..i + 1] == scripts[..i] + [scripts[i]];
    PlanAppend(scripts[..i], [scripts[i]], appRoot, env);
    assert [scripts[i]][1..] == [];
  }

  /** Running script i after scripts 0..i-1 all succeeded: the prefix run
      grows by what script i does, and if script i fails so does the whole
      run, with nothing after it sent. */
  lemma ScriptStep(scripts: seq<Script>, i: nat, appRoot: string, conn: DBConn, env: DbEnv)
    requires i < |scripts|
    requires Perform(Plan(scripts[..i], appRoot, env), conn, env).outcome.Pass?
    ensures var prev := Perform(Plan(scripts[..i], appRoot, env), conn, env);
      var x := Perform(Expand(scripts[i], appRoot, env), conn, env);
      && Perform(Plan(scripts[..i + 1], appRoot, env), conn, env) == Report(x.outcome, prev.executed + x.executed)
      && (x.outcome.Fail? ==> Perform(Plan(scripts, appRoot, env), conn, env) == Report(x.outcome, prev.executed + x.executed))
  {
    PlanStep(scripts, i, appRoot, env);
    PerformAppend(Plan(scripts[..i], appRoot, env), Expand(scripts[i], appRoot, env), conn, env);
    assert scripts == scripts[..i + 1] + scripts[i + 1..];
    PlanAppend(scripts[..i + 1], scripts[i + 1..], appRoot, env);
    PerformAppend(Plan(scripts[..i + 1], appRoot, env), Plan(scripts[i + 1..], appRoot, env), conn, env);
  }

  /** The loop over the matches of one path script (db.go:52-58): each file
      is read and executed in enumeration order; the first failing exec
      stops the loop and names the file. */
  method ExecFiles(files: seq<string>, conn: DBConn, env: DbEnv) returns (r: Report<DbError>)
    ensures r == Perform(FileSteps(files, env), conn, env)
  {
    ghost var steps := FileSteps(files, env);
    var executed: seq<Event> := [];
    var j := 0;
    assert steps[..0] == [];
    while j < |files|
      invariant 0 <= j <= |files|
      invariant Perform(steps[..j], conn, env) == Report(Pass, executed)
    {
      var file := files[j];
      var read := env.readFile(file);
      var text := read.data;
      match env.exec(conn, text) {
        case Fail(d) =>
          PerformFailsAt(steps, j, conn, env);
          return Report(Fail(FileFailed(file, d)), executed + [Exec(conn, text)]);
        case Pass =>
          PerformExtend(steps, j, conn, env);
          executed := executed + [Exec(conn, text)];
      }
      j := j + 1;
    }
    assert steps[..j] == steps;
    r := Report(Pass, executed);
  }

  /** One iteration of the script loop (db.go:40-59): a literal is
      executed, a path is globbed and its matches executed, any other tag
      does nothing. */
  method RunScript(script: Script, appRoot: string, conn: DBConn, env: DbEnv) returns (step: Report<DbError>)
    ensures step == Perform(Expand(script, appRoot, env), conn, env)
  {
    if script.kind == ScriptTypeLiteral {
      match env.exec(conn, script.command) {
        case Fail(d) =>
          step := Report(Fail(ScriptFailed(Excerpt(script.command), d)), [Exec(conn, script.command)]);
        case Pass =>
          step := Report(Pass, [Exec(conn, script.command)]);
      }
    } else if script.kind == ScriptTypePath {
      var matches := env.glob(env.join(appRoot, script.command));
      if matches.Failure? {
        step := Report(Fail(GlobFailed(script.command, matches.error)), []);
      } else {
        step := ExecFiles(matches.value, conn, env);
      }
    } else {
      step := Report(Pass, []);
    }
  }

  /** DB.run: opens the connection, builds the script list, then executes
      it in order, returning at the first error. */
  method Run(db: DB, appRoot: string, env: DbEnv) returns (r: Report<DbError>)
    ensures r == RunSpec(db, appRoot, env)
  {
    var conn := db.connection;
    match env.open(conn) {
      case Fail(d) => return Report(Fail(ConnectFailed(d)), []);
      case Pass =>
    }

    var scripts: seq<Script> := [];
    if db.script.kind == ScriptTypeLiteral || db.script.kind == ScriptTypePath {
      scripts := scripts + [db.script];
    }
    scripts := scripts + db.scripts;
    assert scripts == ScriptList(db);

    var executed: seq<Event> := [];
    var i := 0;
    assert scripts[..0] == [];
    while i < |scripts|
      invariant 0 <= i <= |scripts|
      invariant Perform(Plan(scripts[..i], appRoot, env), conn, env) == Report(Pass, executed)
    {
      var step := RunScript(scripts[i], appRoot, conn, env);
      ScriptStep(scripts, i, appRoot, conn, env);
      if step.outcome.Fail? {
        return Report(step.outcome, executed + step.executed);
      }
      executed := executed + step.executed;
      i := i + 1;
    }
    assert scripts[..i] == scripts;
    r := Report(Pass, executed);
  }
}
