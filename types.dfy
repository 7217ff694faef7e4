/** The configuration and script types of main.go and db.go, and the record
    of external interactions the model keeps. Go strings are `string`, one
    element per byte of the Go string. */
module Types {

  import opened Wrappers

  /** Script type tags (main.go:12-19). */
  const ScriptTypeLiteral := 1
  const ScriptTypePath := 2

  /** A database script: literal command text, or a glob pattern of files
      each holding one command. `kind` is Go's untyped `Type int`, so tags
      other than the two constants are representable. */
  datatype Script = Script(kind: int, command: string)
  {
    /** The runner executes only these two kinds and skips the others. */
    predicate Runnable() {
      kind == ScriptTypeLiteral || kind == ScriptTypePath
    }
  }

  /** NewScript (main.go:46-51): a literal script holding `command`. */
  function NewScript(command: string): (s: Script)
    ensures s.Runnable() && s.kind == ScriptTypeLiteral && s.kind != ScriptTypePath
    ensures s.command == command
  {
    Script(ScriptTypeLiteral, command)
  }

  /** NewScriptPath (main.go:54-59): a glob-path script holding `path`. */
  function NewScriptPath(path: string): (s: Script)
    ensures s.Runnable() && s.kind == ScriptTypePath && s.kind != ScriptTypeLiteral
    ensures s.command == path
  {
    Script(ScriptTypePath, path)
  }

  /** Database driver name and connection string (main.go:23-31). */
  datatype DBConn = DBConn(driver: string, connString: string)

  /** One connection plus an optional single script and a list of scripts
      (db.go:12-22). */
  datatype DB = DB(connection: DBConn, script: Script, scripts: seq<Script>)

  /** Build and run settings for the program under test (main.go:62-79).
      `waitTimeout` is a Go `time.Duration`, in nanoseconds. */
  datatype App = App(
    buildArguments: seq<string>,
    runArguments: seq<string>,
    waitForOutputLine: string,
    waitTimeout: int)

  /** The fixture configuration (main.go:82-97). */
  datatype FixtureConfig = FixtureConfig(
    appRoot: string,
    databaseSetups: seq<DB>,
    appSetup: App,
    databaseTeardowns: seq<DB>)

  /** A per-test routine: database scripts and an optional callback
      (main.go:100-107); `hasFunc` is false where Go's `Func` is nil. */
  datatype UnitTest = UnitTest(databaseRoutines: seq<DB>, hasFunc: bool)

  /** Which list of per-test routines is being run. */
  datatype Phase = PerTestSetup | PerTestTeardown

  /** One interaction with the world outside the fixture, in the order it
      happens. */
  datatype Event =
    | Exec(conn: DBConn, command: string)                   // db.Exec
    | CreateTemp(dir: string)                               // ioutil.TempFile
    | Build(dir: string, output: string)                    // go build -o output
    | Start(dir: string, program: string, args: seq<string>) // appProcess.Start
    | Kill                                                  // Process.Kill
    | Remove(path: string)                                  // os.Remove
    | Callback(phase: Phase, routine: nat)                  // a routine's Func()

  /** An outcome together with the interactions performed to reach it. */
  datatype Report<+E> = Report(outcome: Outcome<E>, executed: seq<Event>)

  /** True when every event of `t` is a database command. */
  predicate OnlyExecs(t: seq<Event>) {
    forall k :: 0 <= k < |t| ==> t[k].Exec?
  }
}
