/** Readiness detection (fixture.go:87-115): two readers scan the program's
    standard output and standard error for the sentinel line while a timer
    runs; the first to finish decides. The race is modelled by the lines
    each stream delivers before the deadline. */
module Readiness {

  /** The stream whose reader saw the sentinel. */
  datatype Stream = Stdout | Stderr

  /** How the wait ends: a reader closed its channel, or the timer fired. */
  datatype Readiness = Ready(winner: Stream) | TimedOut

  /** One reader goroutine (fixture.go:88-95 and 98-105): reads lines until
      one equals the sentinel exactly, then stops reading. `consumed` is
      how many lines it read. */
  method Scan(lines: seq<string>, sentinel: string) returns (found: bool, consumed: nat)
    ensures found <==> sentinel in lines
    ensures consumed <= |lines|
    ensures found ==> 0 < consumed && lines[consumed - 1] == sentinel && sentinel !in lines[..consumed - 1]
    ensures !found ==> consumed == |lines|
  {
    found, consumed := false, 0;
    while consumed < |lines|
      invariant consumed <= |lines|
      invariant sentinel !in lines[..consumed]
    {
      var line := lines[consumed];
      consumed := consumed + 1;
      if line == sentinel {
        found := true;
        return;
      }
    }
    assert lines[..consumed] == lines;
  }

  /** The `select` (fixture.go:107-115): ready if either stream delivered
      the sentinel before the deadline, else timed out. When both did, the
      winner is not defined by the source; `tie` picks it. */
  function Await(sentinel: string, outLines: seq<string>, errLines: seq<string>, tie: Stream): (r: Readiness)
    ensures r.Ready? <==> sentinel in outLines || sentinel in errLines
    ensures r == Ready(Stdout) ==> sentinel in outLines
    ensures r == Ready(Stderr) ==> sentinel in errLines
    ensures sentinel in outLines && sentinel !in errLines ==> r == Ready(Stdout)
    ensures sentinel !in outLines && sentinel in errLines ==> r == Ready(Stderr)
  {
    var inOut := sentinel in outLines;
    var inErr := sentinel in errLines;
    if inOut && inErr then Ready(tie)
    else if inOut then Ready(Stdout)
    else if inErr then Ready(Stderr)
    else TimedOut
  }

  /** Which reader wins a tie never changes whether the program is ready. */
  lemma TieDoesNotMatter(sentinel: string, outLines: seq<string>, errLines: seq<string>)
    ensures Await(sentinel, outLines, errLines, Stdout).Ready? == Await(sentinel, outLines, errLines, Stderr).Ready?
  {
  }

  /** Output lines that arrive after the deadline cannot make a wait that
      timed out succeed, and lines added after a success keep it a success. */
  lemma AwaitMonotone(sentinel: string, outLines: seq<string>, errLines: seq<string>,
                      laterOut: seq<string>, laterErr: seq<string>, tie: Stream)
    ensures Await(sentinel, outLines, errLines, tie).Ready? ==>
      Await(sentinel, outLines + laterOut, errLines + laterErr, tie).Ready?
    ensures Await(sentinel, outLines + laterOut, errLines + laterErr, tie).TimedOut? ==>
      Await(sentinel, outLines, errLines, tie).TimedOut?
  {
    if sentinel in outLines {
      var k :| 0 <= k < |outLines| && outLines[k] == sentinel;
      assert (outLines + laterOut)[k] == sentinel;
    }
    if sentinel in errLines {
      var k :| 0 <= k < |errLines| && errLines[k] == sentinel;
      assert (errLines + laterErr)[k] == sentinel;
    }
  }
}
