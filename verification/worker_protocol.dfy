/**
 * What a worker script leaves behind when it exits: everything it printed on
 * stdout and stderr, and its exit status. Python's `print(x)` writes `x`
 * followed by a newline.
 */
module WorkerProtocol {
  import opened Json

  datatype Exit = Exit(stdout: string, stderr: string, code: int)

  /** What `print(s)` writes. */
  function Line(s: string): string {
    s + "\n"
  }

  /** What printing each string of `ls` in turn writes. */
  function Lines(ls: seq<string>): (r: string)
    ensures ls == [] <==> r == ""
    ensures ls != [] ==> r[|r| - 1] == '\n'
  {
    if ls == [] then "" else Lines(ls[..|ls| - 1]) + Line(ls[|ls| - 1])
  }

  /** The serialised form of each message, as the worker prints them one per line. */
  function Serialise(msgs: seq<Json>, dumps: Json -> string): (r: seq<string>)
    ensures |r| == |msgs|
    ensures forall i :: 0 <= i < |msgs| ==> r[i] == dumps(msgs[i])
  {
    if msgs == [] then [] else Serialise(msgs[..|msgs| - 1], dumps) + [dumps(msgs[|msgs| - 1])]
  }
}
