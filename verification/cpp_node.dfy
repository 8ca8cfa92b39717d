/**
 * The C++ engine's process node: a database id fixed at construction, a
 * command line, and the `thin` flag (true until the process is seen to exec).
 */
module CppNode {
  import opened Ints

  datatype Node = Node(dbId: i64, cmdline: string, thin: bool)

  /** Replaces the command line; nothing else changes. */
  function SetCmdline(n: Node, cmdline: string): (r: Node)
    ensures r.cmdline == cmdline
    ensures r.dbId == n.dbId && r.thin == n.thin
  {
    n.(cmdline := cmdline)
  }

  /** Replaces the thin flag; nothing else changes. */
  function SetThin(n: Node, thin: bool): (r: Node)
    ensures r.thin == thin
    ensures r.dbId == n.dbId && r.cmdline == n.cmdline
  {
    n.(thin := thin)
  }

  /** The two mutators a node offers; there is none for the id. */
  datatype Edit = EditCmdline(cmdline: string) | EditThin(thin: bool)

  function ApplyEdits(n: Node, es: seq<Edit>): Node
    decreases |es|
  {
    if es == [] then n
    else
      var n' := match es[0]
        case EditCmdline(c) => SetCmdline(n, c)
        case EditThin(t) => SetThin(n, t);
      ApplyEdits(n', es[1..])
  }

  /** The command line the last command-line edit wrote, or `c` when there is none. */
  function LastCmdline(c: string, es: seq<Edit>): string
    decreases |es|
  {
    if es == [] then c
    else LastCmdline(if es[0].EditCmdline? then es[0].cmdline else c, es[1..])
  }

  /**
   * Whatever edits are applied, the id stays the one given at construction,
   * and the command line is the last one written.
   */
  lemma {:induction false} EditsKeepId(n: Node, es: seq<Edit>)
    ensures ApplyEdits(n, es).dbId == n.dbId
    ensures ApplyEdits(n, es).cmdline == LastCmdline(n.cmdline, es)
    decreases |es|
  {
    if es != [] {
      var n' := match es[0]
        case EditCmdline(c) => SetCmdline(n, c)
        case EditThin(t) => SetThin(n, t);
      EditsKeepId(n', es[1..]);
    }
  }
}
