/**
 * The older Rust library's per-event step. Sends to the database worker
 * are modelled as the emitted sequence of operations; whether the worker's
 * queue is still open is a parameter (a send to a closed queue fails, and
 * the step then reports the closed queue once everything else is done).
 */
module V1Parse {
  import opened Ints
  import opened Wrappers
  import opened Uuid
  import opened V1PvmCache

  /** The fields of a trace record the step reads. */
  datatype Event = Event(
    event: string, pid: i32, retval: i32,
    exec: Option<string>, cmdline: Option<string>,
    subjprocuuid: Uuid5, retObjuuid1: Option<Uuid5>)

  datatype DbOp =
    | CreateNode(id: i64, uuid: Uuid5, pid: i32, cmdline: string)
    | CreateRel(src: i64, dst: i64, rclass: string)
    | UpdateNode(id: i64, pid: i32, cmdline: string)

  /** The cache after the step, the operations sent (in order), and the step's result. */
  datatype Step = Step(cache: Cache, sent: seq<DbOp>, result: Result<(), string>)

  const Execve: string := "audit:event:aue_execve:"
  const Fork: string := "audit:event:aue_fork:"
  const Vfork: string := "audit:event:aue_vfork:"

  const MissingExec: string := "event missing exec"
  const MissingCmdline: string := "exec missing cmdline"
  const MissingRet: string := "fork missing ret_objuuid1"
  const QueueClosed: string := "Database worker closed queue unexpectadly"

  /** The step's end: a closed queue turns any send into the closed-queue error. */
  function Finish(c: Cache, sent: seq<DbOp>, open: bool): (r: Step)
    ensures r.cache == c && r.sent == sent
    ensures r.result.Err? <==> !open && sent != []
  {
    Step(c, sent, if !open && sent != [] then Err(QueueClosed) else Ok(()))
  }

  /** `parse_trace` for one record. */
  function ParseTrace(tr: Event, c: Cache, open: bool): (r: Step)
    ensures |r.sent| <= 3
  {
    if tr.exec.None? then Step(c, [], Err(MissingExec))
    else
      var exec := tr.exec.value;
      var (c1, parChk) := Check(c, tr.subjprocuuid, exec);
      var parDb := c1.nodes[tr.subjprocuuid].dbId;
      var ops := if parChk then [CreateNode(parDb, tr.subjprocuuid, tr.pid, exec)] else [];
      if tr.event == Execve then
        if tr.cmdline.None? then Step(c1, ops, Err(MissingCmdline))
        else
          var cmdline := tr.cmdline.value;
          if c1.nodes[tr.subjprocuuid].thin then
            Finish(Set(c1, tr.subjprocuuid, cmdline, false).value,
                   ops + [UpdateNode(parDb, tr.pid, cmdline)], open)
          else
            var c2 := Add(c1, tr.subjprocuuid, cmdline, false);
            var nextDb := c2.nodes[tr.subjprocuuid].dbId;
            Finish(c2, ops + [CreateNode(nextDb, tr.subjprocuuid, tr.pid, cmdline),
                              CreateRel(parDb, nextDb, "next")], open)
      else if tr.event == Fork || tr.event == Vfork then
        if tr.retObjuuid1.None? then Step(c1, ops, Err(MissingRet))
        else
          var ret := tr.retObjuuid1.value;
          var parCmd := c1.nodes[tr.subjprocuuid].cmdline;
          var (c2, chChk) := Check(c1, ret, parCmd);
          var chDb := c2.nodes[ret].dbId;
          if chChk then
            Finish(c2, ops + [CreateNode(chDb, ret, tr.retval, parCmd),
                              CreateRel(parDb, chDb, "child")], open)
          else
            Finish(Set(c2, ret, parCmd, true).value,
                   ops + [UpdateNode(chDb, tr.retval, parCmd),
                          CreateRel(parDb, chDb, "child")], open)
      else Finish(c1, ops, open)
  }

  /** A record without exec is refused before anything changes or is sent. */
  lemma MissingExecRefused(tr: Event, c: Cache, open: bool)
    requires tr.exec.None?
    ensures ParseTrace(tr, c, open) == Step(c, [], Err(MissingExec))
  {
  }

  /** A new subject is announced first. */
  lemma NewSubjectFirst(tr: Event, c: Cache, open: bool)
    requires tr.exec.Some? && tr.subjprocuuid !in c.nodes && c.counter < TWO_63
    ensures
      var r := ParseTrace(tr, c, open);
      |r.sent| >= 1 && r.sent[0] == CreateNode(c.counter, tr.subjprocuuid, tr.pid, tr.exec.value)
  {
  }

  /** An execve without cmdline fails, but only after the subject may have been announced. */
  lemma ExecveMissingCmdline(tr: Event, c: Cache, open: bool)
    requires tr.exec.Some? && tr.event == Execve && tr.cmdline.None?
    ensures
      var r := ParseTrace(tr, c, open);
      r.result == Err(MissingCmdline)
      && (tr.subjprocuuid !in c.nodes <==> |r.sent| == 1)
  {
  }

  /** execve of a thin process: filled in place, one update. */
  lemma ExecveThin(tr: Event, c: Cache, open: bool)
    requires tr.exec.Some? && tr.event == Execve && tr.cmdline.Some?
    requires tr.subjprocuuid in c.nodes && c.nodes[tr.subjprocuuid].thin
    ensures
      var r := ParseTrace(tr, c, open);
      var id := c.nodes[tr.subjprocuuid].dbId;
      r.sent == [UpdateNode(id, tr.pid, tr.cmdline.value)]
      && r.cache.nodes == c.nodes[tr.subjprocuuid := Node(id, tr.cmdline.value, false)]
  {
  }

  /** execve of a process that exec'd before: a new node linked by `next`. */
  lemma ExecveNotThin(tr: Event, c: Cache, open: bool)
    requires tr.exec.Some? && tr.event == Execve && tr.cmdline.Some?
    requires tr.subjprocuuid in c.nodes && !c.nodes[tr.subjprocuuid].thin
    requires Valid(c) && c.counter < TWO_63 - 1
    ensures
      var r := ParseTrace(tr, c, open);
      var prev := c.nodes[tr.subjprocuuid].dbId;
      r.sent == [CreateNode(c.counter, tr.subjprocuuid, tr.pid, tr.cmdline.value),
                 CreateRel(prev, c.counter, "next")]
      && prev != c.counter
  {
  }

  /**
   * A fork whose child is known resets the child to the parent's command
   * line and marks it thin again, then links it.
   */
  lemma ForkKnownChild(tr: Event, c: Cache, open: bool)
    requires tr.exec.Some? && (tr.event == Fork || tr.event == Vfork) && tr.retObjuuid1.Some?
    requires tr.subjprocuuid in c.nodes && tr.retObjuuid1.value in c.nodes
    ensures
      var r := ParseTrace(tr, c, open);
      var parent := c.nodes[tr.subjprocuuid];
      var child := c.nodes[tr.retObjuuid1.value];
      r.sent == [UpdateNode(child.dbId, tr.retval, parent.cmdline),
                 CreateRel(parent.dbId, child.dbId, "child")]
      && r.cache.nodes[tr.retObjuuid1.value] == Node(child.dbId, parent.cmdline, true)
  {
  }

  /** A fork whose child is new announces it with the parent's command line. */
  lemma ForkNewChild(tr: Event, c: Cache, open: bool)
    requires tr.exec.Some? && (tr.event == Fork || tr.event == Vfork) && tr.retObjuuid1.Some?
    requires tr.subjprocuuid in c.nodes && tr.retObjuuid1.value !in c.nodes && c.counter < TWO_63
    ensures
      var r := ParseTrace(tr, c, open);
      var parent := c.nodes[tr.subjprocuuid];
      r.sent == [CreateNode(c.counter, tr.retObjuuid1.value, tr.retval, parent.cmdline),
                 CreateRel(parent.dbId, c.counter, "child")]
  {
  }

  /** Every completed fork ends with the `child` edge; a fork without a child UUID fails. */
  lemma ForkEndsWithChildEdge(tr: Event, c: Cache, open: bool)
    requires tr.exec.Some? && (tr.event == Fork || tr.event == Vfork)
    ensures
      var r := ParseTrace(tr, c, open);
      (tr.retObjuuid1.None? ==> r.result == Err(MissingRet))
      && (tr.retObjuuid1.Some? ==> r.sent[|r.sent| - 1].CreateRel? && r.sent[|r.sent| - 1].rclass == "child")
  {
  }

  /** Other events, exit included, send at most the subject's announcement and leave it bound. */
  lemma OtherEvents(tr: Event, c: Cache, open: bool)
    requires tr.exec.Some? && tr.event != Execve && tr.event != Fork && tr.event != Vfork
    ensures
      var r := ParseTrace(tr, c, open);
      |r.sent| <= 1 && tr.subjprocuuid in r.cache.nodes
      && r.cache == Check(c, tr.subjprocuuid, tr.exec.value).0
  {
  }

  /** A step keeps the cache valid while the counter is far from 2^63. */
  lemma ParseValid(tr: Event, c: Cache, open: bool)
    requires Valid(c) && c.counter < TWO_63 - 2
    ensures Valid(ParseTrace(tr, c, open).cache)
  {
    if tr.exec.Some? {
      var exec := tr.exec.value;
      var (c1, parChk) := Check(c, tr.subjprocuuid, exec);
      CheckValid(c, tr.subjprocuuid, exec);
      if tr.event == Execve && tr.cmdline.Some? {
        if c1.nodes[tr.subjprocuuid].thin {
          SetValid(c1, tr.subjprocuuid, tr.cmdline.value, false);
        } else {
          AddValid(c1, tr.subjprocuuid, tr.cmdline.value, false);
        }
      } else if (tr.event == Fork || tr.event == Vfork) && tr.retObjuuid1.Some? {
        var ret := tr.retObjuuid1.value;
        var parCmd := c1.nodes[tr.subjprocuuid].cmdline;
        var (c2, chChk) := Check(c1, ret, parCmd);
        CheckValid(c1, ret, parCmd);
        if !chChk {
          SetValid(c2, ret, parCmd, true);
        }
      }
    }
  }
}
