/**
 * The C++ engine's per-event step: given the cache and one trace record it
 * updates the cache and emits, in order, the database operations the event
 * implies. Only execve, fork/vfork and exit have effects beyond registering
 * the subject process.
 */
module CppPvm {
  import opened Ints
  import opened CppNode
  import opened CppDbTr
  import opened CppPvmCache
  import CppTrace

  type TraceEvent = CppTrace.TraceEvent

  const Execve: string := "audit:event:aue_execve:"
  const Fork: string := "audit:event:aue_fork:"
  const Vfork: string := "audit:event:aue_vfork:"
  const Exit: string := "audit:event:aue_exit:"

  /** The step's first part: the subject is checked and announced when new. */
  function Subject(c: Cache, tr: TraceEvent): (r: (Cache, Node, seq<DbOp>))
    ensures tr.subjprocuuid in c.nodes ==> r == (c, c.nodes[tr.subjprocuuid], [])
    ensures tr.subjprocuuid !in c.nodes ==>
      r.1 == Node(c.counter, tr.exec, true)
      && r.2 == [MkCreateNode(c.counter, tr.subjprocuuid, tr.pid, tr.exec)]
      && r.0 == Add(c, tr.subjprocuuid, tr.exec, true).0
  {
    var (c1, parent, inserted) := Check(c, tr.subjprocuuid, tr.exec);
    (c1, parent, if inserted then [MkCreateNode(parent.dbId, tr.subjprocuuid, tr.pid, tr.exec)] else [])
  }

  /**
   * execve, after the subject is registered: a thin parent is filled in
   * place; otherwise a new incarnation is added and linked by `next`.
   */
  function ExecveStep(c1: Cache, parent: Node, tr: TraceEvent): (r: (Cache, seq<DbOp>))
    ensures |r.1| <= 2
  {
    if parent.thin then
      var p := SetThin(SetCmdline(parent, tr.cmdline), false);
      (c1.(nodes := c1.nodes[tr.subjprocuuid := p]), [MkUpdateNode(parent.dbId, tr.pid, tr.cmdline)])
    else
      var (c2, next) := Add(c1, tr.subjprocuuid, tr.cmdline, false);
      (c2, [MkCreateNode(next.dbId, tr.subjprocuuid, tr.pid, tr.cmdline),
            CreateRel(parent.dbId, next.dbId, "next")])
  }

  /**
   * fork/vfork, after the subject is registered: the child is checked with
   * the parent's command line, announced when new and given that command
   * line otherwise, and linked by `child`.
   */
  function ForkStep(c1: Cache, parent: Node, tr: TraceEvent): (r: (Cache, seq<DbOp>))
    ensures |r.1| == 2 && !r.1[0].CreateRel? && r.1[1] == CreateRel(parent.dbId, r.1[0].dbId, "child")
  {
    var (c2, child, inserted) := Check(c1, tr.retObjuuid1, parent.cmdline);
    if inserted then
      (c2, [MkCreateNode(child.dbId, tr.retObjuuid1, tr.retval, parent.cmdline),
            CreateRel(parent.dbId, child.dbId, "child")])
    else
      (c2.(nodes := c2.nodes[tr.retObjuuid1 := SetCmdline(child, parent.cmdline)]),
       [MkUpdateNode(child.dbId, tr.retval, parent.cmdline),
        CreateRel(parent.dbId, child.dbId, "child")])
  }

  /** One trace record's effect on the cache and the operations it emits. */
  function Parse(c: Cache, tr: TraceEvent): (r: (Cache, seq<DbOp>))
    ensures |r.1| <= 3
  {
    var (c1, parent, ops) := Subject(c, tr);
    if tr.event == Execve then
      var (c2, more) := ExecveStep(c1, parent, tr);
      (c2, ops + more)
    else if tr.event == Fork || tr.event == Vfork then
      var (c2, more) := ForkStep(c1, parent, tr);
      (c2, ops + more)
    else if tr.event == Exit then
      (Release(c1, tr.subjprocuuid), ops)
    else
      (c1, ops)
  }

  /** A new subject is announced first, with its pid and executable name. */
  lemma NewSubjectFirst(c: Cache, tr: TraceEvent)
    requires tr.subjprocuuid !in c.nodes
    ensures
      var ops := Parse(c, tr).1;
      |ops| >= 1 && ops[0].CreateNode? && ops[0].dbId == c.counter
      && ops[0].uuid == tr.subjprocuuid && ops[0].cmdline == tr.exec
      && ToU32(ops[0].pid) == tr.pid
  {
  }

  /** execve of a thin process fills in its command line in place: one update. */
  lemma ExecveThin(c: Cache, tr: TraceEvent)
    requires tr.event == Execve && tr.subjprocuuid in c.nodes && c.nodes[tr.subjprocuuid].thin
    ensures
      var (c', ops) := Parse(c, tr);
      var id := c.nodes[tr.subjprocuuid].dbId;
      ops == [MkUpdateNode(id, tr.pid, tr.cmdline)]
      && c'.nodes == c.nodes[tr.subjprocuuid := Node(id, tr.cmdline, false)]
      && c'.counter == c.counter
  {
  }

  /**
   * execve of a process that already exec'd starts a new incarnation: a new
   * node under the same UUID, linked from the old one by a `next` edge.
   */
  lemma ExecveNotThin(c: Cache, start: int, tr: TraceEvent)
    requires Valid(c, start) && start <= c.counter < TWO_31 - 1
    requires tr.event == Execve && tr.subjprocuuid in c.nodes && !c.nodes[tr.subjprocuuid].thin
    ensures
      var (c', ops) := Parse(c, tr);
      var prev := c.nodes[tr.subjprocuuid];
      ops == [MkCreateNode(c.counter, tr.subjprocuuid, tr.pid, tr.cmdline),
              CreateRel(prev.dbId, c.counter, "next")]
      && prev.dbId != c.counter
      && c'.nodes[tr.subjprocuuid] == Node(c.counter, tr.cmdline, false)
  {
  }

  /** A fork whose child is new announces the child with the parent's command line, then links it. */
  lemma ForkNewChild(c: Cache, tr: TraceEvent)
    requires tr.event == Fork || tr.event == Vfork
    requires tr.subjprocuuid in c.nodes && tr.retObjuuid1 !in c.nodes
    ensures
      var (c', ops) := Parse(c, tr);
      var parent := c.nodes[tr.subjprocuuid];
      ops == [MkCreateNode(c.counter, tr.retObjuuid1, tr.retval, parent.cmdline),
              CreateRel(parent.dbId, c.counter, "child")]
      && c'.nodes[tr.retObjuuid1] == Node(c.counter, parent.cmdline, true)
  {
  }

  /**
   * A fork whose child is known gives it the parent's command line (its thin
   * flag is kept) and links it.
   */
  lemma ForkKnownChild(c: Cache, tr: TraceEvent)
    requires tr.event == Fork || tr.event == Vfork
    requires tr.subjprocuuid in c.nodes && tr.retObjuuid1 in c.nodes
    ensures
      var (c', ops) := Parse(c, tr);
      var parent := c.nodes[tr.subjprocuuid];
      var child := c.nodes[tr.retObjuuid1];
      ops == [MkUpdateNode(child.dbId, tr.retval, parent.cmdline),
              CreateRel(parent.dbId, child.dbId, "child")]
      && c'.nodes == c.nodes[tr.retObjuuid1 := child.(cmdline := parent.cmdline)]
  {
  }

  /** Every fork ends by linking parent to child. */
  lemma ForkEndsWithChildEdge(c: Cache, tr: TraceEvent)
    requires tr.event == Fork || tr.event == Vfork
    ensures
      var ops := Parse(c, tr).1;
      |ops| >= 1 && ops[|ops| - 1].CreateRel? && ops[|ops| - 1].rclass == "child"
  {
  }

  /** exit forgets the subject and emits at most the subject's announcement. */
  lemma ExitReleases(c: Cache, tr: TraceEvent)
    requires tr.event == Exit
    ensures
      var (c', ops) := Parse(c, tr);
      tr.subjprocuuid !in c'.nodes && ops == Subject(c, tr).2
  {
  }

  /** Any other event (pdfork included) only registers the subject. */
  lemma OtherEventsOnlyRegister(c: Cache, tr: TraceEvent)
    requires tr.event != Execve && tr.event != Fork && tr.event != Vfork && tr.event != Exit
    ensures Parse(c, tr) == (Subject(c, tr).0, Subject(c, tr).2)
    ensures |Parse(c, tr).1| <= 1
  {
  }

  /** A step keeps the cache valid while the counter stays clear of wrapping. */
  lemma ParseValid(c: Cache, start: int, tr: TraceEvent)
    requires Valid(c, start) && start <= c.counter < TWO_31 - 2
    ensures Valid(Parse(c, tr).0, start)
  {
    var (c1, parent, ops) := Subject(c, tr);
    CheckValid(c, start, tr.subjprocuuid, tr.exec);
    assert Valid(c1, start) && c1.counter <= c.counter + 1;
    if tr.event == Execve {
      if parent.thin {
        ReplaceValid(c1, start, tr.subjprocuuid, SetThin(SetCmdline(parent, tr.cmdline), false));
      } else {
        AddValid(c1, start, tr.subjprocuuid, tr.cmdline, false);
      }
    } else if tr.event == Fork || tr.event == Vfork {
      var (c2, child, inserted) := Check(c1, tr.retObjuuid1, parent.cmdline);
      CheckValid(c1, start, tr.retObjuuid1, parent.cmdline);
      if !inserted {
        ReplaceValid(c2, start, tr.retObjuuid1, SetCmdline(child, parent.cmdline));
      }
    } else if tr.event == Exit {
      ReleaseValid(c1, start, tr.subjprocuuid);
    }
  }
}
