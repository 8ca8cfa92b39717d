/**
 * The C++ engine and the counting script agree: seen through the map from
 * UUID to thin flag, one engine step (exit aside, which the script does
 * not handle) is one script step, and the engine creates exactly as many
 * process nodes as the script counts.
 */
module EngineAgreement {
  import opened Wrappers
  import opened CppNode
  import opened CppDbTr
  import opened CppPvmCache
  import CppPvm
  import ProcCount

  /** What the script keeps of the engine's cache. */
  function ThinMap(c: Cache): (m: map<string, bool>)
    ensures m.Keys == c.nodes.Keys
  {
    map u | u in c.nodes :: c.nodes[u].thin
  }

  /** The dictionary the script reads for a trace record. */
  function RecordOf(tr: CppPvm.TraceEvent): ProcCount.Record
  {
    map["subjprocuuid" := tr.subjprocuuid, "event" := tr.event, "ret_objuuid1" := tr.retObjuuid1]
  }

  function CreatedNodes(ops: seq<DbOp>): nat
    decreases |ops|
  {
    if ops == [] then 0 else (if ops[0].CreateNode? then 1 else 0) + CreatedNodes(ops[1..])
  }

  /** The count of a two-operation batch, spelled out. */
  lemma CreatedNodesPair(x: DbOp, y: DbOp)
    ensures CreatedNodes([x, y]) == (if x.CreateNode? then 1 else 0) + (if y.CreateNode? then 1 else 0)
  {
    assert [x, y][1..] == [y];
    assert [y][1..] == [];
    assert CreatedNodes([y]) == (if y.CreateNode? then 1 else 0) + CreatedNodes([]);
  }

  lemma {:induction false} CreatedNodesConcat(a: seq<DbOp>, b: seq<DbOp>)
    ensures CreatedNodes(a + b) == CreatedNodes(a) + CreatedNodes(b)
    decreases |a|
  {
    if a == [] {
      assert a + b == b;
    } else {
      assert (a + b)[1..] == a[1..] + b;
      CreatedNodesConcat(a[1..], b);
    }
  }

  /** The subject's registration: thin map and node count move together. */
  lemma SubjectAgrees(c: Cache, tr: CppPvm.TraceEvent, s: ProcCount.Counts)
    requires s.pMap == ThinMap(c)
    ensures
      var (c1, parent, ops1) := CppPvm.Subject(c, tr);
      var s1 := ProcCount.Sight(s, tr.subjprocuuid);
      s1.pMap == ThinMap(c1) && s1.pCount == s.pCount + CreatedNodes(ops1) && s1.eCount == s.eCount
      && tr.subjprocuuid in c1.nodes && c1.nodes[tr.subjprocuuid] == parent
  {
    var (c1, _, ops1) := CppPvm.Subject(c, tr);
    if tr.subjprocuuid !in c.nodes {
      assert ThinMap(c1) == ThinMap(c)[tr.subjprocuuid := true];
    }
  }

  lemma ExecveAgrees(c1: Cache, parent: Node, tr: CppPvm.TraceEvent, s1: ProcCount.Counts)
    requires s1.pMap == ThinMap(c1)
    requires tr.subjprocuuid in c1.nodes && c1.nodes[tr.subjprocuuid] == parent
    ensures
      var (c2, ops) := CppPvm.ExecveStep(c1, parent, tr);
      var s2 := ProcCount.ExecveCount(s1, tr.subjprocuuid);
      s2.pMap == ThinMap(c2) && s2.pCount == s1.pCount + CreatedNodes(ops) && s2.eCount == s1.eCount
  {
    var (c2, ops) := CppPvm.ExecveStep(c1, parent, tr);
    if parent.thin {
      assert ThinMap(c2) == ThinMap(c1)[tr.subjprocuuid := false];
      assert ops[0].UpdateNode? && ops[1..] == [];
    } else {
      assert ThinMap(c2) == ThinMap(c1);
      CreatedNodesPair(ops[0], ops[1]);
    }
  }

  lemma ForkAgrees(c1: Cache, parent: Node, tr: CppPvm.TraceEvent, s1: ProcCount.Counts)
    requires s1.pMap == ThinMap(c1)
    ensures
      var (c2, ops) := CppPvm.ForkStep(c1, parent, tr);
      var s2 := ProcCount.Sight(s1, tr.retObjuuid1);
      s2.pMap == ThinMap(c2) && s2.pCount == s1.pCount + CreatedNodes(ops) && s2.eCount == s1.eCount
  {
    var (c2, ops) := CppPvm.ForkStep(c1, parent, tr);
    CreatedNodesPair(ops[0], ops[1]);
    if tr.retObjuuid1 !in c1.nodes {
      assert ThinMap(c2) == ThinMap(c1)[tr.retObjuuid1 := true];
    } else {
      assert ThinMap(c2) == ThinMap(c1);
    }
  }

  /**
   * One engine step, exit aside, matches one script step: the thin map
   * evolves the same way and the node count grows by the number of
   * `CreateNode` operations emitted.
   */
  lemma StepAgrees(c: Cache, tr: CppPvm.TraceEvent, s: ProcCount.Counts)
    requires tr.event != CppPvm.Exit
    requires s.pMap == ThinMap(c)
    ensures
      var (c', ops) := CppPvm.Parse(c, tr);
      var r := ProcCount.StepRecord(s, RecordOf(tr));
      r.Ok? && r.value.pMap == ThinMap(c') && r.value.pCount == s.pCount + CreatedNodes(ops)
      && r.value.eCount == s.eCount + 1
  {
    var evt := RecordOf(tr);
    assert evt["subjprocuuid"] == tr.subjprocuuid && evt["event"] == tr.event;
    assert evt["ret_objuuid1"] == tr.retObjuuid1;
    var (c1, parent, ops1) := CppPvm.Subject(c, tr);
    SubjectAgrees(c, tr, s);
    var s1 := ProcCount.Sight(s, tr.subjprocuuid);
    if tr.event == CppPvm.Execve {
      ExecveAgrees(c1, parent, tr, s1);
      CreatedNodesConcat(ops1, CppPvm.ExecveStep(c1, parent, tr).1);
    } else if tr.event == CppPvm.Fork || tr.event == CppPvm.Vfork {
      ForkAgrees(c1, parent, tr, s1);
      CreatedNodesConcat(ops1, CppPvm.ForkStep(c1, parent, tr).1);
    }
  }

  /** The engine over a whole trace: operations in event order. */
  function EngineRun(c: Cache, trs: seq<CppPvm.TraceEvent>): (r: (Cache, seq<DbOp>))
    decreases |trs|
  {
    if trs == [] then (c, [])
    else
      var (c1, ops) := CppPvm.Parse(c, trs[0]);
      var (c2, rest) := EngineRun(c1, trs[1..]);
      (c2, ops + rest)
  }

  function RecordsOf(trs: seq<CppPvm.TraceEvent>): (r: seq<ProcCount.Record>)
    ensures |r| == |trs| && forall i :: 0 <= i < |trs| ==> r[i] == RecordOf(trs[i])
  {
    seq(|trs|, i requires 0 <= i < |trs| => RecordOf(trs[i]))
  }

  /**
   * Over a trace without exits, the script finishes without error, its map
   * is the engine's thin map, its process count is the starting count plus
   * the number of process nodes the engine created, and it counts every
   * event.
   */
  lemma {:induction false} RunAgrees(c: Cache, trs: seq<CppPvm.TraceEvent>, s: ProcCount.Counts)
    requires forall i :: 0 <= i < |trs| ==> trs[i].event != CppPvm.Exit
    requires s.pMap == ThinMap(c)
    ensures
      var (c', ops) := EngineRun(c, trs);
      var r := ProcCount.Run(s, RecordsOf(trs));
      r.Ok? && r.value.pMap == ThinMap(c') && r.value.pCount == s.pCount + CreatedNodes(ops)
      && r.value.eCount == s.eCount + |trs|
    decreases |trs|
  {
    if trs != [] {
      var (c1, ops) := CppPvm.Parse(c, trs[0]);
      StepAgrees(c, trs[0], s);
      var s1 := ProcCount.StepRecord(s, RecordOf(trs[0])).value;
      RunAgrees(c1, trs[1..], s1);
      assert RecordsOf(trs)[1..] == RecordsOf(trs[1..]);
      CreatedNodesConcat(ops, EngineRun(c1, trs[1..]).1);
    }
  }
}
