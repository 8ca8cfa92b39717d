/**
 * The ingest crate's streaming database view. Node creations are buffered by
 * id and absorb later updates of the same node; relationship creations and
 * node updates that were not absorbed are appended to lists, one entry per
 * event, with no de-duplication. Flushes and commits follow the same
 * thresholds as the data library's view.
 */
module PersistView {
  import opened Ints
  import opened DbValue
  import VP = ViewPending

  type NodeId = i64

  datatype Event =
    | CreateNode(id: NodeId, labs: seq<string>, props: map<string, Value>)
    | CreateRel(src: NodeId, dst: NodeId, ty: string, props: map<string, Value>)
    | UpdateNode(id: NodeId, props: map<string, Value>)

  /** A label list as the database receives it. */
  function Labels(labs: seq<string>): (r: Value)
    ensures r.List? && |r.items| == |labs|
    ensures forall i :: 0 <= i < |labs| ==> r.items[i] == String(labs[i])
  {
    List(seq(|labs|, i requires 0 <= i < |labs| => String(labs[i])))
  }

  /**
   * A relationship as written: its properties with "src", "dst" and "type"
   * set from the event, overriding any properties of those names.
   */
  function RelRecord(src: NodeId, dst: NodeId, ty: string, props: map<string, Value>): (r: map<string, Value>)
    ensures r.Keys == props.Keys + {"src", "dst", "type"}
    ensures r["src"] == Integer(src) && r["dst"] == Integer(dst) && r["type"] == String(ty)
    ensures r - {"src", "dst", "type"} == props - {"src", "dst", "type"}
  {
    props["src" := Integer(src)]["dst" := Integer(dst)]["type" := String(ty)]
  }

  /** The three pending buffers. */
  datatype Batch = Batch(nodes: map<NodeId, VP.Record>, rels: seq<Value>, updates: seq<Value>)

  const Empty: Batch := Batch(map[], [], [])

  function Size(b: Batch): nat
  {
    |b.nodes| + |b.rels| + |b.updates|
  }

  datatype View = View(pending: Batch, cnt: VP.Counters)

  function Start(): View
  {
    View(Empty, VP.Counters(0, 0, 0))
  }

  /** Paced counters, and no more buffered than counted since the last flush. */
  ghost predicate Inv(v: View)
  {
    VP.Paced(v.cnt) && Size(v.pending) + v.cnt.btc * VP.BATCH_SIZE <= v.cnt.ups
  }

  lemma StartInv()
    ensures Inv(Start())
  {
  }

  /**
   * Buffers one event. Every event counts as a write except an update
   * absorbed into a pending creation; relationships and unabsorbed updates
   * are appended in arrival order.
   */
  function Buffer(v: View, e: Event): (r: View)
    ensures r.cnt.btc == v.cnt.btc && r.cnt.trs == v.cnt.trs
    ensures r.cnt.ups == (if e.UpdateNode? && e.id in v.pending.nodes then v.cnt.ups else v.cnt.ups + 1)
    ensures Size(r.pending) <= Size(v.pending) + (r.cnt.ups - v.cnt.ups)
    ensures e.CreateNode? ==>
      VP.HasProps(r.pending.nodes, e.id, Map(e.props))
      && "labels" in r.pending.nodes[e.id] && r.pending.nodes[e.id]["labels"] == Labels(e.labs)
    ensures e.CreateRel? ==> r.pending.rels == v.pending.rels + [Map(RelRecord(e.src, e.dst, e.ty, e.props))]
    ensures !e.CreateRel? ==> r.pending.rels == v.pending.rels
    ensures e.UpdateNode? && e.id in v.pending.nodes ==>
      VP.HasProps(r.pending.nodes, e.id, Map(e.props)) && r.pending.updates == v.pending.updates
    ensures e.UpdateNode? && e.id !in v.pending.nodes ==>
      r.pending.updates == v.pending.updates + [Map(e.props)] && r.pending.nodes == v.pending.nodes
    ensures !e.UpdateNode? ==> r.pending.updates == v.pending.updates
  {
    var p := v.pending;
    var c := v.cnt;
    match e
    case CreateNode(id, labs, props) =>
      v.(pending := p.(nodes := VP.AddNode(p.nodes, id, Labels(labs), Map(props))), cnt := c.(ups := c.ups + 1))
    case CreateRel(src, dst, ty, props) =>
      v.(pending := p.(rels := p.rels + [Map(RelRecord(src, dst, ty, props))]), cnt := c.(ups := c.ups + 1))
    case UpdateNode(id, props) =>
      var (nodes, back) := VP.UpdateNode(p.nodes, id, Map(props));
      if back.None? then v.(pending := p.(nodes := nodes))
      else v.(pending := p.(updates := p.updates + [back.value]), cnt := c.(ups := c.ups + 1))
  }

  /** One event: buffer it, then flush and commit on the shared thresholds. */
  function Step(v: View, e: Event): (r: (View, seq<VP.Out<Batch>>))
    ensures r.0.cnt.ups == Buffer(v, e).cnt.ups
    ensures VP.Executions(r.1) == r.0.cnt.btc - v.cnt.btc <= 1
    ensures VP.Commits(r.1) == r.0.cnt.trs - v.cnt.trs <= 1
    ensures VP.Executions(r.1) == 1 ==> r.0.pending == Empty && r.1[0] == VP.Execute(Buffer(v, e).pending)
    ensures VP.Executions(r.1) == 0 ==> r.0.pending == Buffer(v, e).pending
  {
    var b := Buffer(v, e);
    var (c, flush, commit) := VP.Pace(b.cnt);
    var o1: seq<VP.Out<Batch>> := if flush then [VP.Execute(b.pending)] else [];
    var o2: seq<VP.Out<Batch>> := if commit then [VP.Commit] else [];
    VP.CountsConcat(o1, o2);
    (b.(pending := if flush then Empty else b.pending, cnt := c), o1 + o2)
  }

  /** Each step keeps the invariant, so a flush sends at most one batch plus one write. */
  lemma StepKeepsInv(v: View, e: Event)
    ensures Inv(v) ==> Inv(Step(v, e).0)
    ensures Inv(v) && VP.Executions(Step(v, e).1) == 1 ==> Size(Step(v, e).1[0].batch) <= VP.BATCH_SIZE + 1
  {
    VP.PaceKeepsPaced(v.cnt, Buffer(v, e).cnt.ups);
  }

  function Run(v: View, es: seq<Event>): (r: (View, seq<VP.Out<Batch>>))
    decreases |es|
    ensures Inv(v) ==> Inv(r.0)
    ensures VP.Executions(r.1) == r.0.cnt.btc - v.cnt.btc
    ensures VP.Commits(r.1) == r.0.cnt.trs - v.cnt.trs
    ensures v.cnt.ups <= r.0.cnt.ups <= v.cnt.ups + |es|
  {
    if es == [] then (v, [])
    else
      var (v1, o1) := Step(v, es[0]);
      var (v2, o2) := Run(v1, es[1..]);
      StepKeepsInv(v, es[0]);
      VP.CountsConcat(o1, o2);
      (v2, o1 + o2)
  }

  /** The whole stream: the loop, then a final flush and a final commit. */
  function Process(es: seq<Event>): (r: (View, seq<VP.Out<Batch>>))
    ensures r.0.pending == Empty
    ensures VP.Executions(r.1) == r.0.cnt.btc + 1
    ensures VP.Commits(r.1) == r.0.cnt.trs
    ensures r.0.cnt.ups <= |es| && r.0.cnt.ups <= (r.0.cnt.btc + 1) * VP.BATCH_SIZE
    ensures |r.1| >= 2 && r.1[|r.1| - 1] == VP.Commit && r.1[|r.1| - 2].Execute?
  {
    StartInv();
    var (v, os) := Run(Start(), es);
    var fin: seq<VP.Out<Batch>> := [VP.Execute(v.pending), VP.Commit];
    VP.CountsConcat(os, fin);
    (v.(pending := Empty, cnt := v.cnt.(trs := v.cnt.trs + 1)), os + fin)
  }

  /**
   * Unlike the keyed update buffers, two updates of a node with no pending
   * creation are both kept, in order, and both counted.
   */
  lemma UpdatesNotCoalesced(v: View, id: NodeId, p: map<string, Value>, q: map<string, Value>)
    requires id !in v.pending.nodes
    ensures var a := Buffer(Buffer(v, UpdateNode(id, p)), UpdateNode(id, q));
      a.cnt.ups == v.cnt.ups + 2 && a.pending.updates == v.pending.updates + [Map(p), Map(q)]
  {
  }
}
