/**
 * The streaming database view of the data library's PVM events. It buffers
 * node creations, relationship creations, node updates and relationship
 * updates keyed by database id, folds an update into a pending creation of
 * the same id, keeps only the latest pending update per id, and flushes and
 * commits as the count of buffered writes grows. The database itself is not
 * modelled: a flush is the batch it would send.
 */
module Neo4jView {
  import opened Ints
  import opened DbValue
  import VP = ViewPending

  type Id = u64

  /** A stream event, its node or relationship already encoded for the database. */
  datatype Event =
    | CreateNode(id: Id, labels: Value, props: Value)
    | CreateRel(id: Id, data: Value)
    | UpdateNode(id: Id, props: Value)
    | UpdateRel(id: Id, data: Value)

  /** The four pending buffers. */
  datatype Batch = Batch(nodes: map<Id, VP.Record>, rels: map<Id, Value>, upNodes: map<Id, Value>, upRels: map<Id, Value>)

  const Empty: Batch := Batch(map[], map[], map[], map[])

  /** The number of writes a batch holds. */
  function Size(b: Batch): nat
  {
    |b.nodes| + |b.rels| + |b.upNodes| + |b.upRels|
  }

  /**
   * The view's state: its buffers, its write/flush/commit counters, and the
   * relationship-update statistics (all received, those not absorbed into a
   * pending creation, those not absorbed into a pending update either).
   */
  datatype View = View(pending: Batch, cnt: VP.Counters, relUpBase: nat, relUpNode: nat, relUpRel: nat)

  function Start(): View
  {
    View(Empty, VP.Counters(0, 0, 0), 0, 0, 0)
  }

  /**
   * The counters are paced, the relationship statistics are nested, and
   * the buffers hold no more than the writes counted since the last flush.
   */
  ghost predicate Inv(v: View)
  {
    VP.Paced(v.cnt) && v.relUpBase >= v.relUpNode >= v.relUpRel
    && Size(v.pending) + v.cnt.btc * VP.BATCH_SIZE <= v.cnt.ups
  }

  lemma StartInv()
    ensures Inv(Start())
  {
  }

  /**
   * Buffers one event. Creations always count as a write; an update counts
   * only when it is neither folded into a pending creation nor replacing a
   * pending update of the same id.
   */
  function Buffer(v: View, e: Event): (r: View)
    ensures r.cnt.btc == v.cnt.btc && r.cnt.trs == v.cnt.trs
    ensures v.cnt.ups <= r.cnt.ups <= v.cnt.ups + 1
    ensures Size(r.pending) <= Size(v.pending) + (r.cnt.ups - v.cnt.ups)
    ensures r.cnt.ups == v.cnt.ups + 1 <==>
      e.CreateNode? || e.CreateRel?
      || (e.UpdateNode? && e.id !in v.pending.nodes && e.id !in v.pending.upNodes)
      || (e.UpdateRel? && e.id !in v.pending.rels && e.id !in v.pending.upRels)
    ensures e.CreateNode? ==>
      VP.HasProps(r.pending.nodes, e.id, e.props) && "labels" in r.pending.nodes[e.id] && r.pending.nodes[e.id]["labels"] == e.labels
    ensures e.CreateRel? ==> e.id in r.pending.rels && r.pending.rels[e.id] == e.data
    ensures e.UpdateNode? && e.id in v.pending.nodes ==>
      VP.HasProps(r.pending.nodes, e.id, e.props) && r.pending.upNodes == v.pending.upNodes
    ensures e.UpdateNode? && e.id !in v.pending.nodes ==>
      e.id in r.pending.upNodes && r.pending.upNodes[e.id] == e.props && r.pending.nodes == v.pending.nodes
    ensures e.UpdateRel? ==> r.pending.nodes == v.pending.nodes && r.pending.upNodes == v.pending.upNodes
    ensures e.UpdateRel? && e.id in v.pending.rels ==>
      e.id in r.pending.rels && r.pending.rels[e.id] == e.data && r.pending.upRels == v.pending.upRels
    ensures e.UpdateRel? && e.id !in v.pending.rels ==>
      e.id in r.pending.upRels && r.pending.upRels[e.id] == e.data && r.pending.rels == v.pending.rels
    ensures e.UpdateRel? ==>
      r.relUpBase == v.relUpBase + 1
      && (r.relUpNode == v.relUpNode + 1 <==> e.id !in v.pending.rels) && v.relUpNode <= r.relUpNode <= v.relUpNode + 1
      && r.relUpRel - v.relUpRel == r.cnt.ups - v.cnt.ups
    ensures !e.UpdateRel? ==> r.relUpBase == v.relUpBase && r.relUpNode == v.relUpNode && r.relUpRel == v.relUpRel
  {
    var p := v.pending;
    var c := v.cnt;
    match e
    case CreateNode(id, labels, props) =>
      v.(pending := p.(nodes := VP.AddNode(p.nodes, id, labels, props)), cnt := c.(ups := c.ups + 1))
    case CreateRel(id, data) =>
      v.(pending := p.(rels := p.rels[id := data]), cnt := c.(ups := c.ups + 1))
    case UpdateNode(id, props) =>
      var (nodes, back) := VP.UpdateNode(p.nodes, id, props);
      if back.None? then v.(pending := p.(nodes := nodes))
      else
        var (ups, isNew) := VP.AddUpdate(p.upNodes, id, back.value);
        v.(pending := p.(upNodes := ups), cnt := c.(ups := if isNew then c.ups + 1 else c.ups))
    case UpdateRel(id, data) =>
      var (rels, back) := VP.UpdatePending(p.rels, id, data);
      if back.None? then v.(pending := p.(rels := rels), relUpBase := v.relUpBase + 1)
      else
        var (ups, isNew) := VP.AddUpdate(p.upRels, id, back.value);
        v.(pending := p.(upRels := ups), relUpBase := v.relUpBase + 1, relUpNode := v.relUpNode + 1,
           cnt := c.(ups := if isNew then c.ups + 1 else c.ups),
           relUpRel := if isNew then v.relUpRel + 1 else v.relUpRel)
  }

  /**
   * One event: buffer it, flush every buffer when the write count passes the
   * next batch boundary, then commit when it passes the next transaction
   * boundary. A flush sends exactly what was pending and empties the buffers.
   */
  function Step(v: View, e: Event): (r: (View, seq<VP.Out<Batch>>))
    ensures r.0.cnt.ups == Buffer(v, e).cnt.ups
    ensures VP.Executions(r.1) == r.0.cnt.btc - v.cnt.btc <= 1
    ensures VP.Commits(r.1) == r.0.cnt.trs - v.cnt.trs <= 1
    ensures VP.Executions(r.1) == 1 ==> r.0.pending == Empty && r.1[0] == VP.Execute(Buffer(v, e).pending)
    ensures VP.Executions(r.1) == 0 ==> r.0.pending == Buffer(v, e).pending
  {
    var b := Buffer(v, e);
    var (c, flush, commit) := VP.Pace(b.cnt);
    var o1: seq<VP.Out<Batch>> := if flush then [VP.Execute(b.pending)] else [];
    var o2: seq<VP.Out<Batch>> := if commit then [VP.Commit] else [];
    VP.CountsConcat(o1, o2);
    (b.(pending := if flush then Empty else b.pending, cnt := c), o1 + o2)
  }

  /**
   * Each step keeps the invariant, so no flush sends more than one batch
   * and the one write that filled it.
   */
  lemma StepKeepsInv(v: View, e: Event)
    ensures Inv(v) ==> Inv(Step(v, e).0)
    ensures Inv(v) && VP.Executions(Step(v, e).1) == 1 ==> Size(Step(v, e).1[0].batch) <= VP.BATCH_SIZE + 1
  {
    VP.PaceKeepsPaced(v.cnt, Buffer(v, e).cnt.ups);
  }

  /** The event loop over a stream, with what it sent to the database. */
  function Run(v: View, es: seq<Event>): (r: (View, seq<VP.Out<Batch>>))
    decreases |es|
    ensures Inv(v) ==> Inv(r.0)
    ensures VP.Executions(r.1) == r.0.cnt.btc - v.cnt.btc
    ensures VP.Commits(r.1) == r.0.cnt.trs - v.cnt.trs
    ensures v.cnt.ups <= r.0.cnt.ups <= v.cnt.ups + |es|
  {
    if es == [] then (v, [])
    else
      var (v1, o1) := Step(v, es[0]);
      var (v2, o2) := Run(v1, es[1..]);
      StepKeepsInv(v, es[0]);
      VP.CountsConcat(o1, o2);
      (v2, o1 + o2)
  }

  /**
   * The whole stream: the loop, then a final flush of whatever is pending
   * and a final commit, which the transaction counter records.
   */
  function Process(es: seq<Event>): (r: (View, seq<VP.Out<Batch>>))
    ensures r.0.pending == Empty
    ensures VP.Executions(r.1) == r.0.cnt.btc + 1
    ensures VP.Commits(r.1) == r.0.cnt.trs
    ensures r.0.cnt.ups <= |es| && r.0.cnt.ups <= (r.0.cnt.btc + 1) * VP.BATCH_SIZE
    ensures r.0.relUpBase >= r.0.relUpNode >= r.0.relUpRel
    ensures |r.1| >= 2 && r.1[|r.1| - 1] == VP.Commit && r.1[|r.1| - 2].Execute?
  {
    StartInv();
    var (v, os) := Run(Start(), es);
    var fin: seq<VP.Out<Batch>> := [VP.Execute(v.pending), VP.Commit];
    VP.CountsConcat(os, fin);
    (v.(pending := Empty, cnt := v.cnt.(trs := v.cnt.trs + 1)), os + fin)
  }

  /**
   * A node created and then updated before the next flush is one pending
   * creation carrying the updated properties, counted once.
   */
  lemma CreateThenUpdateOneWrite(v: View, id: Id, labels: Value, p: Value, q: Value)
    ensures var a := Buffer(Buffer(v, CreateNode(id, labels, p)), UpdateNode(id, q));
      a.cnt.ups == v.cnt.ups + 1 && VP.HasProps(a.pending.nodes, id, q)
      && "labels" in a.pending.nodes[id] && a.pending.nodes[id]["labels"] == labels
      && a.pending.upNodes == v.pending.upNodes
  {
  }

  /**
   * Repeated updates of a node with no pending creation are one pending
   * update carrying the last value, counted once.
   */
  lemma UpdatesCoalesce(v: View, id: Id, p: Value, q: Value)
    requires id !in v.pending.nodes && id !in v.pending.upNodes
    ensures var a := Buffer(Buffer(v, UpdateNode(id, p)), UpdateNode(id, q));
      a.cnt.ups == v.cnt.ups + 1 && id in a.pending.upNodes && a.pending.upNodes[id] == q
      && a.pending.nodes == v.pending.nodes
  {
  }
}
