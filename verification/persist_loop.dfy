/**
 * The ingest crate's older persistence loop. Its buffers behave like the
 * streaming view's (a keyed creation buffer that absorbs updates, and
 * append-only lists for relationships and unabsorbed updates), but its
 * thresholds count from zero: it flushes once ups reaches qrs·BATCH_SIZE and
 * commits once ups passes trs·TR_SIZE, so the first event is flushed and
 * committed at once.
 */
module PersistLoop {
  import opened Ints
  import opened DbValue
  import VP = ViewPending

  type NodeId = i64

  /** Events arrive with labels, properties and relationships already encoded. */
  datatype Event =
    | CreateNode(id: NodeId, labs: Value, props: Value)
    | CreateRel(props: Value)
    | UpdateNode(id: NodeId, props: Value)

  datatype Batch = Batch(nodes: map<NodeId, VP.Record>, rels: seq<Value>, updates: seq<Value>)

  const Empty: Batch := Batch(map[], [], [])

  function Size(b: Batch): nat
  {
    |b.nodes| + |b.rels| + |b.updates|
  }

  /** The loop's state; the counters' `btc` is the source's query counter `qrs`. */
  datatype Loop = Loop(pending: Batch, cnt: VP.Counters)

  function Start(): Loop
  {
    Loop(Empty, VP.Counters(0, 0, 0))
  }

  /**
   * Writes counted so far lie in the batch opened by the last flush, the
   * last commit came after its transaction began, and the buffers hold no
   * more than was counted since the last flush.
   */
  ghost predicate Inv(l: Loop)
  {
    var c := l.cnt;
    (if c.btc == 0 then c.ups == 0 && l.pending == Empty
     else (c.btc - 1) * VP.BATCH_SIZE <= c.ups < c.btc * VP.BATCH_SIZE
          && Size(l.pending) + (c.btc - 1) * VP.BATCH_SIZE <= c.ups)
    && c.ups <= c.trs * VP.TR_SIZE && (c.trs == 0 || (c.trs - 1) * VP.TR_SIZE < c.ups)
  }

  lemma StartInv()
    ensures Inv(Start())
  {
  }

  /** Buffers one event; only an update absorbed into a pending creation goes uncounted. */
  function Buffer(l: Loop, e: Event): (r: Loop)
    ensures r.cnt.btc == l.cnt.btc && r.cnt.trs == l.cnt.trs
    ensures r.cnt.ups == (if e.UpdateNode? && e.id in l.pending.nodes then l.cnt.ups else l.cnt.ups + 1)
    ensures Size(r.pending) <= Size(l.pending) + (r.cnt.ups - l.cnt.ups)
    ensures e.CreateNode? ==>
      VP.HasProps(r.pending.nodes, e.id, e.props)
      && "labels" in r.pending.nodes[e.id] && r.pending.nodes[e.id]["labels"] == e.labs
    ensures e.CreateRel? ==> r.pending.rels == l.pending.rels + [e.props]
    ensures !e.CreateRel? ==> r.pending.rels == l.pending.rels
    ensures e.UpdateNode? && e.id in l.pending.nodes ==>
      VP.HasProps(r.pending.nodes, e.id, e.props) && r.pending.updates == l.pending.updates
    ensures e.UpdateNode? && e.id !in l.pending.nodes ==>
      r.pending.updates == l.pending.updates + [e.props] && r.pending.nodes == l.pending.nodes
    ensures !e.UpdateNode? ==> r.pending.updates == l.pending.updates
  {
    var p := l.pending;
    var c := l.cnt;
    match e
    case CreateNode(id, labs, props) =>
      l.(pending := p.(nodes := VP.AddNode(p.nodes, id, labs, props)), cnt := c.(ups := c.ups + 1))
    case CreateRel(props) =>
      l.(pending := p.(rels := p.rels + [props]), cnt := c.(ups := c.ups + 1))
    case UpdateNode(id, props) =>
      var (nodes, back) := VP.UpdateNode(p.nodes, id, props);
      if back.None? then l.(pending := p.(nodes := nodes))
      else l.(pending := p.(updates := p.updates + [back.value]), cnt := c.(ups := c.ups + 1))
  }

  /**
   * The check after each event: flush when ups has reached qrs·BATCH_SIZE,
   * commit when ups exceeds trs·TR_SIZE.
   */
  function Pace(c: VP.Counters): (r: (VP.Counters, bool, bool))
    ensures r.0.ups == c.ups
    ensures r.1 <==> c.ups >= c.btc * VP.BATCH_SIZE
    ensures r.2 <==> c.ups > c.trs * VP.TR_SIZE
    ensures r.0.btc == (if r.1 then c.btc + 1 else c.btc)
    ensures r.0.trs == (if r.2 then c.trs + 1 else c.trs)
  {
    var flush := c.ups >= c.btc * VP.BATCH_SIZE;
    var commit := c.ups > c.trs * VP.TR_SIZE;
    (VP.Counters(c.ups, if flush then c.btc + 1 else c.btc, if commit then c.trs + 1 else c.trs), flush, commit)
  }

  function Step(l: Loop, e: Event): (r: (Loop, seq<VP.Out<Batch>>))
    ensures r.0.cnt.ups == Buffer(l, e).cnt.ups
    ensures VP.Executions(r.1) == r.0.cnt.btc - l.cnt.btc <= 1
    ensures VP.Commits(r.1) == r.0.cnt.trs - l.cnt.trs <= 1
    ensures VP.Executions(r.1) == 1 ==> r.0.pending == Empty && r.1[0] == VP.Execute(Buffer(l, e).pending)
    ensures VP.Executions(r.1) == 0 ==> r.0.pending == Buffer(l, e).pending
  {
    var b := Buffer(l, e);
    var (c, flush, commit) := Pace(b.cnt);
    var o1: seq<VP.Out<Batch>> := if flush then [VP.Execute(b.pending)] else [];
    var o2: seq<VP.Out<Batch>> := if commit then [VP.Commit] else [];
    VP.CountsConcat(o1, o2);
    (b.(pending := if flush then Empty else b.pending, cnt := c), o1 + o2)
  }

  /**
   * Each step keeps the invariant; so every flush after the first sends at
   * most one batch, and it fires exactly when a batch is full.
   */
  lemma StepKeepsInv(l: Loop, e: Event)
    ensures Inv(l) ==> Inv(Step(l, e).0)
    ensures Inv(l) && VP.Executions(Step(l, e).1) == 1 ==> Size(Step(l, e).1[0].batch) <= VP.BATCH_SIZE
    ensures Inv(l) && l.cnt.btc > 0 && VP.Executions(Step(l, e).1) == 1 ==> Step(l, e).0.cnt.ups == l.cnt.btc * VP.BATCH_SIZE
  {
  }

  /**
   * From the start, the first event is flushed on its own and committed at
   * once, whatever it is.
   */
  lemma FirstEventFlushesAndCommits(e: Event)
    ensures Step(Start(), e).1 == [VP.Execute(Buffer(Start(), e).pending), VP.Commit]
    ensures Size(Buffer(Start(), e).pending) == 1
  {
  }

  function Run(l: Loop, es: seq<Event>): (r: (Loop, seq<VP.Out<Batch>>))
    decreases |es|
    ensures Inv(l) ==> Inv(r.0)
    ensures VP.Executions(r.1) == r.0.cnt.btc - l.cnt.btc
    ensures VP.Commits(r.1) == r.0.cnt.trs - l.cnt.trs
    ensures l.cnt.ups <= r.0.cnt.ups <= l.cnt.ups + |es|
  {
    if es == [] then (l, [])
    else
      var (l1, o1) := Step(l, es[0]);
      var (l2, o2) := Run(l1, es[1..]);
      StepKeepsInv(l, es[0]);
      VP.CountsConcat(o1, o2);
      (l2, o1 + o2)
  }

  /**
   * The whole stream: the loop, then a final flush and a final commit, each
   * recorded in its counter.
   */
  function Process(es: seq<Event>): (r: (Loop, seq<VP.Out<Batch>>))
    ensures r.0.pending == Empty
    ensures VP.Executions(r.1) == r.0.cnt.btc && VP.Commits(r.1) == r.0.cnt.trs
    ensures r.0.cnt.ups <= |es|
    ensures es != [] ==> r.0.cnt.btc >= 2 && r.0.cnt.trs >= 2
    ensures |r.1| >= 2 && r.1[|r.1| - 1] == VP.Commit && r.1[|r.1| - 2].Execute?
  {
    StartInv();
    var (l, os) := Run(Start(), es);
    var fin: seq<VP.Out<Batch>> := [VP.Execute(l.pending), VP.Commit];
    VP.CountsConcat(os, fin);
    (l.(pending := Empty, cnt := l.cnt.(btc := l.cnt.btc + 1, trs := l.cnt.trs + 1)), os + fin)
  }
}
