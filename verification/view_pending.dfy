/**
 * The pending-work buffers the database views share. A view buffers node
 * creations by id; a later property update of a node whose creation is still
 * pending is folded into that creation instead of being sent on its own.
 * Update buffers keyed by id keep only the latest value per id.
 */
module ViewPending {
  import opened Wrappers
  import opened DbValue

  /** Buffered writes between two flushes. */
  const BATCH_SIZE: nat := 1000
  /** Buffered writes between two commits. */
  const TR_SIZE: nat := 100000

  /** A pending node creation: its label list and its property map. */
  type Record = map<string, Value>

  /** The pending creation of `id` carries these properties. */
  predicate HasProps<K>(c: map<K, Record>, id: K, props: Value)
  {
    id in c && "props" in c[id] && c[id]["props"] == props
  }

  function NodeRecord(labels: Value, props: Value): Record
  {
    map["labels" := labels, "props" := props]
  }

  /** `CreateNodes::add`: buffers the creation, replacing an earlier one of the same id. */
  function AddNode<K>(c: map<K, Record>, id: K, labels: Value, props: Value): (r: map<K, Record>)
    ensures r.Keys == c.Keys + {id}
    ensures r[id].Keys == {"labels", "props"} && r[id]["labels"] == labels && r[id]["props"] == props
    ensures r - {id} == c - {id}
  {
    c[id := NodeRecord(labels, props)]
  }

  /**
   * `CreateNodes::update`: an update of a node whose creation is pending
   * replaces the pending properties and is absorbed (None); otherwise the
   * properties are handed back unchanged to be sent as an update.
   */
  function UpdateNode<K>(c: map<K, Record>, id: K, props: Value): (r: (map<K, Record>, Option<Value>))
    ensures r.1.None? <==> id in c
    ensures r.1.Some? ==> r.0 == c && r.1.value == props
    ensures id in c ==> r.0.Keys == c.Keys && "props" in r.0[id] && r.0[id]["props"] == props
    ensures id in c ==> r.0[id] - {"props"} == c[id] - {"props"} && r.0 - {id} == c - {id}
  {
    if id in c then (c[id := c[id]["props" := props]], None) else (c, Some(props))
  }

  /**
   * A creation followed by an update of the same id is one creation carrying
   * the updated properties, and nothing is handed back.
   */
  lemma CreateThenUpdate<K>(c: map<K, Record>, id: K, labels: Value, p: Value, q: Value)
    ensures UpdateNode(AddNode(c, id, labels, p), id, q) == (AddNode(c, id, labels, q), None)
  {
    var a := AddNode(c, id, labels, p);
    assert a[id]["props" := q] == NodeRecord(labels, q);
    assert a[id := NodeRecord(labels, q)] == c[id := NodeRecord(labels, q)];
  }

  /**
   * `CreateRels::update` in the keyed view: an update of a pending
   * relationship replaces it (None); otherwise the data is handed back.
   */
  function UpdatePending<K>(m: map<K, Value>, id: K, v: Value): (r: (map<K, Value>, Option<Value>))
    ensures r.1.None? <==> id in m
    ensures r.1.Some? ==> r.0 == m && r.1.value == v
    ensures id in m ==> r.0.Keys == m.Keys && r.0[id] == v && r.0 - {id} == m - {id}
  {
    if id in m then (m[id := v], None) else (m, Some(v))
  }

  /**
   * `UpdateNodes::add` / `UpdateRels::add`: the latest value per id is kept;
   * the result says whether the id was not pending before.
   */
  function AddUpdate<K>(m: map<K, Value>, id: K, v: Value): (r: (map<K, Value>, bool))
    ensures r.1 <==> id !in m
    ensures r.0.Keys == m.Keys + {id} && r.0[id] == v && r.0 - {id} == m - {id}
  {
    (m[id := v], id !in m)
  }

  /** Two updates of one id leave the second value and count as new only the first time. */
  lemma AddUpdateTwice<K>(m: map<K, Value>, id: K, v: Value, w: Value)
    ensures AddUpdate(AddUpdate(m, id, v).0, id, w) == (AddUpdate(m, id, w).0, false)
  {
    assert m[id := v][id := w] == m[id := w];
  }

  // ------------------------------------------------------------- pacing

  /** What a view sends to the database: a flush of its buffers, or a commit. */
  datatype Out<B> = Execute(batch: B) | Commit

  function Executions<B>(os: seq<Out<B>>): (r: nat)
    ensures r <= |os|
  {
    if os == [] then 0 else (if os[0].Execute? then 1 else 0) + Executions(os[1..])
  }

  function Commits<B>(os: seq<Out<B>>): (r: nat)
    ensures r <= |os|
  {
    if os == [] then 0 else (if os[0].Commit? then 1 else 0) + Commits(os[1..])
  }

  lemma {:induction false} CountsConcat<B>(a: seq<Out<B>>, b: seq<Out<B>>)
    ensures Executions(a + b) == Executions(a) + Executions(b)
    ensures Commits(a + b) == Commits(a) + Commits(b)
  {
    if a == [] {
      assert a + b == b;
    } else {
      assert (a + b)[0] == a[0];
      assert (a + b)[1..] == a[1..] + b;
      CountsConcat(a[1..], b);
    }
  }

  /** Counted writes, flushes (batches) and commits (transactions) so far. */
  datatype Counters = Counters(ups: nat, btc: nat, trs: nat)

  /**
   * Between two flushes at most one batch of writes accumulates: every
   * flush came after its batch filled, and the counted writes never run
   * more than a batch ahead. Likewise for commits.
   */
  predicate Paced(c: Counters)
  {
    c.ups <= (c.btc + 1) * BATCH_SIZE && (c.btc == 0 || c.btc * BATCH_SIZE < c.ups)
    && c.ups <= (c.trs + 1) * TR_SIZE && (c.trs == 0 || c.trs * TR_SIZE < c.ups)
  }

  /**
   * The check after each event: flush once ups passes (btc+1)·BATCH_SIZE,
   * then commit once it passes (trs+1)·TR_SIZE. Returns the new counters and
   * whether it flushed and whether it committed.
   */
  function Pace(c: Counters): (r: (Counters, bool, bool))
    ensures r.0.ups == c.ups
    ensures r.1 <==> c.ups > (c.btc + 1) * BATCH_SIZE
    ensures r.2 <==> c.ups > (c.trs + 1) * TR_SIZE
    ensures r.0.btc == (if r.1 then c.btc + 1 else c.btc)
    ensures r.0.trs == (if r.2 then c.trs + 1 else c.trs)
  {
    var flush := c.ups > (c.btc + 1) * BATCH_SIZE;
    var commit := c.ups > (c.trs + 1) * TR_SIZE;
    (Counters(c.ups, if flush then c.btc + 1 else c.btc, if commit then c.trs + 1 else c.trs), flush, commit)
  }

  /** Counting at most one more write and then pacing keeps the counters paced. */
  lemma PaceKeepsPaced(c: Counters, u: nat)
    ensures Paced(c) && c.ups <= u <= c.ups + 1 ==> Paced(Pace(c.(ups := u)).0)
  {
  }
}
