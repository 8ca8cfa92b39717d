/**
 * The older Rust library's process cache: UUID-keyed nodes and an id
 * counter that starts at 0. The counter is an atomic machine word (64 bits
 * here) and each id is that word reinterpreted as a signed 64-bit value.
 */
module V1PvmCache {
  import opened Ints
  import opened Wrappers
  import opened Uuid

  datatype Node = Node(dbId: i64, cmdline: string, thin: bool)

  datatype Cache = Cache(nodes: map<Uuid5, Node>, counter: u64)

  /** `PVMCache::new`: empty, counter 0. */
  function New(): (r: Cache)
    ensures r.nodes == map[] && r.counter == 0
  {
    Cache(map[], 0)
  }

  /** `add`: the counter (as a signed id) names a new node bound to the UUID; the counter moves on. */
  function Add(c: Cache, uuid: Uuid5, cmdline: string, thin: bool): (r: Cache)
    ensures r.nodes == c.nodes[uuid := Node(ToI64(c.counter), cmdline, thin)]
    ensures c.counter < TWO_64 - 1 ==> r.counter == c.counter + 1
    ensures c.counter < TWO_63 ==> r.nodes[uuid].dbId == c.counter
  {
    Cache(c.nodes[uuid := Node(ToI64(c.counter), cmdline, thin)], ToU64(c.counter + 1))
  }

  /** `check`: true, after adding a thin node, exactly when the UUID was unbound. */
  function Check(c: Cache, uuid: Uuid5, cmdline: string): (r: (Cache, bool))
    ensures r.1 <==> uuid !in c.nodes
    ensures r.1 ==> r.0 == Add(c, uuid, cmdline, true)
    ensures !r.1 ==> r.0 == c
    ensures uuid in r.0.nodes
  {
    if uuid !in c.nodes then (Add(c, uuid, cmdline, true), true) else (c, false)
  }

  /** `get`: the bound node; indexing a missing key panics. */
  function Get(c: Cache, uuid: Uuid5): (r: Option<Node>)
    ensures r.Some? <==> uuid in c.nodes
    ensures r.Some? ==> r.value == c.nodes[uuid]
  {
    if uuid in c.nodes then Some(c.nodes[uuid]) else None
  }

  /** `set`: rewrites command line and flag of a bound node, keeping its id; unbound panics (`None`). */
  function Set(c: Cache, uuid: Uuid5, cmdline: string, thin: bool): (r: Option<Cache>)
    ensures r.Some? <==> uuid in c.nodes
    ensures r.Some? ==> r.value.counter == c.counter
    ensures r.Some? ==> r.value.nodes.Keys == c.nodes.Keys
    ensures r.Some? ==> r.value.nodes[uuid] == Node(c.nodes[uuid].dbId, cmdline, thin)
    ensures r.Some? ==> forall u | u in c.nodes && u != uuid :: r.value.nodes[u] == c.nodes[u]
  {
    if uuid in c.nodes then
      Some(c.(nodes := c.nodes[uuid := c.nodes[uuid].(cmdline := cmdline, thin := thin)]))
    else None
  }

  /** Ids below the counter, distinct per UUID: kept by every operation while the counter is below 2^63. */
  predicate Valid(c: Cache)
  {
    (forall u | u in c.nodes :: 0 <= c.nodes[u].dbId < c.counter)
    && (forall u, v | u in c.nodes && v in c.nodes && u != v :: c.nodes[u].dbId != c.nodes[v].dbId)
  }

  lemma NewValid()
    ensures Valid(New())
  {
  }

  lemma AddValid(c: Cache, uuid: Uuid5, cmdline: string, thin: bool)
    requires Valid(c) && c.counter < TWO_63 - 1
    ensures Valid(Add(c, uuid, cmdline, thin))
  {
  }

  lemma CheckValid(c: Cache, uuid: Uuid5, cmdline: string)
    requires Valid(c) && c.counter < TWO_63 - 1
    ensures Valid(Check(c, uuid, cmdline).0)
  {
    if uuid !in c.nodes {
      AddValid(c, uuid, cmdline, true);
    }
  }

  lemma SetValid(c: Cache, uuid: Uuid5, cmdline: string, thin: bool)
    requires Valid(c) && uuid in c.nodes
    ensures Valid(Set(c, uuid, cmdline, thin).value)
  {
  }

  /** After a check the UUID can be fetched, and a second check changes nothing. */
  lemma CheckThenGet(c: Cache, uuid: Uuid5, m1: string, m2: string)
    ensures Get(Check(c, uuid, m1).0, uuid).Some?
    ensures Check(Check(c, uuid, m1).0, uuid, m2) == (Check(c, uuid, m1).0, false)
  {
  }
}
