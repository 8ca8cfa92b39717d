/**
 * The C++ engine's UUID-to-node cache. The id counter is an atomic 32-bit
 * integer whose start value the class leaves uninitialised: it is a
 * parameter here. The post-increment wraps in two's complement.
 *
 * The header declares `check` as returning the node alone while the engine
 * uses it as a (node, inserted) pair, and the engine calls a `release` the
 * header never declares; the model gives `check` the pair result the engine
 * needs and `release` the removal of the UUID's mapping.
 */
module CppPvmCache {
  import opened Ints
  import opened CppNode

  datatype Cache = Cache(nodes: map<string, Node>, counter: i32)

  /** A cache with no nodes whose counter starts at `start`. */
  function Empty(start: i32): (r: Cache)
    ensures r.nodes == map[] && r.counter == start
  {
    Cache(map[], start)
  }

  /** The atomic post-increment's new value. */
  function Bump(x: i32): (r: i32)
    ensures x < TWO_31 - 1 ==> r == x + 1
    ensures x == TWO_31 - 1 ==> r == -TWO_31
  {
    ToI32(x + 1)
  }

  /**
   * A new node takes the counter as its id and the counter moves on; the
   * UUID is (re)bound to the new node and every other binding is kept.
   */
  function Add(c: Cache, uuid: string, cmdline: string, thin: bool): (r: (Cache, Node))
    ensures r.1 == Node(c.counter, cmdline, thin)
    ensures r.0.counter == Bump(c.counter)
    ensures r.0.nodes.Keys == c.nodes.Keys + {uuid}
    ensures r.0.nodes[uuid] == r.1
    ensures forall u | u in c.nodes && u != uuid :: r.0.nodes[u] == c.nodes[u]
  {
    var n := Node(c.counter, cmdline, thin);
    (Cache(c.nodes[uuid := n], Bump(c.counter)), n)
  }

  /**
   * The node bound to `uuid`, and whether it was inserted: a bound UUID
   * changes nothing; an unbound one gets a new thin node with `cmdline`.
   */
  function Check(c: Cache, uuid: string, cmdline: string): (r: (Cache, Node, bool))
    ensures uuid in c.nodes ==> r == (c, c.nodes[uuid], false)
    ensures uuid !in c.nodes ==> r.2 && (r.0, r.1) == Add(c, uuid, cmdline, true)
    ensures uuid in r.0.nodes && r.0.nodes[uuid] == r.1
  {
    if uuid in c.nodes then (c, c.nodes[uuid], false)
    else
      var (c', n) := Add(c, uuid, cmdline, true);
      (c', n, true)
  }

  /** Forgets the UUID's binding; the counter and other bindings are kept. */
  function Release(c: Cache, uuid: string): (r: Cache)
    ensures r.nodes.Keys == c.nodes.Keys - {uuid}
    ensures forall u | u in r.nodes :: r.nodes[u] == c.nodes[u]
    ensures r.counter == c.counter
  {
    c.(nodes := c.nodes - {uuid})
  }

  /**
   * Ids handed out so far lie in [start, counter) and no two bound UUIDs
   * share a node id; this holds while the counter has not wrapped.
   */
  predicate Valid(c: Cache, start: int)
  {
    (forall u | u in c.nodes :: start <= c.nodes[u].dbId < c.counter)
    && (forall u, v | u in c.nodes && v in c.nodes && u != v :: c.nodes[u].dbId != c.nodes[v].dbId)
  }

  lemma EmptyValid(start: i32)
    ensures Valid(Empty(start), start)
  {
  }

  /** `add` keeps the cache valid as long as the counter does not wrap. */
  lemma AddValid(c: Cache, start: int, uuid: string, cmdline: string, thin: bool)
    requires Valid(c, start) && start <= c.counter < TWO_31 - 1
    ensures Valid(Add(c, uuid, cmdline, thin).0, start)
    ensures Add(c, uuid, cmdline, thin).1.dbId !in (set u | u in c.nodes :: c.nodes[u].dbId)
  {
  }

  lemma CheckValid(c: Cache, start: int, uuid: string, cmdline: string)
    requires Valid(c, start) && start <= c.counter < TWO_31 - 1
    ensures Valid(Check(c, uuid, cmdline).0, start)
  {
    if uuid !in c.nodes {
      AddValid(c, start, uuid, cmdline, true);
    }
  }

  lemma ReleaseValid(c: Cache, start: int, uuid: string)
    requires Valid(c, start)
    ensures Valid(Release(c, uuid), start)
  {
  }

  /** Two consecutive checks of one UUID give the same node; the second inserts nothing. */
  lemma CheckTwice(c: Cache, uuid: string, cmd1: string, cmd2: string)
    ensures
      var (c1, n1, _) := Check(c, uuid, cmd1);
      Check(c1, uuid, cmd2) == (c1, n1, false)
  {
  }

  /** After `add`, a check of the UUID finds the added node with its command line and flag. */
  lemma AddThenCheck(c: Cache, uuid: string, cmdline: string, thin: bool, cmd2: string)
    ensures
      var (c1, n) := Add(c, uuid, cmdline, thin);
      Check(c1, uuid, cmd2) == (c1, n, false) && n.cmdline == cmdline && n.thin == thin
  {
  }

  /** Ids of successive adds strictly increase while the counter does not wrap. */
  lemma AddIdsIncrease(c: Cache, u1: string, m1: string, t1: bool, u2: string, m2: string, t2: bool)
    requires c.counter < TWO_31 - 1
    ensures
      var (c1, n1) := Add(c, u1, m1, t1);
      n1.dbId < Add(c1, u2, m2, t2).1.dbId
  {
  }

  /** Rewriting a bound node without changing its id keeps the cache valid. */
  lemma ReplaceValid(c: Cache, start: int, uuid: string, n: Node)
    requires Valid(c, start) && uuid in c.nodes && n.dbId == c.nodes[uuid].dbId
    ensures Valid(c.(nodes := c.nodes[uuid := n]), start)
  {
  }
}
