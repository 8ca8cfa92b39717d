/**
 * The current crate's process cache, built on the loan-tracking store: a
 * map from UUID to node id, the store of nodes keyed by id, and a counter
 * handing out ids from 0. Nodes come back checked out (as guards).
 */
module IngestPvmCache {
  import opened Ints
  import opened Wrappers
  import Uuid
  import CS = CheckingStore

  datatype Node = Node(dbId: i64, uuid: Uuid.Uuid5, pid: i32, cmdline: string, thin: bool)

  type Guard = CS.Guard<i64, Node>

  datatype Cache = Cache(uuids: map<Uuid.Uuid5, i64>, nodes: CS.Store<i64, Node>, counter: u64)

  function New(): (c: Cache)
    ensures c.uuids == map[] && c.nodes.entries == map[] && c.nodes.outstanding == 0 && c.counter == 0
  {
    Cache(map[], CS.New(), 0)
  }

  /** The store's own invariant, ids below the counter, and every mapped id present in the store. */
  predicate Valid(c: Cache)
  {
    CS.Valid(c.nodes) && c.counter < TWO_63
    && (forall id :: id in c.nodes.entries ==> 0 <= id < c.counter)
    && (forall u :: u in c.uuids ==> CS.ContainsKey(c.nodes, c.uuids[u]))
  }

  /**
   * A new node takes the counter as its id (the counter then moves on), is
   * bound to the UUID, stored, and handed back checked out.
   */
  function Add(c: Cache, uuid: Uuid.Uuid5, pid: i32, cmdline: string, thin: bool): (r: Result<(Cache, Guard), string>)
    ensures Valid(c) ==> r.Ok?
    ensures r.Ok? ==>
      var id := ToI64(c.counter);
      r.value.1 == CS.Guard(id, Node(id, uuid, pid, cmdline, thin))
      && r.value.0.uuids == c.uuids[uuid := id]
      && r.value.0.counter == ToU64(c.counter + 1)
      && r.value.0.nodes.entries == c.nodes.entries[id := CS.Loaned]
  {
    var id := ToI64(c.counter);
    var c1 := c.(counter := ToU64(c.counter + 1), uuids := c.uuids[uuid := id]);
    match CS.Insert(c.nodes, id, Node(id, uuid, pid, cmdline, thin))
      case Err(e) => Err(e)
      case Ok(s1) =>
        match CS.Take(s1, id)
          case Err(e) => Err(e)
          case Ok((s2, g)) => Ok((c1.(nodes := s2), g))
  }

  /**
   * An unknown UUID gets a new thin node (`true`); a known one's node is
   * checked out (`false`) and no id is allocated.
   */
  function Check(c: Cache, uuid: Uuid.Uuid5, pid: i32, cmdline: string): (r: Result<(Cache, bool, Guard), string>)
    ensures uuid !in c.uuids ==>
      r == (match Add(c, uuid, pid, cmdline, true)
              case Ok((c1, g)) => Ok((c1, true, g))
              case Err(e) => Err(e))
    ensures uuid in c.uuids && r.Ok? ==>
      !r.value.1 && r.value.0.counter == c.counter && r.value.0.uuids == c.uuids
      && c.uuids[uuid] in c.nodes.entries && c.nodes.entries[c.uuids[uuid]].Present?
      && r.value.2 == CS.Guard(c.uuids[uuid], c.nodes.entries[c.uuids[uuid]].value)
    ensures uuid in c.uuids ==>
      (r.Ok? <==> c.uuids[uuid] in c.nodes.entries && c.nodes.entries[c.uuids[uuid]].Present?)
  {
    if uuid !in c.uuids then
      match Add(c, uuid, pid, cmdline, true)
        case Ok((c1, g)) => Ok((c1, true, g))
        case Err(e) => Err(e)
    else
      match CS.Take(c.nodes, c.uuids[uuid])
        case Ok((s1, g)) => Ok((c.(nodes := s1), false, g))
        case Err(e) => Err(e)
  }

  /** Forgets the UUID's binding only; the node stays in the store. */
  function Release(c: Cache, uuid: Uuid.Uuid5): (r: Cache)
    ensures uuid !in r.uuids && r.nodes == c.nodes && r.counter == c.counter
    ensures r.uuids == c.uuids - {uuid}
  {
    c.(uuids := c.uuids - {uuid})
  }

  /** Returns a guard's node to the store. */
  function Checkin(c: Cache, g: Guard): (r: Result<Cache, string>)
    ensures r.Ok? <==> g.key in CS.Lent(c.nodes)
    ensures r.Ok? ==> r.value.uuids == c.uuids && r.value.counter == c.counter
    ensures r.Ok? && c.nodes.entries[g.key].Loaned? ==> g.key in r.value.nodes.entries && r.value.nodes.entries[g.key] == CS.Present(g.value)
  {
    match CS.DropGuard(c.nodes, g)
      case Ok(s) => Ok(c.(nodes := s))
      case Err(e) => Err(e)
  }

  lemma NewValid()
    ensures Valid(New())
  {
    CS.NewValid<i64, Node>();
  }

  /** An add keeps the cache valid while the counter is clear of the i64 range's end. */
  lemma AddValid(c: Cache, uuid: Uuid.Uuid5, pid: i32, cmdline: string, thin: bool)
    requires Valid(c) && c.counter < TWO_63 - 1
    ensures Valid(Add(c, uuid, pid, cmdline, thin).value.0)
  {
    var id := ToI64(c.counter);
    var s1 := CS.Insert(c.nodes, id, Node(id, uuid, pid, cmdline, thin)).value;
    CS.InsertValid(c.nodes, id, Node(id, uuid, pid, cmdline, thin));
    CS.LentBounded(c.nodes, c.counter as nat);
    CS.CheckoutValid(s1, id);
  }

  /** A new node's id was never handed out before: it is not in the store. */
  lemma AddIdFresh(c: Cache, uuid: Uuid.Uuid5, pid: i32, cmdline: string, thin: bool)
    requires Valid(c)
    ensures
      var (c1, g) := Add(c, uuid, pid, cmdline, thin).value;
      g.key == c.counter && g.key !in c.nodes.entries && c1.counter == c.counter + 1
  {
  }

  lemma CheckValid(c: Cache, uuid: Uuid.Uuid5, pid: i32, cmdline: string)
    requires Valid(c) && c.counter < TWO_63 - 1
    ensures Check(c, uuid, pid, cmdline).Ok? ==> Valid(Check(c, uuid, pid, cmdline).value.0)
  {
    if uuid !in c.uuids {
      AddValid(c, uuid, pid, cmdline, true);
    } else {
      CS.LentBounded(c.nodes, c.counter as nat);
      CS.CheckoutValid(c.nodes, c.uuids[uuid]);
    }
  }

  /** A UUID whose node is still checked out cannot be checked again: the store panics. */
  lemma CheckWhileLoanedPanics(c: Cache, uuid: Uuid.Uuid5, pid: i32, cmdline: string)
    requires Valid(c) && uuid in c.uuids && c.nodes.entries[c.uuids[uuid]].Loaned?
    ensures Check(c, uuid, pid, cmdline) == Err(CS.CheckoutLoaned)
  {
  }

  lemma ReleaseValid(c: Cache, uuid: Uuid.Uuid5)
    requires Valid(c)
    ensures Valid(Release(c, uuid))
  {
  }

  lemma CheckinValid(c: Cache, g: Guard)
    requires Valid(c)
    ensures Checkin(c, g).Ok? ==> Valid(Checkin(c, g).value)
  {
    CS.CheckinValid(c.nodes, g.key, g.value);
  }

  /** Checking a known UUID, returning the guard, and checking again yields the same node. */
  lemma CheckCheckinCheck(c: Cache, uuid: Uuid.Uuid5, pid: i32, cmdline: string)
    requires Valid(c) && uuid in c.uuids && c.nodes.entries[c.uuids[uuid]].Present?
    ensures
      var (c1, _, g) := Check(c, uuid, pid, cmdline).value;
      var c2 := Checkin(c1, g).value;
      Check(c2, uuid, pid, cmdline).Ok? && Check(c2, uuid, pid, cmdline).value.2 == g
  {
    var (c1, _, g) := Check(c, uuid, pid, cmdline).value;
    assert c1.nodes.entries[g.key].Loaned?;
  }
}
