/**
 * The current crate's graph builder. It owns the UUID-to-id map, the
 * loan-tracking store of nodes, the id counter, the set of information
 * flows already recorded, and the open sets of edit sessions. Each
 * operation returns the builder's new state and the database actions it
 * emits, in order; a panic is the `Err` of the result.
 */
module IngestPvm {
  import opened Ints
  import opened Wrappers
  import Uuid
  import CS = CheckingStore
  import NT = NodeTypes

  type Uuid5 = Uuid.Uuid5
  type Node = NT.DataNode<Uuid5>
  type Guard = CS.Guard<i64, Node>

  /** What the builder sends to the database writer. */
  datatype Action =
    | CreateNode(node: Node)
    | CreateRel(src: i64, dst: i64, ty: string, rclass: string)
    | UpdateNode(node: Node)

  /** The kind of node to build and its optional init record. */
  datatype Init =
    | ProcInit(p: Option<NT.ProcessInit>)
    | FileInit(name: Option<string>)
    | EditInit(name: Option<string>)
    | PipeInit(fd: Option<i32>)
    | SocketInit(s: Option<NT.SocketInit>)
    | PttyInit(name: Option<string>)

  datatype Pvm = Pvm(
    uuids: map<Uuid5, i64>,
    nodes: CS.Store<i64, Node>,
    counter: u64,
    inf: set<(i64, i64)>,
    open: map<Uuid5, set<Uuid5>>,
    unparsed: set<string>)

  function New(): (p: Pvm)
    ensures p.uuids == map[] && p.nodes == CS.New() && p.counter == 0 && p.inf == {} && p.open == map[]
  {
    Pvm(map[], CS.New(), 0, {}, map[], {})
  }

  /** `T::new(id, uuid, init)` for the kind the init names. */
  function Build(id: i64, uuid: Uuid5, init: Init): (n: Node)
    ensures n.dbId == id && n.uuid == uuid
  {
    match init
    case ProcInit(i) => NT.ProcessNew(id, uuid, i)
    case FileInit(name) => NT.FileNew(id, uuid, name)
    case EditInit(name) => NT.EditSessionNew(id, uuid, name)
    case PipeInit(fd) => NT.PipeNew(id, uuid, fd)
    case SocketInit(i) => NT.SocketNew(id, uuid, i)
    case PttyInit(name) => NT.PttyNew(id, uuid, name)
  }

  /**
   * The invariant: a valid store, ids below the counter, every mapped id
   * present, and no two UUIDs sharing an id.
   */
  predicate Valid(p: Pvm)
  {
    CS.Valid(p.nodes) && p.counter < TWO_63
    && (forall id :: id in p.nodes.entries ==> 0 <= id < p.counter)
    && (forall u :: u in p.uuids ==> CS.ContainsKey(p.nodes, p.uuids[u]))
    && (forall u, v :: u in p.uuids && v in p.uuids && p.uuids[u] == p.uuids[v] ==> u == v)
  }

  /**
   * A new node: the id is the counter (which moves on), the UUID is rebound
   * to it, the node the UUID named before is removed from the store, and
   * the new node is stored, announced and handed back checked out.
   */
  function Add(p: Pvm, uuid: Uuid5, init: Init): (r: Result<(Pvm, Guard, seq<Action>), string>)
    ensures Valid(p) ==> r.Ok?
    ensures r.Ok? ==>
      var id := ToI64(p.counter);
      var (p', g, acts) := r.value;
      g == CS.Guard(id, Build(id, uuid, init)) && acts == [CreateNode(g.value)]
      && p'.uuids == p.uuids[uuid := id] && p'.counter == ToU64(p.counter + 1)
      && p'.inf == p.inf && p'.open == p.open
      && id in p'.nodes.entries && p'.nodes.entries[id] == CS.Loaned
  {
    var id := ToI64(p.counter);
    var s0 := if uuid in p.uuids then CS.Remove(p.nodes, p.uuids[uuid]).0 else p.nodes;
    match CS.Insert(s0, id, Build(id, uuid, init))
      case Err(e) => Err(e)
      case Ok(s1) =>
        match CS.Take(s1, id)
          case Err(e) => Err(e)
          case Ok((s2, g)) =>
            Ok((p.(uuids := p.uuids[uuid := id], nodes := s2, counter := ToU64(p.counter + 1)), g, [CreateNode(g.value)]))
  }

  /** A known UUID's node is checked out, allocating nothing; an unknown one is added. */
  function Declare(p: Pvm, uuid: Uuid5, init: Init): (r: Result<(Pvm, Guard, seq<Action>), string>)
    ensures uuid !in p.uuids ==> r == Add(p, uuid, init)
    ensures uuid in p.uuids && r.Ok? ==>
      var (p', g, acts) := r.value;
      acts == [] && p'.counter == p.counter && p'.uuids == p.uuids && p'.inf == p.inf
      && g.key == p.uuids[uuid] && g.key in p.nodes.entries && p.nodes.entries[g.key] == CS.Present(g.value)
  {
    if uuid !in p.uuids then Add(p, uuid, init)
    else
      match CS.Take(p.nodes, p.uuids[uuid])
        case Err(e) => Err(e)
        case Ok((s1, g)) => Ok((p.(nodes := s1), g, []))
  }

  /** Returns a guard's node to the store (dropping the guard). */
  function Drop(p: Pvm, g: Guard): (r: Result<Pvm, string>)
    ensures r.Ok? <==> g.key in CS.Lent(p.nodes)
    ensures r.Ok? ==> r.value.uuids == p.uuids && r.value.counter == p.counter && r.value.inf == p.inf && r.value.open == p.open
  {
    match CS.DropGuard(p.nodes, g)
      case Ok(s) => Ok(p.(nodes := s))
      case Err(e) => Err(e)
  }

  /** Forgets a UUID and removes its node; an unknown UUID changes nothing. */
  function Release(p: Pvm, uuid: Uuid5): (r: Pvm)
    ensures uuid !in r.uuids && r.uuids == p.uuids - {uuid}
    ensures uuid !in p.uuids ==> r == p
    ensures uuid in p.uuids ==> !CS.ContainsKey(r.nodes, p.uuids[uuid]) && r.counter == p.counter
  {
    if uuid in p.uuids then
      p.(uuids := p.uuids - {uuid}, nodes := CS.Remove(p.nodes, p.uuids[uuid]).0)
    else p
  }

  /** An information flow, recorded and emitted only the first time its (src, dst) pair is seen. */
  function Inf(p: Pvm, src: Node, dst: Node, tag: string): (r: (Pvm, seq<Action>))
    ensures r.0 == p.(inf := p.inf + {(src.dbId, dst.dbId)})
    ensures r.1 == if (src.dbId, dst.dbId) in p.inf then [] else [CreateRel(src.dbId, dst.dbId, "INF", tag)]
  {
    if (src.dbId, dst.dbId) !in p.inf then
      (p.(inf := p.inf + {(src.dbId, dst.dbId)}), [CreateRel(src.dbId, dst.dbId, "INF", tag)])
    else (p, [])
  }

  /** An actor reads from an entity: the flow runs entity to actor. */
  function Source(p: Pvm, act: Node, ent: Node, tag: string): (r: (Pvm, seq<Action>))
    ensures (ent.dbId, act.dbId) in r.0.inf && r.0.nodes == p.nodes
    ensures |r.1| <= 1 && forall a :: a in r.1 ==> a == CreateRel(ent.dbId, act.dbId, "INF", tag)
  {
    Inf(p, ent, act, tag)
  }

  /**
   * A new node built by `Add`, linked from its predecessor, with a flow
   * from the actor when there is one, then returned to the store.
   */
  function Version(p: Pvm, prev: Node, init: Init, act: Option<Node>, tag: string): (r: Result<(Pvm, seq<Action>), string>)
  {
    match Add(p, prev.uuid, init)
      case Err(e) => Err(e)
      case Ok((p1, g, a1)) =>
        var (p2, a2) := if act.Some? then Inf(p1, act.value, g.value, tag) else (p1, []);
        match Drop(p2, g)
          case Err(e) => Err(e)
          case Ok(p3) => Ok((p3, a1 + [CreateRel(prev.dbId, g.key, "INF", "")] + a2))
  }

  /**
   * An actor writes to an entity. Writing a file makes a new version of it
   * (same UUID and name) linked from the old one, and the flow goes to the
   * new version; any other entity receives the flow directly.
   */
  function Sink(p: Pvm, act: Node, ent: Node, tag: string): (r: Result<(Pvm, seq<Action>), string>)
    ensures !ent.File? ==> r == Ok(Inf(p, act, ent, tag))
    ensures ent.File? && Valid(p) ==> r.Ok?
    ensures ent.File? && Valid(p) ==>
      var id := p.counter;
      |r.value.1| >= 2 && r.value.1[0] == CreateNode(NT.File(id, ent.uuid, ent.name))
      && r.value.1[1] == CreateRel(ent.dbId, id, "INF", "")
      && r.value.0.uuids == p.uuids[ent.uuid := id]
      && (act.dbId, id) in r.value.0.inf
  {
    if ent.File? then Version(p, ent, FileInit(Some(ent.name)), Some(act), tag)
    else Ok(Inf(p, act, ent, tag))
  }

  /**
   * The start of a write session. On a file it opens an edit session (a
   * new node under the file's UUID) whose open set is the actor alone; on
   * an edit session the actor joins the open set, and the flow is recorded
   * when it was not there yet; anything else receives the flow directly.
   */
  function SinkStart(p: Pvm, act: Node, ent: Node, tag: string): (r: Result<(Pvm, seq<Action>), string>)
    ensures ent.File? && r.Ok? ==> r.value.0.open == p.open[ent.uuid := {act.uuid}]
    ensures ent.File? && Valid(p) ==> r.Ok?
    ensures ent.EditSession? ==> (r.Ok? <==> ent.uuid in p.open)
    ensures ent.EditSession? && r.Ok? ==>
      r.value.0.open == p.open[ent.uuid := p.open[ent.uuid] + {act.uuid}]
      && (act.uuid in p.open[ent.uuid] ==> r.value.1 == [])
    ensures !ent.File? && !ent.EditSession? ==> r == Ok(Inf(p, act, ent, tag))
  {
    if ent.File? then
      var p0 := p.(open := p.open[ent.uuid := {act.uuid}]);
      Version(p0, ent, EditInit(Some(ent.name)), Some(act), tag)
    else if ent.EditSession? then
      if ent.uuid !in p.open then Err(UnwrapNone)
      else
        var set0 := p.open[ent.uuid];
        var p1 := p.(open := p.open[ent.uuid := set0 + {act.uuid}]);
        if act.uuid !in set0 then Ok(Inf(p1, act, ent, tag)) else Ok((p1, []))
    else Ok(Inf(p, act, ent, tag))
  }

  /**
   * The end of a write session on an edit session: the actor leaves the
   * open set, and the flow is recorded when it was not a member (a writer
   * that joined at the start already has its flow). When the set is then
   * empty the session is closed into a new version of the file.
   */
  function SinkEnd(p: Pvm, act: Node, ent: Node, tag: string): (r: Result<(Pvm, seq<Action>), string>)
    ensures !ent.EditSession? ==> r == Ok((p, []))
    ensures ent.EditSession? && ent.uuid !in p.open ==> r == Err(UnwrapNone)
    ensures ent.EditSession? && r.Ok? ==>
      ent.uuid in p.open && r.value.0.open == p.open[ent.uuid := p.open[ent.uuid] - {act.uuid}]
    ensures ent.EditSession? && r.Ok? && p.open[ent.uuid] - {act.uuid} != {} ==>
      r.value.0.uuids == p.uuids && r.value.0.counter == p.counter
      && r.value.1 == (if act.uuid in p.open[ent.uuid] then [] else Inf(p, act, ent, tag).1)
    ensures ent.EditSession? && ent.uuid in p.open && p.open[ent.uuid] - {act.uuid} == {} && Valid(p) ==>
      r.Ok? && r.value.0.uuids == p.uuids[ent.uuid := p.counter]
  {
    if !ent.EditSession? then Ok((p, []))
    else if ent.uuid !in p.open then Err(UnwrapNone)
    else
      var set0 := p.open[ent.uuid];
      var p1 := p.(open := p.open[ent.uuid := set0 - {act.uuid}]);
      var (p2, a1) := if act.uuid !in set0 then Inf(p1, act, ent, tag) else (p1, []);
      if set0 - {act.uuid} == {} then
        match Version(p2, ent, FileInit(Some(ent.name)), None, tag)
          case Err(e) => Err(e)
          case Ok((p3, a2)) => Ok((p3, a1 + a2))
      else Ok((p2, a1))
  }

  /** The first name wins: only an unnamed file or edit session is named (and updated). */
  function Name(obj: Node, name: string): (r: (Node, seq<Action>))
    ensures (obj.File? || obj.EditSession?) && obj.name == "" ==>
      r == (obj.(name := name), [UpdateNode(obj.(name := name))])
    ensures !((obj.File? || obj.EditSession?) && obj.name == "") ==> r == (obj, [])
  {
    if (obj.File? || obj.EditSession?) && obj.name == "" then
      var n := obj.(name := name);
      (n, [UpdateNode(n)])
    else (obj, [])
  }

  /** Re-sends a node's current properties. */
  function Prop(ent: Node): (r: seq<Action>)
    ensures r == [UpdateNode(ent)]
  {
    [UpdateNode(ent)]
  }

  // --------------------------------------------------------------- lemmas

  lemma NewValid()
    ensures Valid(New())
  {
    CS.NewValid<i64, Node>();
  }

  /** Ids are never reused: the new id is the counter, above every id in the store. */
  lemma AddFreshId(p: Pvm, uuid: Uuid5, init: Init)
    requires Valid(p)
    ensures
      var (p', g, _) := Add(p, uuid, init).value;
      g.key == p.counter && g.key !in p.nodes.entries
      && (forall u :: u in p.uuids ==> p.uuids[u] < g.key)
  {
  }

  /** The node the UUID named before is no longer present in the store. */
  lemma AddRemovesPrevious(p: Pvm, uuid: Uuid5, init: Init)
    requires Valid(p) && uuid in p.uuids
    ensures !CS.ContainsKey(Add(p, uuid, init).value.0.nodes, p.uuids[uuid])
  {
  }

  lemma AddValid(p: Pvm, uuid: Uuid5, init: Init)
    requires Valid(p) && p.counter < TWO_63 - 1
    ensures Valid(Add(p, uuid, init).value.0)
  {
    var id := ToI64(p.counter);
    var s0 := if uuid in p.uuids then CS.Remove(p.nodes, p.uuids[uuid]).0 else p.nodes;
    if uuid in p.uuids {
      CS.RemoveValid(p.nodes, p.uuids[uuid]);
    }
    CS.InsertValid(s0, id, Build(id, uuid, init));
    var s1 := CS.Insert(s0, id, Build(id, uuid, init)).value;
    assert p.nodes.outstanding == s1.outstanding;
    CS.LentBounded(p.nodes, p.counter as nat);
    CS.CheckoutValid(s1, id);
  }

  lemma DropValid(p: Pvm, g: Guard)
    requires Valid(p)
    ensures Drop(p, g).Ok? ==> Valid(Drop(p, g).value)
  {
    CS.CheckinValid(p.nodes, g.key, g.value);
  }

  lemma ReleaseValid(p: Pvm, uuid: Uuid5)
    requires Valid(p)
    ensures Valid(Release(p, uuid))
  {
    if uuid in p.uuids {
      CS.RemoveValid(p.nodes, p.uuids[uuid]);
    }
  }

  /** A flow recorded once is never emitted again. */
  lemma InfOnce(p: Pvm, src: Node, dst: Node, tag: string, tag': string)
    ensures var (p1, a1) := Inf(p, src, dst, tag); Inf(p1, src, dst, tag').1 == []
  {
  }

  /** A version keeps the store valid and returns the new node home. */
  lemma VersionValid(p: Pvm, prev: Node, init: Init, act: Option<Node>, tag: string)
    requires Valid(p) && p.counter < TWO_63 - 1
    ensures Version(p, prev, init, act, tag).Ok?
    ensures Valid(Version(p, prev, init, act, tag).value.0)
    ensures CS.ContainsKey(Version(p, prev, init, act, tag).value.0.nodes, p.counter)
  {
    AddValid(p, prev.uuid, init);
    var (p1, g, _) := Add(p, prev.uuid, init).value;
    var p2 := if act.Some? then Inf(p1, act.value, g.value, tag).0 else p1;
    assert g.key in CS.Lent(p2.nodes);
    DropValid(p2, g);
  }

  /** Opening a session on a file keeps the invariant and makes the actor the only writer. */
  lemma SinkStartFileValid(p: Pvm, act: Node, file: Node, tag: string)
    requires Valid(p) && p.counter < TWO_63 - 1 && file.File?
    ensures
      var r := SinkStart(p, act, file, tag);
      r.Ok? && Valid(r.value.0) && r.value.0.counter == p.counter + 1
      && r.value.0.open[file.uuid] == {act.uuid}
      && r.value.0.uuids == p.uuids[file.uuid := p.counter]
  {
    var p0 := p.(open := p.open[file.uuid := {act.uuid}]);
    VersionValid(p0, file, EditInit(Some(file.name)), Some(act), tag);
  }

  /** The last writer leaving a session closes it into a new file version linked from it. */
  lemma SinkEndLastWriter(p: Pvm, act: Node, es: Node, tag: string)
    requires Valid(p) && p.counter < TWO_63 - 1 && es.EditSession?
    requires es.uuid in p.open && p.open[es.uuid] == {act.uuid}
    ensures
      var r := SinkEnd(p, act, es, tag);
      r.Ok? && Valid(r.value.0) && r.value.0.uuids == p.uuids[es.uuid := p.counter]
      && r.value.0.open[es.uuid] == {}
      && CreateRel(es.dbId, p.counter, "INF", "") in r.value.1
  {
    var p1 := p.(open := p.open[es.uuid := {}]);
    VersionValid(p1, es, FileInit(Some(es.name)), None, tag);
  }

  /** A name once set is kept: naming again changes nothing. */
  lemma NameFirstWins(obj: Node, a: string, b: string)
    requires a != ""
    ensures var (n1, _) := Name(obj, a); Name(n1, b) == (n1, [])
  {
  }
}
