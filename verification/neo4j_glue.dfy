/**
 * The glue between the data library's graph nodes and relationships and
 * the database's values: encoding a node as (id, labels, properties) and a
 * relationship as (id, value), and decoding a stored node back into a data
 * node. UUIDs are the external 128-bit `uuid::Uuid`; its textual parse and
 * render are the parameters `parse` and `render`.
 */
module Neo4jGlue {
  import opened Ints
  import opened Wrappers
  import opened DbValue
  import VA = ValueAs
  import NT = NodeTypes

  type Uuid = u128
  type DNode = NT.DataNode<Uuid>

  /** A UUID from a string value, through the external parser. */
  function IntoUuid(v: Value, parse: string -> Option<Uuid>): (r: Option<Uuid>)
    ensures !v.String? ==> r.None?
    ensures v.String? ==> r == parse(v.s)
  {
    match v
    case String(s) => parse(s)
    case _ => None
  }

  /** A UUID as its hyphenated text. */
  function UuidVal(u: Uuid, render: Uuid -> string): (r: Value)
    ensures r.String?
  {
    String(render(u))
  }

  /** An id from an integer value. */
  function IntoId(v: Value): (r: Option<i64>)
    ensures r.Some? <==> v.Integer?
    ensures r.Some? ==> v == Integer(r.value)
  {
    match v
    case Integer(i) => Some(i)
    case _ => None
  }

  datatype PvmOp = Sink | Source | Connect | Version | Unknown

  /** An operation is written as its name. */
  function OpVal(op: PvmOp): (r: Value)
    ensures r.String?
  {
    match op
    case Sink => String("Sink")
    case Source => String("Source")
    case Connect => String("Connect")
    case Version => String("Version")
    case Unknown => String("Unknown")
  }

  /** Distinct operations are written differently. */
  lemma OpValInjective(a: PvmOp, b: PvmOp)
    ensures OpVal(a) == OpVal(b) <==> a == b
  {
  }

  /** A graph node: a data node, or a path or network name. */
  datatype GraphNode =
    | DataN(d: DNode)
    | PathN(pathId: i64, path: string)
    | NetN(netId: i64, addr: string, port: u16)

  function NodeId(n: GraphNode): i64
  {
    match n
    case DataN(d) => d.dbId
    case PathN(id, _) => id
    case NetN(id, _, _) => id
  }

  /** The label of each data-node kind. */
  function KindLabel(d: DNode): string
  {
    match d
    case EditSession(_, _, _) => "EditSession"
    case File(_, _, _) => "File"
    case Pipe(_, _, _) => "Pipe"
    case Proc(_, _, _, _, _) => "Process"
    case Socket(_, _, _, _, _, _) => "Socket"
    case Ptty(_, _, _) => "Ptty"
  }

  /** Every node is a "Node"; a data node adds its kind, a name node "Name" and its form. */
  function Labels(n: GraphNode): (r: seq<string>)
    ensures |r| >= 2 && r[0] == "Node"
    ensures n.DataN? ==> r == ["Node", KindLabel(n.d)]
    ensures !n.DataN? ==> |r| == 3 && r[1] == "Name"
  {
    match n
    case DataN(d) => ["Node", KindLabel(d)]
    case PathN(_, _) => ["Node", "Name", "Path"]
    case NetN(_, _, _) => ["Node", "Name", "Net"]
  }

  /** A data node's own fields, plus its UUID. */
  function DataProps(d: DNode, render: Uuid -> string): (r: map<string, Value>)
    ensures "uuid" in r && r["uuid"] == UuidVal(d.uuid, render) && "db_id" !in r
  {
    var own := match d
      case EditSession(_, _, name) => map["name" := String(name)]
      case File(_, _, name) => map["name" := String(name)]
      case Pipe(_, _, fd) => map["fd" := Integer(fd)]
      case Proc(_, _, pid, cmdline, thin) => map["cmdline" := String(cmdline), "pid" := Integer(pid), "thin" := Boolean(thin)]
      case Socket(_, _, c, path, ip, port) =>
        map["class" := Integer(NT.ClassToInt(c)), "path" := String(path), "ip" := String(ip), "port" := Integer(port)]
      case Ptty(_, _, name) => map["name" := String(name)];
    own["uuid" := UuidVal(d.uuid, render)]
  }

  function Props(n: GraphNode, render: Uuid -> string): (r: map<string, Value>)
    ensures "db_id" !in r
  {
    match n
    case DataN(d) => DataProps(d, render)
    case PathN(_, path) => map["path" := String(path)]
    case NetN(_, addr, port) => map["addr" := String(addr), "port" := Integer(port)]
  }

  /** A node as written: its id, its labels, and its properties with the id added as "db_id". */
  function ToDb(n: GraphNode, render: Uuid -> string): (r: (i64, seq<string>, map<string, Value>))
    ensures r.0 == NodeId(n) && r.1 == Labels(n)
    ensures r.2.Keys == Props(n, render).Keys + {"db_id"} && r.2["db_id"] == Integer(r.0)
    ensures forall k :: k in Props(n, render) ==> r.2[k] == Props(n, render)[k]
  {
    (NodeId(n), Labels(n), Props(n, render)["db_id" := Integer(NodeId(n))])
  }

  /** An information-flow relationship. */
  datatype Inf = Inf(id: i64, src: i64, dst: i64, op: PvmOp, call: string, byteCount: u64)

  /**
   * A relationship as written: its id, and a map of source, destination,
   * type "INF" and the property map (id, operation, call, byte count).
   */
  function RelToDb(i: Inf): (r: (i64, Value))
    ensures r.0 == i.id && r.1.Map? && r.1.m.Keys == {"src", "dst", "type", "props"}
    ensures r.1.m["src"] == Integer(i.src) && r.1.m["dst"] == Integer(i.dst) && r.1.m["type"] == String("INF")
    ensures r.1.m["props"].Map? && r.1.m["props"].m.Keys == {"db_id", "pvm_op", "generating_call", "byte_count"}
    ensures r.1.m["props"].m["db_id"] == Integer(i.id) && r.1.m["props"].m["pvm_op"] == OpVal(i.op)
  {
    var props := map["db_id" := Integer(i.id), "pvm_op" := OpVal(i.op),
                     "generating_call" := String(i.call), "byte_count" := Integer(ToI64(i.byteCount))];
    (i.id, Map(map["src" := Integer(i.src), "dst" := Integer(i.dst), "type" := String("INF"), "props" := Map(props)]))
  }

  // --------------------------------------------------------------- decoding

  /** The kind labels in the order they are tried. */
  const Precedence := ["Process", "File", "EditSession", "Socket", "Pipe", "Ptty"]

  /** The node's kind label is among the labels, and no kind label tried before it is. */
  predicate FirstKind(labs: seq<string>, d: DNode)
  {
    Precedence[KindRank(d)] == KindLabel(d) && KindLabel(d) in labs
    && forall i :: 0 <= i < KindRank(d) ==> Precedence[i] !in labs
  }

  /** The kind's position in `Precedence`. */
  function KindRank(d: DNode): (r: nat)
    ensures r < |Precedence|
  {
    match d
    case Proc(_, _, _, _, _) => 0
    case File(_, _, _) => 1
    case EditSession(_, _, _) => 2
    case Socket(_, _, _, _, _, _) => 3
    case Pipe(_, _, _) => 4
    case Ptty(_, _, _) => 5
  }

  /** A property removed from the map and cast; absent or ill-typed gives the message. */
  function Field<X>(props: map<string, Value>, key: string, cast: Value -> Option<X>, msg: string): (r: Result<X, string>)
    ensures r.Ok? <==> key in props && cast(props[key]).Some?
    ensures r.Ok? ==> cast(props[key]) == Some(r.value)
    ensures r.Err? ==> r.error == msg
  {
    if key in props then
      match cast(props[key])
        case Some(x) => Ok(x)
        case None => Err(msg)
    else Err(msg)
  }

  function AsI32(v: Value): Option<i32>
  {
    match VA.AsI32(v) case Some(x) => Some(x as i32) case None => None
  }

  function AsU16(v: Value): Option<u16>
  {
    match VA.AsU16(v) case Some(x) => Some(x as u16) case None => None
  }

  function AsClass(v: Value): Option<NT.SocketClass>
  {
    match VA.AsI64(v) case Some(x) => NT.ClassFromInt(x) case None => None
  }

  const NameMsg := "name property is missing or not a string"

  /** A process's init record: cmdline, pid, thin, checked in that order. */
  function ProcessInitFrom(props: map<string, Value>): (r: Result<NT.ProcessInit, string>)
    ensures r.Ok? <==>
      "cmdline" in props && props["cmdline"].String?
      && "pid" in props && AsI32(props["pid"]).Some?
      && "thin" in props && props["thin"].Boolean?
  {
    match Field(props, "cmdline", VA.AsString, "cmdline property is missing or not a String")
    case Err(e) => Err(e)
    case Ok(c) =>
      match Field(props, "pid", AsI32, "pid property is missing or not an Integer")
      case Err(e) => Err(e)
      case Ok(p) =>
        match Field(props, "thin", VA.AsBool, "thin property is missing or not a bool")
        case Err(e) => Err(e)
        case Ok(t) => Ok(NT.ProcessInit(p, c, t))
  }

  /** A socket's init record: class, path, ip, port, checked in that order. */
  function SocketInitFrom(props: map<string, Value>): (r: Result<NT.SocketInit, string>)
    ensures r.Ok? <==>
      "class" in props && AsClass(props["class"]).Some?
      && "path" in props && props["path"].String?
      && "ip" in props && props["ip"].String?
      && "port" in props && AsU16(props["port"]).Some?
  {
    match Field(props, "class", AsClass, "class property is missing or not an Integer")
    case Err(e) => Err(e)
    case Ok(c) =>
      match Field(props, "path", VA.AsString, "path property is missing or not a string")
      case Err(e) => Err(e)
      case Ok(p) =>
        match Field(props, "ip", VA.AsString, "ip property is missing or not a string")
        case Err(e) => Err(e)
        case Ok(ip) =>
          match Field(props, "port", AsU16, "port property is missing or not an Integer")
          case Err(e) => Err(e)
          case Ok(port) => Ok(NT.SocketInit(c, p, ip, port))
  }

  const NoKind := "Node doesn't match any known type."

  /** The position of the first kind label found, trying them in `Precedence` order. */
  function FirstLabel(labs: seq<string>): (r: Option<nat>)
    ensures r.None? <==> forall k :: k in Precedence ==> k !in labs
    ensures r.Some? ==>
      r.value < |Precedence| && Precedence[r.value] in labs
      && forall i :: 0 <= i < r.value ==> Precedence[i] !in labs
  {
    if "Process" in labs then Some(0)
    else if "File" in labs then Some(1)
    else if "EditSession" in labs then Some(2)
    else if "Socket" in labs then Some(3)
    else if "Pipe" in labs then Some(4)
    else if "Ptty" in labs then Some(5)
    else None
  }

  /** The node of the kind at position `k`, built from its init record. */
  function BuildKind(k: nat, props: map<string, Value>, id: i64, u: Uuid): (r: Result<DNode, string>)
    requires k < |Precedence|
    ensures r.Ok? ==> r.value.dbId == id && r.value.uuid == u && KindRank(r.value) == k
  {
    if k == 0 then
      match ProcessInitFrom(props) case Err(e) => Err(e) case Ok(i) => Ok(NT.ProcessNew(id, u, Some(i)))
    else if k == 1 then
      match Field(props, "name", VA.AsString, NameMsg) case Err(e) => Err(e) case Ok(n) => Ok(NT.FileNew(id, u, Some(n)))
    else if k == 2 then
      match Field(props, "name", VA.AsString, NameMsg) case Err(e) => Err(e) case Ok(n) => Ok(NT.EditSessionNew(id, u, Some(n)))
    else if k == 3 then
      match SocketInitFrom(props) case Err(e) => Err(e) case Ok(i) => Ok(NT.SocketNew(id, u, Some(i)))
    else if k == 4 then
      match Field(props, "fd", AsI32, "fd property is missing or not an Integer")
      case Err(e) => Err(e) case Ok(fd) => Ok(NT.PipeNew(id, u, Some(fd)))
    else
      match Field(props, "name", VA.AsString, NameMsg) case Err(e) => Err(e) case Ok(n) => Ok(NT.PttyNew(id, u, Some(n)))
  }

  /** The kind chosen by the first kind label found, and its init record. */
  function KindFrom(labs: seq<string>, props: map<string, Value>, id: i64, u: Uuid): (r: Result<DNode, string>)
    ensures r.Ok? ==> r.value.dbId == id && r.value.uuid == u && FirstKind(labs, r.value)
    ensures (forall k :: k in labs ==> k !in Precedence) ==> r == Err(NoKind)
  {
    match FirstLabel(labs)
    case None => Err(NoKind)
    case Some(k) => BuildKind(k, props, id, u)
  }

  /**
   * A data node from a stored node's labels and properties: the id, then
   * the UUID, then the kind and its init record.
   */
  function FromNode(labs: seq<string>, props: map<string, Value>, parse: string -> Option<Uuid>): (r: Result<DNode, string>)
    ensures !("db_id" in props && props["db_id"].Integer?) ==> r == Err("db_id property is missing or not an Integer")
    ensures r.Ok? ==> "db_id" in props && Integer(r.value.dbId) == props["db_id"]
    ensures r.Ok? ==> "uuid" in props && IntoUuid(props["uuid"], parse) == Some(r.value.uuid)
    ensures r.Ok? ==> FirstKind(labs, r.value)
  {
    match Field(props, "db_id", IntoId, "db_id property is missing or not an Integer")
    case Err(e) => Err(e)
    case Ok(id) =>
      match Field(props, "uuid", v => IntoUuid(v, parse), "uuid property is missing or not a UUID5")
      case Err(e) => Err(e)
      case Ok(u) => KindFrom(labs, props, id, u)
  }

  /** A stored node's labels and properties, as the database driver hands them over. */
  type NodeParts = (seq<string>, map<string, Value>)

  /**
   * A data node from a stored value. The driver's node decoder (part of the
   * external database driver, so a parameter here) runs first, and its error
   * is returned before any property is read; the decoded labels and
   * properties then go through `FromNode`.
   */
  function FromValue(val: Value, asNode: Value -> Result<NodeParts, string>,
                     parse: string -> Option<Uuid>): (r: Result<DNode, string>)
    ensures asNode(val).Err? ==> r == Err(asNode(val).error)
    ensures asNode(val).Ok? ==> var (labs, props) := asNode(val).value;
      (!("db_id" in props && props["db_id"].Integer?) ==> r == Err("db_id property is missing or not an Integer"))
      && (r.Ok? ==> Integer(r.value.dbId) == props["db_id"] && FirstKind(labs, r.value))
  {
    match asNode(val)
    case Err(e) => Err(e)
    case Ok((labs, props)) => FromNode(labs, props, parse)
  }

  /**
   * A stored value the driver decodes into what `ToDb` wrote for a data
   * node decodes back to that node.
   */
  lemma ValueRoundTrip(val: Value, d: DNode, asNode: Value -> Result<NodeParts, string>,
                       render: Uuid -> string, parse: string -> Option<Uuid>)
    requires parse(render(d.uuid)) == Some(d.uuid)
    requires asNode(val) == Ok((ToDb(DataN(d), render).1, ToDb(DataN(d), render).2))
    ensures FromValue(val, asNode, parse) == Ok(d)
  {
    DataRoundTrip(d, render, parse);
  }

  /** The labels `ToDb` writes lead the search to the node's own kind. */
  lemma LabelsSelectKind(d: DNode)
    ensures FirstLabel(Labels(DataN(d))) == Some(KindRank(d))
  {
  }

  /** A process's written properties rebuild it. */
  lemma BuildProcess(d: DNode, render: Uuid -> string)
    requires d.Proc?
    ensures BuildKind(0, ToDb(DataN(d), render).2, d.dbId, d.uuid) == Ok(d)
  {
    var props := ToDb(DataN(d), render).2;
    assert ProcessInitFrom(props) == Ok(NT.ProcessInit(d.pid, d.cmdline, d.thin));
  }

  /** The four socket fields as `ToDb` writes them. */
  lemma SocketWritten(d: DNode, render: Uuid -> string)
    requires d.Socket?
    ensures var props := ToDb(DataN(d), render).2;
      && "class" in props && props["class"] == Integer(NT.ClassToInt(d.sockClass))
      && "path" in props && props["path"] == String(d.path)
      && "ip" in props && props["ip"] == String(d.ip)
      && "port" in props && props["port"] == Integer(d.port)
  {
    var own := DataProps(d, render);
    assert own["class"] == Integer(NT.ClassToInt(d.sockClass)) && own["port"] == Integer(d.port);
    assert own["path"] == String(d.path) && own["ip"] == String(d.ip);
  }

  /** A map holding a socket's four fields, the class as its discriminant, reads back as that socket's init record. */
  lemma SocketRead(props: map<string, Value>, c: NT.SocketClass, path: string, ip: string, port: u16)
    requires "class" in props && props["class"] == Integer(NT.ClassToInt(c))
    requires "path" in props && props["path"] == String(path)
    requires "ip" in props && props["ip"] == String(ip)
    requires "port" in props && props["port"] == Integer(port)
    ensures SocketInitFrom(props) == Ok(NT.SocketInit(c, path, ip, port))
  {
    NT.ClassCodec(NT.ClassToInt(c), c);
    assert AsClass(props["class"]) == Some(c);
    assert AsU16(props["port"]) == Some(port);
  }

  /** A socket's written properties rebuild it: the class goes through its discriminant and back. */
  lemma BuildSocket(d: DNode, render: Uuid -> string)
    requires d.Socket?
    ensures BuildKind(3, ToDb(DataN(d), render).2, d.dbId, d.uuid) == Ok(d)
  {
    SocketWritten(d, render);
    SocketRead(ToDb(DataN(d), render).2, d.sockClass, d.path, d.ip, d.port);
  }

  /** The properties `ToDb` writes rebuild the node's fields. */
  lemma BuildRoundTrip(d: DNode, render: Uuid -> string)
    ensures BuildKind(KindRank(d), ToDb(DataN(d), render).2, d.dbId, d.uuid) == Ok(d)
  {
    if d.Proc? {
      BuildProcess(d, render);
    } else if d.Socket? {
      BuildSocket(d, render);
    }
  }

  /**
   * Every data node written by `ToDb` decodes back to itself, provided the
   * UUID parser reads back what the renderer wrote.
   */
  lemma DataRoundTrip(d: DNode, render: Uuid -> string, parse: string -> Option<Uuid>)
    requires parse(render(d.uuid)) == Some(d.uuid)
    ensures var (_, labs, props) := ToDb(DataN(d), render); FromNode(labs, props, parse) == Ok(d)
  {
    var (_, labs, props) := ToDb(DataN(d), render);
    assert Field(props, "db_id", IntoId, "db_id property is missing or not an Integer") == Ok(d.dbId);
    assert Field(props, "uuid", v => IntoUuid(v, parse), "uuid property is missing or not a UUID5") == Ok(d.uuid);
    LabelsSelectKind(d);
    BuildRoundTrip(d, render);
  }

  /** A node with none of the kind labels is rejected once its id and UUID are read. */
  lemma UnknownKindRejected(labs: seq<string>, props: map<string, Value>, parse: string -> Option<Uuid>)
    requires "db_id" in props && props["db_id"].Integer?
    requires "uuid" in props && IntoUuid(props["uuid"], parse).Some?
    requires forall k :: k in labs ==> k !in Precedence
    ensures FromNode(labs, props, parse) == Err(NoKind)
  {
  }
}
