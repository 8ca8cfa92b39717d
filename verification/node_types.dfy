/**
 * The data-node kinds shared by the current crate and its data library:
 * processes, files, pipes, edit sessions, sockets and terminals. The two
 * crates differ only in their UUID type, which is the type parameter `U`
 * (the crate's own `Uuid5`, or the external `uuid::Uuid`). Each kind is
 * built by `new(id, uuid, init)`: with an init record its fields are
 * copied, without one they take the kind's defaults.
 */
module NodeTypes {
  import opened Ints
  import opened Wrappers
  import opened DbValue
  import VA = ValueAs
  import Uuid

  datatype SocketClass = Unknown | AfInet | AfUnix

  datatype DataNode<U> =
    | Proc(dbId: i64, uuid: U, pid: i32, cmdline: string, thin: bool)
    | File(dbId: i64, uuid: U, name: string)
    | Pipe(dbId: i64, uuid: U, fd: i32)
    | EditSession(dbId: i64, uuid: U, name: string)
    | Socket(dbId: i64, uuid: U, sockClass: SocketClass, path: string, ip: string, port: u16)
    | Ptty(dbId: i64, uuid: U, name: string)

  datatype ProcessInit = ProcessInit(pid: i32, cmdline: string, thin: bool)
  datatype SocketInit = SocketInit(sockClass: SocketClass, path: string, ip: string, port: u16)

  function ProcessNew<U>(id: i64, uuid: U, init: Option<ProcessInit>): (r: DataNode<U>)
    ensures r.Proc? && r.dbId == id && r.uuid == uuid
    ensures init.Some? ==> ProcessInit(r.pid, r.cmdline, r.thin) == init.value
    ensures init.None? ==> r.cmdline == "" && r.pid == 0 && r.thin
  {
    match init
    case Some(i) => Proc(id, uuid, i.pid, i.cmdline, i.thin)
    case None => Proc(id, uuid, 0, "", true)
  }

  function SocketNew<U>(id: i64, uuid: U, init: Option<SocketInit>): (r: DataNode<U>)
    ensures r.Socket? && r.dbId == id && r.uuid == uuid
    ensures init.Some? ==> SocketInit(r.sockClass, r.path, r.ip, r.port) == init.value
    ensures init.None? ==> r.sockClass == Unknown && r.path == "" && r.ip == "" && r.port == 0
  {
    match init
    case Some(i) => Socket(id, uuid, i.sockClass, i.path, i.ip, i.port)
    case None => Socket(id, uuid, Unknown, "", "", 0)
  }

  /** Files, edit sessions and terminals carry a name, empty by default. */
  function FileNew<U>(id: i64, uuid: U, name: Option<string>): (r: DataNode<U>)
    ensures r.File? && r.dbId == id && r.uuid == uuid && r.name == name.UnwrapOr("")
  {
    File(id, uuid, name.UnwrapOr(""))
  }

  function EditSessionNew<U>(id: i64, uuid: U, name: Option<string>): (r: DataNode<U>)
    ensures r.EditSession? && r.dbId == id && r.uuid == uuid && r.name == name.UnwrapOr("")
  {
    EditSession(id, uuid, name.UnwrapOr(""))
  }

  /** A pipe's descriptor defaults to -1. */
  function PipeNew<U>(id: i64, uuid: U, fd: Option<i32>): (r: DataNode<U>)
    ensures r.Pipe? && r.dbId == id && r.uuid == uuid && r.fd == fd.UnwrapOr(-1)
  {
    Pipe(id, uuid, fd.UnwrapOr(-1))
  }

  function PttyNew<U>(id: i64, uuid: U, name: Option<string>): (r: DataNode<U>)
    ensures r.Ptty? && r.dbId == id && r.uuid == uuid && r.name == name.UnwrapOr("")
  {
    Ptty(id, uuid, name.UnwrapOr(""))
  }

  /** A process is rebuilt from its id, UUID and the init record of its own fields. */
  lemma ProcessInitRoundTrip<U>(n: DataNode<U>)
    requires n.Proc?
    ensures ProcessNew(n.dbId, n.uuid, Some(ProcessInit(n.pid, n.cmdline, n.thin))) == n
  {
  }

  /** Likewise a socket from its init record. */
  lemma SocketInitRoundTrip<U>(n: DataNode<U>)
    requires n.Socket?
    ensures SocketNew(n.dbId, n.uuid, Some(SocketInit(n.sockClass, n.path, n.ip, n.port))) == n
  {
  }

  // ------------------------------------------------------- socket classes

  /** The enum's discriminant (`class as i64`). */
  function ClassToInt(c: SocketClass): (r: int)
  {
    match c
    case Unknown => 0
    case AfInet => 1
    case AfUnix => 2
  }

  /** 0, 1, 2 are Unknown, AfInet, AfUnix; anything else is no class. */
  function ClassFromInt(i: int): (r: Option<SocketClass>)
    ensures r.Some? <==> 0 <= i <= 2
  {
    if i == 0 then Some(Unknown)
    else if i == 1 then Some(AfInet)
    else if i == 2 then Some(AfUnix)
    else None
  }

  /** The discriminant and `ClassFromInt` are inverse, in both directions. */
  lemma ClassCodec(i: int, c: SocketClass)
    ensures ClassFromInt(i) == Some(c) <==> i == ClassToInt(c)
  {
  }

  // -------------------------------------------- the current crate's socket

  type Node = DataNode<Uuid.Uuid5>

  /** A socket's properties as written; the id is not among them. */
  function SocketProps(s: Node): (r: map<string, Value>)
    requires s.Socket?
    ensures r.Keys == {"uuid", "class", "path", "ip", "port"} && "db_id" !in r
    ensures r["class"] == Integer(ClassToInt(s.sockClass)) && r["port"] == Integer(s.port)
  {
    map["uuid" := String(Uuid.ToString(s.uuid)), "class" := Integer(ClassToInt(s.sockClass)),
        "path" := String(s.path), "ip" := String(s.ip), "port" := Integer(s.port)]
  }

  /**
   * A socket from its properties, failing on the first missing or
   * ill-typed one in the order db_id, uuid, class, path, ip, port; a uuid
   * string on which the parser panics is that panic.
   */
  function SocketFromProps(props: map<string, Value>): (r: Result<Node, Failure>)
    ensures r.Ok? ==> r.value.Socket?
    ensures r.Ok? <==>
      "db_id" in props && props["db_id"].Integer?
      && "uuid" in props && VA.AsUuid5(props["uuid"]).Ok? && VA.AsUuid5(props["uuid"]).value.Some?
      && "class" in props && props["class"].Integer? && ClassFromInt(props["class"].i).Some?
      && "path" in props && props["path"].String?
      && "ip" in props && props["ip"].String?
      && "port" in props && VA.AsU16(props["port"]).Some?
    ensures !("db_id" in props && props["db_id"].Integer?) ==> r == Err(Error("db_id property is missing or not an Integer"))
    ensures "db_id" in props && props["db_id"].Integer? && "uuid" in props && VA.AsUuid5(props["uuid"]).Err? ==>
      r == Err(VA.AsUuid5(props["uuid"]).error)
    ensures r.Err? && r.error.Panic? ==> "uuid" in props && VA.AsUuid5(props["uuid"]).Err?
  {
    match (if "db_id" in props then VA.AsI64(props["db_id"]) else None)
    case None => Err(Error("db_id property is missing or not an Integer"))
    case Some(id) =>
      match (if "uuid" in props then VA.AsUuid5(props["uuid"]) else Ok(None))
      case Err(e) => Err(e)
      case Ok(None) => Err(Error("uuid property is missing or not a UUID5"))
      case Ok(Some(u)) =>
        match (if "class" in props && props["class"].Integer? then ClassFromInt(props["class"].i) else None)
        case None => Err(Error("class property is missing or not an Integer"))
        case Some(c) =>
          match (if "path" in props then VA.AsString(props["path"]) else None)
          case None => Err(Error("path property is missing or not a string"))
          case Some(p) =>
            match (if "ip" in props then VA.AsString(props["ip"]) else None)
            case None => Err(Error("ip property is missing or not a string"))
            case Some(ip) =>
              match (if "port" in props then VA.AsU16(props["port"]) else None)
              case None => Err(Error("port property is missing or not an Integer"))
              case Some(port) => Ok(Socket(id, u, c, p, ip, port))
  }

  /** The written properties, with the id added, read back as the same socket. */
  lemma SocketPropsRoundTrip(s: Node)
    requires s.Socket?
    ensures SocketFromProps(SocketProps(s)["db_id" := Integer(s.dbId)]) == Ok(s)
  {
    VA.Uuid5RoundTrip(s.uuid);
    ClassCodec(ClassToInt(s.sockClass), s.sockClass);
  }

  /** Without the id, the written properties are rejected at the first check. */
  lemma SocketPropsNeedId(s: Node)
    requires s.Socket?
    ensures SocketFromProps(SocketProps(s)) == Err(Error("db_id property is missing or not an Integer"))
  {
  }

  /** Viewing a node as a socket: any other kind panics. */
  function SocketDenumerate(n: Node): (r: Result<Node, Failure>)
    ensures r.Ok? <==> n.Socket?
    ensures r.Ok? ==> r.value == n
    ensures r.Err? ==> r.error.Panic?
  {
    if n.Socket? then Ok(n) else Err(Panic("is not a socket"))
  }
}
