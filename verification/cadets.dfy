/**
 * The CADETS audit-trace parser. Each audit record first declares its
 * subject process, seeded with the executable as its (heritable) command
 * line and its pid (not heritable), then dispatches on the event name to a
 * handler that declares the objects involved, names them, sets metadata and
 * records the information flows. A handler stops with `MissingField` when
 * the record lacks a field it needs; the calls it made before stopping have
 * taken effect.
 */
module Cadets {
  import opened Ints
  import opened Wrappers
  import PDN = PvmDataNode
  import MS = MetaStore
  import NumText
  import opened PvmCalls

  const PROCESS: PDN.ConcreteType := PDN.ConcreteType(PDN.Actor, "process",
    map["euid" := true, "ruid" := true, "suid" := true, "egid" := true, "rgid" := true, "sgid" := true,
        "pid" := false, "cmdline" := true, "login_name" := true])
  const FILE: PDN.ConcreteType := PDN.ConcreteType(PDN.Store, "file",
    map["owner_uid" := true, "owner_gid" := true, "mode" := true])
  const SOCKET: PDN.ConcreteType := PDN.ConcreteType(PDN.Conduit, "socket", map[])
  const PIPE: PDN.ConcreteType := PDN.ConcreteType(PDN.Conduit, "pipe", map[])
  const PTTY: PDN.ConcreteType := PDN.ConcreteType(PDN.Conduit, "ptty",
    map["owner_uid" := true, "owner_gid" := true, "mode" := true])

  /** The fields of an audit record the parser reads. */
  datatype AuditEvent = AuditEvent(
    event: string, time: Time, pid: i32, exec: string, retval: i32, subj: Uuid,
    cmdline: Option<string>, upath1: Option<string>, upath2: Option<string>, fdpath: Option<string>,
    argUuid1: Option<Uuid>, argUuid2: Option<Uuid>, retUuid1: Option<Uuid>, retUuid2: Option<Uuid>,
    memFlags: Option<seq<string>>, sharingFlags: Option<seq<string>>,
    address: Option<string>, port: Option<u16>,
    argUid: Option<i64>, argEuid: Option<i64>, argRuid: Option<i64>, argSuid: Option<i64>,
    argGid: Option<i64>, argEgid: Option<i64>, argRgid: Option<i64>, argSgid: Option<i64>,
    login: Option<string>, mode: Option<u32>)

  datatype TraceEvent = Audit(a: AuditEvent) | Fbt(event: string)

  /** The fdpath the tracer writes when it could not resolve a descriptor. */
  const UnknownPath := "<unknown>"

  // ------------------------------------------------------------ required fields

  /** The record fields a handler can require. */
  datatype FieldName =
    | FCmdline | FUpath1 | FUpath2 | FArgUuid1 | FArgUuid2 | FRetUuid1 | FRetUuid2
    | FUid | FEuid | FRuid | FSuid | FGid | FEgid | FRgid | FSgid | FLogin | FMode

  /** The name the trace gives a field, as reported in `MissingField`. */
  function Wire(f: FieldName): string
  {
    match f
    case FCmdline => "cmdline"
    case FUpath1 => "upath1"
    case FUpath2 => "upath2"
    case FArgUuid1 => "arg_objuuid1"
    case FArgUuid2 => "arg_objuuid2"
    case FRetUuid1 => "ret_objuuid1"
    case FRetUuid2 => "ret_objuuid2"
    case FUid => "arg_uid"
    case FEuid => "arg_euid"
    case FRuid => "arg_ruid"
    case FSuid => "arg_suid"
    case FGid => "arg_gid"
    case FEgid => "arg_egid"
    case FRgid => "arg_rgid"
    case FSgid => "arg_sgid"
    case FLogin => "login"
    case FMode => "mode"
  }

  /** Whether the record carries a field. */
  predicate Present(tr: AuditEvent, f: FieldName)
  {
    match f
    case FCmdline => tr.cmdline.Some?
    case FUpath1 => tr.upath1.Some?
    case FUpath2 => tr.upath2.Some?
    case FArgUuid1 => tr.argUuid1.Some?
    case FArgUuid2 => tr.argUuid2.Some?
    case FRetUuid1 => tr.retUuid1.Some?
    case FRetUuid2 => tr.retUuid2.Some?
    case FUid => tr.argUid.Some?
    case FEuid => tr.argEuid.Some?
    case FRuid => tr.argRuid.Some?
    case FSuid => tr.argSuid.Some?
    case FGid => tr.argGid.Some?
    case FEgid => tr.argEgid.Some?
    case FRgid => tr.argRgid.Some?
    case FSgid => tr.argSgid.Some?
    case FLogin => tr.login.Some?
    case FMode => tr.mode.Some?
  }

  /** The uuid-valued fields. */
  function UuidOf(tr: AuditEvent, f: FieldName): (r: Option<Uuid>)
    ensures r.Some? ==> Present(tr, f)
    ensures (f.FArgUuid1? || f.FArgUuid2? || f.FRetUuid1? || f.FRetUuid2?) ==> (r.Some? <==> Present(tr, f))
  {
    match f
    case FArgUuid1 => tr.argUuid1
    case FArgUuid2 => tr.argUuid2
    case FRetUuid1 => tr.retUuid1
    case FRetUuid2 => tr.retUuid2
    case _ => None
  }

  /** The identity-valued fields. */
  function IdOf(tr: AuditEvent, f: FieldName): (r: Option<i64>)
    ensures r.Some? ==> Present(tr, f)
    ensures (f.FUid? || f.FEuid? || f.FRuid? || f.FSuid? || f.FGid? || f.FEgid? || f.FRgid? || f.FSgid?) ==>
      (r.Some? <==> Present(tr, f))
  {
    match f
    case FUid => tr.argUid
    case FEuid => tr.argEuid
    case FRuid => tr.argRuid
    case FSuid => tr.argSuid
    case FGid => tr.argGid
    case FEgid => tr.argEgid
    case FRgid => tr.argRgid
    case FSgid => tr.argSgid
    case _ => None
  }

  // ------------------------------------------------------------- socket names

  /**
   * The name a socket event carries: a path when upath1 is present, else a
   * network address when a port is present (then the address is required),
   * else none.
   */
  function OptSockName(tr: AuditEvent, cs: seq<Call>): (r: Result<Option<PDN.Name>, Stop>)
    ensures tr.upath1.Some? ==> r == Ok(Some(PDN.Path(tr.upath1.value)))
    ensures tr.upath1.None? && tr.port.Some? && tr.address.Some? ==>
      r == Ok(Some(PDN.Net(tr.address.value, tr.port.value)))
    ensures tr.upath1.None? && tr.port.Some? && tr.address.None? ==>
      r == Err((cs, MissingField(tr.event, "address")))
    ensures tr.upath1.None? && tr.port.None? ==> r == Ok(None)
  {
    if tr.upath1.Some? then Ok(Some(PDN.Path(tr.upath1.value)))
    else if tr.port.Some? then
      var addr :- Field(cs, tr.event, tr.address, "address");
      Ok(Some(PDN.Net(addr, tr.port.value)))
    else Ok(None)
  }

  /** A socket name that must be there: its absence is the combined field "upath1, port". */
  function SockName(tr: AuditEvent, cs: seq<Call>): (r: Result<PDN.Name, Stop>)
    ensures r.Ok? <==> tr.upath1.Some? || (tr.port.Some? && tr.address.Some?)
    ensures r.Ok? ==> OptSockName(tr, cs) == Ok(Some(r.value))
    ensures tr.upath1.None? && tr.port.None? ==> r == Err((cs, MissingField(tr.event, "upath1, port")))
    ensures tr.upath1.None? && tr.port.Some? && tr.address.None? ==> r == Err((cs, MissingField(tr.event, "address")))
  {
    var n :- OptSockName(tr, cs);
    if n.Some? then Ok(n.value) else Err((cs, MissingField(tr.event, "upath1, port")))
  }

  // ------------------------------------------------------------------ handlers

  /** The calls a handler has made when it returns or stops. */
  function Made(r: Result<seq<Call>, Stop>): seq<Call>
  {
    if r.Ok? then r.value else r.error.0
  }

  /**
   * A handler only appends to the calls made before it, and never notes an
   * unparsed event.
   */
  predicate Appends(cs: seq<Call>, r: Result<seq<Call>, Stop>)
  {
    cs <= Made(r) && forall i :: |cs| <= i < |Made(r)| ==> !Made(r)[i].Unparsed?
  }

  /** The calls appended to `cs` are `a`. */
  lemma Tail(cs: seq<Call>, a: seq<Call>)
    ensures (cs + a)[|cs|..] == a
  {
  }

  /** `c` sets metadata `key` of `node` to text that reads back as the number `n`. */
  predicate NumMeta(c: Call, node: Uuid, key: string, n: int)
  {
    c.Meta? && c.node == node && c.key == key && NumText.ParseDecimal(c.val) == Some(n)
  }

  /** A metadata value rendered as the formatter's `{}` renders an integer. */
  function Num(i: int): string
  {
    NumText.Decimal(i)
  }

  function Exec(tr: AuditEvent, cs: seq<Call>): (r: Result<seq<Call>, Stop>)
    ensures Appends(cs, r)
    ensures r.Ok? <==> tr.cmdline.Some? && tr.argUuid1.Some? && tr.upath1.Some? && tr.argUuid2.Some? && tr.upath2.Some?
    ensures tr.cmdline.None? ==> r == Err((cs, MissingField(tr.event, "cmdline")))
    ensures tr.cmdline.Some? && tr.argUuid1.None? ==> r == Err((cs, MissingField(tr.event, "arg_objuuid1")))
    ensures tr.cmdline.Some? && tr.argUuid1.Some? && tr.upath1.None? ==> r == Err((cs, MissingField(tr.event, "upath1")))
    ensures tr.cmdline.Some? && tr.argUuid1.Some? && tr.upath1.Some? && tr.argUuid2.None? ==> r == Err((cs, MissingField(tr.event, "arg_objuuid2")))
    ensures tr.cmdline.Some? && tr.argUuid1.Some? && tr.upath1.Some? && tr.argUuid2.Some? && tr.upath2.None? ==> r == Err((cs, MissingField(tr.event, "upath2")))
    ensures r.Ok? ==> var a := r.value[|cs|..];
      Meta(tr.subj, "cmdline", tr.cmdline.value) in a
      && Name(tr.argUuid1.value, PDN.Path(tr.upath1.value)) in a
      && Name(tr.argUuid2.value, PDN.Path(tr.upath2.value)) in a
      && FlowsAre(a, [Flow(Source, tr.subj, tr.argUuid1.value, None), Flow(Source, tr.subj, tr.argUuid2.value, None)])
  {
    var cmd :- Field(cs, tr.event, tr.cmdline, "cmdline");
    var bu :- Field(cs, tr.event, tr.argUuid1, "arg_objuuid1");
    var bn :- Field(cs, tr.event, tr.upath1, "upath1");
    var lu :- Field(cs, tr.event, tr.argUuid2, "arg_objuuid2");
    var ln :- Field(cs, tr.event, tr.upath2, "upath2");
    var a := [Declare(FILE, bu, None), Name(bu, PDN.Path(bn)), Declare(FILE, lu, None), Name(lu, PDN.Path(ln)),
              Meta(tr.subj, "cmdline", cmd), Flow(Source, tr.subj, bu, None), Flow(Source, tr.subj, lu, None)];
    Tail(cs, a);
    Ok(cs + a)
  }

  /**
   * fork: the child inherits the parent's heritable metadata, then gets its
   * own pid, and data flows from the parent into it.
   */
  function Fork(tr: AuditEvent, cs: seq<Call>): (r: Result<seq<Call>, Stop>)
    ensures Appends(cs, r)
    ensures r.Ok? <==> tr.retUuid1.Some?
    ensures tr.retUuid1.None? ==> r == Err((cs, MissingField(tr.event, "ret_objuuid1")))
    ensures r.Ok? ==> var ch := tr.retUuid1.value; var a := r.value[|cs|..];
      |a| == 4 && a[0] == Declare(PROCESS, ch, None) && a[1] == Inherit(ch, tr.subj, tr.time)
      && NumMeta(a[2], ch, "pid", tr.retval as int)
      && FlowsAre(a, [Flow(Source, ch, tr.subj, None)])
  {
    var cu :- Field(cs, tr.event, tr.retUuid1, "ret_objuuid1");
    var a := [Declare(PROCESS, cu, None), Inherit(cu, tr.subj, tr.time), Meta(cu, "pid", Num(tr.retval)),
              Flow(Source, cu, tr.subj, None)];
    NumText.DecimalRoundTrip(tr.retval as int);
    Tail(cs, a);
    Ok(cs + a)
  }

  /** open: only a successful open (one that returned an object) is recorded, and then it needs its path. */
  function Open(tr: AuditEvent, cs: seq<Call>): (r: Result<seq<Call>, Stop>)
    ensures Appends(cs, r)
    ensures tr.retUuid1.None? ==> r == Ok(cs)
    ensures r.Err? <==> tr.retUuid1.Some? && tr.upath1.None?
    ensures r.Err? ==> r == Err((cs, MissingField(tr.event, "upath1")))
    ensures r.Ok? && tr.retUuid1.Some? ==>
      r.value[|cs|..] == [Declare(FILE, tr.retUuid1.value, None), Name(tr.retUuid1.value, PDN.Path(tr.upath1.value))]
  {
    if tr.retUuid1.None? then Ok(cs)
    else
      var fname :- Field(cs, tr.event, tr.upath1, "upath1");
      var a := [Declare(FILE, tr.retUuid1.value, None), Name(tr.retUuid1.value, PDN.Path(fname))];
      Tail(cs, a);
      Ok(cs + a)
  }

  /**
   * read (a source) and write (the start of a write session), carrying the
   * byte count; the file is named by its descriptor path unless the tracer
   * could not resolve it.
   */
  function Transfer(tr: AuditEvent, cs: seq<Call>, kind: FlowKind): (r: Result<seq<Call>, Stop>)
    ensures Appends(cs, r)
    ensures r.Ok? <==> tr.argUuid1.Some?
    ensures tr.argUuid1.None? ==> r == Err((cs, MissingField(tr.event, "arg_objuuid1")))
    ensures r.Ok? ==> var f := tr.argUuid1.value; var a := r.value[|cs|..];
      ((exists i :: 0 <= i < |a| && a[i].Name?) <==> tr.fdpath.Some? && tr.fdpath.value != UnknownPath)
      && FlowsAre(a, [Flow(kind, tr.subj, f, Some(tr.retval))])
  {
    var fu :- Field(cs, tr.event, tr.argUuid1, "arg_objuuid1");
    var named := if tr.fdpath.Some? && tr.fdpath.value != UnknownPath then [Name(fu, PDN.Path(tr.fdpath.value))] else [];
    var a := [Declare(FILE, fu, None)] + named + [Flow(kind, tr.subj, fu, Some(tr.retval))];
    assert named != [] ==> a[1].Name?;
    Tail(cs, a);
    Ok(cs + a)
  }

  /** close: ends the subject's write session on the file, when the record names one. */
  function Close(tr: AuditEvent, cs: seq<Call>): (r: Result<seq<Call>, Stop>)
    ensures Appends(cs, r)
    ensures r.Ok?
    ensures tr.argUuid1.None? ==> r == Ok(cs)
    ensures r.Ok? && tr.argUuid1.Some? ==> FlowsAre(r.value[|cs|..], [Flow(SinkEnd, tr.subj, tr.argUuid1.value, None)])
  {
    if tr.argUuid1.None? then Ok(cs)
    else
      var a := [Declare(FILE, tr.argUuid1.value, None), Flow(SinkEnd, tr.subj, tr.argUuid1.value, None)];
      Tail(cs, a);
      Ok(cs + a)
  }

  /** socket, listen and posix_openpt: declare one object of the given type. */
  function DeclareOne(tr: AuditEvent, cs: seq<Call>, f: FieldName, ty: PDN.ConcreteType): (r: Result<seq<Call>, Stop>)
    requires f.FArgUuid1? || f.FRetUuid1?
    ensures Appends(cs, r)
    ensures r.Ok? <==> Present(tr, f)
    ensures !Present(tr, f) ==> r == Err((cs, MissingField(tr.event, Wire(f))))
    ensures r.Ok? ==> r.value[|cs|..] == [Declare(ty, UuidOf(tr, f).value, None)]
  {
    var su :- Field(cs, tr.event, UuidOf(tr, f), Wire(f));
    Tail(cs, [Declare(ty, su, None)]);
    Ok(cs + [Declare(ty, su, None)])
  }

  /** bind and connect: the socket gets the name the event must carry. */
  function Bind(tr: AuditEvent, cs: seq<Call>): (r: Result<seq<Call>, Stop>)
    ensures Appends(cs, r)
    ensures tr.argUuid1.None? ==> r == Err((cs, MissingField(tr.event, "arg_objuuid1")))
    ensures tr.argUuid1.Some? ==>
      var s := tr.argUuid1.value; var c1 := cs + [Declare(SOCKET, s, None)];
      (tr.upath1.Some? ==> r == Ok(c1 + [Name(s, PDN.Path(tr.upath1.value))]))
      && (tr.upath1.None? && tr.port.Some? && tr.address.Some? ==> r == Ok(c1 + [Name(s, PDN.Net(tr.address.value, tr.port.value))]))
      && (tr.upath1.None? && tr.port.Some? && tr.address.None? ==> r == Err((c1, MissingField(tr.event, "address"))))
      && (tr.upath1.None? && tr.port.None? ==> r == Err((c1, MissingField(tr.event, "upath1, port"))))
  {
    var su :- Field(cs, tr.event, tr.argUuid1, "arg_objuuid1");
    var c1 := cs + [Declare(SOCKET, su, None)];
    var n :- SockName(tr, c1);
    Ok(c1 + [Name(su, n)])
  }

  /** accept: the listening socket, then the accepted one, which gets the name. */
  function Accept(tr: AuditEvent, cs: seq<Call>): (r: Result<seq<Call>, Stop>)
    ensures Appends(cs, r)
    ensures r.Ok? <==> tr.argUuid1.Some? && tr.retUuid1.Some? && (tr.upath1.Some? || (tr.port.Some? && tr.address.Some?))
    ensures r.Ok? ==> var a := r.value[|cs|..];
      |a| == 3 && a[0] == Declare(SOCKET, tr.argUuid1.value, None) && a[1] == Declare(SOCKET, tr.retUuid1.value, None)
      && a[2].Name? && a[2].node == tr.retUuid1.value && OptSockName(tr, cs) == Ok(Some(a[2].name))
  {
    var lu :- Field(cs, tr.event, tr.argUuid1, "arg_objuuid1");
    var ru :- Field(cs, tr.event, tr.retUuid1, "ret_objuuid1");
    var c1 := cs + [Declare(SOCKET, lu, None), Declare(SOCKET, ru, None)];
    var n :- SockName(tr, c1);
    Tail(cs, [Declare(SOCKET, lu, None), Declare(SOCKET, ru, None), Name(ru, n)]);
    Ok(c1 + [Name(ru, n)])
  }

  /** Whether a mapping writes through to the file: writable and not private. */
  predicate MapsShared(tr: AuditEvent)
  {
    tr.memFlags.Some? && "PROT_WRITE" in tr.memFlags.value
    && (tr.sharingFlags.None? || "MAP_PRIVATE" !in tr.sharingFlags.value)
  }

  /** Whether a mapping reads the file. */
  predicate MapsReadable(tr: AuditEvent)
  {
    tr.memFlags.Some? && "PROT_READ" in tr.memFlags.value
  }

  /** The flows an mmap records on file `f`: a write session, then a read, as the flags say. */
  function MmapFlows(tr: AuditEvent, f: Uuid): (r: seq<Call>)
    ensures Flow(SinkStart, tr.subj, f, None) in r <==> MapsShared(tr)
    ensures Flow(Source, tr.subj, f, None) in r <==> MapsReadable(tr)
    ensures forall c :: c in r ==> c == Flow(SinkStart, tr.subj, f, None) || c == Flow(Source, tr.subj, f, None)
  {
    (if MapsShared(tr) then [Flow(SinkStart, tr.subj, f, None)] else [])
    + (if MapsReadable(tr) then [Flow(Source, tr.subj, f, None)] else [])
  }

  /**
   * mmap: a shared writable mapping starts a write session on the file, a
   * readable one is a source; a mapping without protection flags records no
   * flow.
   */
  function Mmap(tr: AuditEvent, cs: seq<Call>): (r: Result<seq<Call>, Stop>)
    ensures Appends(cs, r)
    ensures r.Ok? <==> tr.argUuid1.Some?
    ensures tr.argUuid1.None? ==> r == Err((cs, MissingField(tr.event, "arg_objuuid1")))
    ensures r.Ok? ==> var f := tr.argUuid1.value; var a := r.value[|cs|..];
      (Flow(SinkStart, tr.subj, f, None) in a <==> MapsShared(tr))
      && (Flow(Source, tr.subj, f, None) in a <==> MapsReadable(tr))
      && (forall c :: c in a && c.Flow? ==> c == Flow(SinkStart, tr.subj, f, None) || c == Flow(Source, tr.subj, f, None))
  {
    var fu :- Field(cs, tr.event, tr.argUuid1, "arg_objuuid1");
    var a := [Declare(FILE, fu, None)] + (if tr.fdpath.Some? then [Name(fu, PDN.Path(tr.fdpath.value))] else []) + MmapFlows(tr, fu);
    Tail(cs, a);
    Ok(cs + a)
  }

  /** socketpair and pipe: two new ends, connected to each other. */
  function Pair(tr: AuditEvent, cs: seq<Call>, ty: PDN.ConcreteType): (r: Result<seq<Call>, Stop>)
    ensures Appends(cs, r)
    ensures r.Ok? <==> tr.retUuid1.Some? && tr.retUuid2.Some?
    ensures tr.retUuid1.None? ==> r == Err((cs, MissingField(tr.event, "ret_objuuid1")))
    ensures tr.retUuid1.Some? && tr.retUuid2.None? ==> r == Err((cs, MissingField(tr.event, "ret_objuuid2")))
    ensures r.Ok? ==> var a := r.value[|cs|..];
      Declare(ty, tr.retUuid1.value, None) in a && Declare(ty, tr.retUuid2.value, None) in a
      && a[|a| - 1] == Connect(tr.retUuid1.value, tr.retUuid2.value) && FlowsAre(a, [])
  {
    var r1 :- Field(cs, tr.event, tr.retUuid1, "ret_objuuid1");
    var r2 :- Field(cs, tr.event, tr.retUuid2, "ret_objuuid2");
    var a := [Declare(ty, r1, None), Declare(ty, r2, None), Connect(r1, r2)];
    Tail(cs, a);
    Ok(cs + a)
  }

  /** sendmsg/sendto (kind SinkStart) and recvmsg/recvfrom (kind Source), carrying the byte count. */
  function Message(tr: AuditEvent, cs: seq<Call>, kind: FlowKind): (r: Result<seq<Call>, Stop>)
    ensures Appends(cs, r)
    ensures r.Ok? <==> tr.argUuid1.Some? && (tr.upath1.Some? || tr.port.None? || tr.address.Some?)
    ensures r.Ok? ==> var s := tr.argUuid1.value; var a := r.value[|cs|..];
      (forall n :: Name(s, n) in a <==> OptSockName(tr, cs) == Ok(Some(n)))
      && FlowsAre(a, [Flow(kind, tr.subj, s, Some(tr.retval))])
  {
    var su :- Field(cs, tr.event, tr.argUuid1, "arg_objuuid1");
    var c1 := cs + [Declare(SOCKET, su, None)];
    var n :- OptSockName(tr, c1);
    var a := [Declare(SOCKET, su, None)] + (if n.Some? then [Name(su, n.value)] else []) + [Flow(kind, tr.subj, su, Some(tr.retval))];
    Tail(cs, a);
    Ok(cs + a)
  }

  function Chdir(tr: AuditEvent, cs: seq<Call>): (r: Result<seq<Call>, Stop>)
    ensures Appends(cs, r)
    ensures r.Ok? <==> tr.argUuid1.Some?
    ensures tr.argUuid1.None? ==> r == Err((cs, MissingField(tr.event, "arg_objuuid1")))
    ensures r.Ok? ==> forall n :: Name(tr.argUuid1.value, n) in r.value[|cs|..] <==> tr.upath1.Some? && n == PDN.Path(tr.upath1.value)
  {
    var du :- Field(cs, tr.event, tr.argUuid1, "arg_objuuid1");
    var a := [Declare(FILE, du, None)] + (if tr.upath1.Some? then [Name(du, PDN.Path(tr.upath1.value))] else []);
    Tail(cs, a);
    Ok(cs + a)
  }

  /** chmod: the new mode, written in octal, then the path, then a write by the subject. */
  function Chmod(tr: AuditEvent, cs: seq<Call>): (r: Result<seq<Call>, Stop>)
    ensures Appends(cs, r)
    ensures r.Ok? <==> tr.argUuid1.Some? && tr.upath1.Some? && tr.mode.Some?
    ensures tr.argUuid1.None? ==> r == Err((cs, MissingField(tr.event, "arg_objuuid1")))
    ensures tr.argUuid1.Some? && tr.upath1.None? ==> r == Err((cs, MissingField(tr.event, "upath1")))
    ensures tr.argUuid1.Some? && tr.upath1.Some? && tr.mode.None? ==> r == Err((cs, MissingField(tr.event, "mode")))
    ensures r.Ok? ==> var f := tr.argUuid1.value; var a := r.value[|cs|..];
      |a| == 4 && a[1].Meta? && a[1].node == f && a[1].key == "mode" && NumText.ParseNat(a[1].val, 8) == Some(tr.mode.value as nat)
      && Name(f, PDN.Path(tr.upath1.value)) in a && FlowsAre(a, [Flow(Sink, tr.subj, f, None)])
  {
    var fu :- Field(cs, tr.event, tr.argUuid1, "arg_objuuid1");
    var fpath :- Field(cs, tr.event, tr.upath1, "upath1");
    var mode :- Field(cs, tr.event, tr.mode, "mode");
    var a := [Declare(FILE, fu, None), Meta(fu, "mode", NumText.Octal(mode)), Name(fu, PDN.Path(fpath)),
              Flow(Sink, tr.subj, fu, None)];
    NumText.OctalRoundTrip(mode as nat);
    Tail(cs, a);
    Ok(cs + a)
  }

  /** chown: the new owner and group, then the path, then a write by the subject. */
  function Chown(tr: AuditEvent, cs: seq<Call>): (r: Result<seq<Call>, Stop>)
    ensures Appends(cs, r)
    ensures r.Ok? <==> tr.argUuid1.Some? && tr.upath1.Some? && tr.argUid.Some? && tr.argGid.Some?
    ensures tr.argUuid1.None? ==> r == Err((cs, MissingField(tr.event, "arg_objuuid1")))
    ensures tr.argUuid1.Some? && tr.upath1.None? ==> r == Err((cs, MissingField(tr.event, "upath1")))
    ensures tr.argUuid1.Some? && tr.upath1.Some? && tr.argUid.None? ==> r == Err((cs, MissingField(tr.event, "arg_uid")))
    ensures tr.argUuid1.Some? && tr.upath1.Some? && tr.argUid.Some? && tr.argGid.None? ==> r == Err((cs, MissingField(tr.event, "arg_gid")))
    ensures r.Ok? ==> var f := tr.argUuid1.value; var a := r.value[|cs|..];
      |a| >= 3 && NumMeta(a[1], f, "owner_uid", tr.argUid.value as int) && NumMeta(a[2], f, "owner_gid", tr.argGid.value as int)
      && Name(f, PDN.Path(tr.upath1.value)) in a && FlowsAre(a, [Flow(Sink, tr.subj, f, None)])
  {
    var fu :- Field(cs, tr.event, tr.argUuid1, "arg_objuuid1");
    var fpath :- Field(cs, tr.event, tr.upath1, "upath1");
    var uid :- Field(cs, tr.event, tr.argUid, "arg_uid");
    var gid :- Field(cs, tr.event, tr.argGid, "arg_gid");
    var a := ChownCalls(tr.subj, fu, fpath, uid, gid);
    Tail(cs, a);
    Ok(cs + a)
  }

  /** The calls of a chown: the owner and group as numbers, the path, and the write. */
  function ChownCalls(subj: Uuid, f: Uuid, path: string, uid: i64, gid: i64): (a: seq<Call>)
    ensures |a| >= 3 && NumMeta(a[1], f, "owner_uid", uid as int) && NumMeta(a[2], f, "owner_gid", gid as int)
    ensures Name(f, PDN.Path(path)) in a && FlowsAre(a, [Flow(Sink, subj, f, None)])
  {
    var su, sg := Num(uid), Num(gid);
    assert NumText.ParseDecimal(su) == Some(uid as int) by { NumText.DecimalRoundTrip(uid as int); }
    assert NumText.ParseDecimal(sg) == Some(gid as int) by { NumText.DecimalRoundTrip(gid as int); }
    [Declare(FILE, f, None), Meta(f, "owner_uid", su), Meta(f, "owner_gid", sg),
     Name(f, PDN.Path(path)), Flow(Sink, subj, f, None)]
  }

  /** fchmod: as chmod on a descriptor, with no path; the write starts a session. */
  function Fchmod(tr: AuditEvent, cs: seq<Call>): (r: Result<seq<Call>, Stop>)
    ensures Appends(cs, r)
    ensures r.Ok? <==> tr.argUuid1.Some? && tr.mode.Some?
    ensures tr.argUuid1.None? ==> r == Err((cs, MissingField(tr.event, "arg_objuuid1")))
    ensures tr.argUuid1.Some? && tr.mode.None? ==> r == Err((cs, MissingField(tr.event, "mode")))
    ensures r.Ok? ==> var f := tr.argUuid1.value; var a := r.value[|cs|..];
      |a| == 3 && a[1].Meta? && a[1].node == f && a[1].key == "mode" && NumText.ParseNat(a[1].val, 8) == Some(tr.mode.value as nat)
      && FlowsAre(a, [Flow(SinkStart, tr.subj, f, None)])
  {
    var fu :- Field(cs, tr.event, tr.argUuid1, "arg_objuuid1");
    var mode :- Field(cs, tr.event, tr.mode, "mode");
    var a := [Declare(FILE, fu, None), Meta(fu, "mode", NumText.Octal(mode)), Flow(SinkStart, tr.subj, fu, None)];
    NumText.OctalRoundTrip(mode as nat);
    Tail(cs, a);
    Ok(cs + a)
  }

  /** fchown: as chown on a descriptor, with no path; the write starts a session. */
  function Fchown(tr: AuditEvent, cs: seq<Call>): (r: Result<seq<Call>, Stop>)
    ensures Appends(cs, r)
    ensures r.Ok? <==> tr.argUuid1.Some? && tr.argUid.Some? && tr.argGid.Some?
    ensures tr.argUuid1.None? ==> r == Err((cs, MissingField(tr.event, "arg_objuuid1")))
    ensures tr.argUuid1.Some? && tr.argUid.None? ==> r == Err((cs, MissingField(tr.event, "arg_uid")))
    ensures tr.argUuid1.Some? && tr.argUid.Some? && tr.argGid.None? ==> r == Err((cs, MissingField(tr.event, "arg_gid")))
    ensures r.Ok? ==> var f := tr.argUuid1.value; var a := r.value[|cs|..];
      |a| >= 3 && NumMeta(a[1], f, "owner_uid", tr.argUid.value as int) && NumMeta(a[2], f, "owner_gid", tr.argGid.value as int)
      && FlowsAre(a, [Flow(SinkStart, tr.subj, f, None)])
  {
    var fu :- Field(cs, tr.event, tr.argUuid1, "arg_objuuid1");
    var uid :- Field(cs, tr.event, tr.argUid, "arg_uid");
    var gid :- Field(cs, tr.event, tr.argGid, "arg_gid");
    var su, sg := Num(uid), Num(gid);
    assert NumText.ParseDecimal(su) == Some(uid as int) by { NumText.DecimalRoundTrip(uid as int); }
    assert NumText.ParseDecimal(sg) == Some(gid as int) by { NumText.DecimalRoundTrip(gid as int); }
    var a := [Declare(FILE, fu, None), Meta(fu, "owner_uid", su), Meta(fu, "owner_gid", sg),
              Flow(SinkStart, tr.subj, fu, None)];
    Tail(cs, a);
    Ok(cs + a)
  }

  /** link: the file gets its new path and keeps the old one. */
  function Link(tr: AuditEvent, cs: seq<Call>): (r: Result<seq<Call>, Stop>)
    ensures Appends(cs, r)
    ensures r.Ok? <==> tr.argUuid1.Some? && tr.upath1.Some? && tr.upath2.Some?
    ensures tr.argUuid1.None? ==> r == Err((cs, MissingField(tr.event, "arg_objuuid1")))
    ensures tr.argUuid1.Some? && tr.upath1.None? ==> r == Err((cs, MissingField(tr.event, "upath1")))
    ensures tr.argUuid1.Some? && tr.upath1.Some? && tr.upath2.None? ==> r == Err((cs, MissingField(tr.event, "upath2")))
    ensures r.Ok? ==> forall n :: Name(tr.argUuid1.value, n) in r.value[|cs|..] <==> n == PDN.Path(tr.upath1.value) || n == PDN.Path(tr.upath2.value)
  {
    var fu :- Field(cs, tr.event, tr.argUuid1, "arg_objuuid1");
    var p1 :- Field(cs, tr.event, tr.upath1, "upath1");
    var p2 :- Field(cs, tr.event, tr.upath2, "upath2");
    var a := [Declare(FILE, fu, None), Name(fu, PDN.Path(p1)), Name(fu, PDN.Path(p2))];
    Tail(cs, a);
    Ok(cs + a)
  }

  /**
   * rename: the source loses its old path; a file the rename overwrites
   * loses the destination path; then the source takes it.
   */
  function Rename(tr: AuditEvent, cs: seq<Call>): (r: Result<seq<Call>, Stop>)
    ensures Appends(cs, r)
    ensures r.Ok? <==> tr.argUuid1.Some? && tr.upath1.Some? && tr.upath2.Some?
    ensures tr.argUuid1.None? ==> r == Err((cs, MissingField(tr.event, "arg_objuuid1")))
    ensures tr.argUuid1.Some? && tr.upath1.None? ==> r == Err((cs, MissingField(tr.event, "upath1")))
    ensures tr.argUuid1.Some? && tr.upath1.Some? && tr.upath2.None? ==> r == Err((cs, MissingField(tr.event, "upath2")))
    ensures r.Ok? ==> var s := tr.argUuid1.value; var a := r.value[|cs|..];
      |a| == (if tr.argUuid2.Some? then 5 else 3)
      && a[1] == Unname(s, PDN.Path(tr.upath1.value)) && a[|a| - 1] == Name(s, PDN.Path(tr.upath2.value))
      && (tr.argUuid2.Some? ==> a[3] == Unname(tr.argUuid2.value, PDN.Path(tr.upath2.value)))
  {
    var su :- Field(cs, tr.event, tr.argUuid1, "arg_objuuid1");
    var src :- Field(cs, tr.event, tr.upath1, "upath1");
    var dst :- Field(cs, tr.event, tr.upath2, "upath2");
    var ovr := if tr.argUuid2.Some? then [Declare(FILE, tr.argUuid2.value, None), Unname(tr.argUuid2.value, PDN.Path(dst))] else [];
    var a := [Declare(FILE, su, None), Unname(su, PDN.Path(src))] + ovr + [Name(su, PDN.Path(dst))];
    Tail(cs, a);
    Ok(cs + a)
  }

  function Unlink(tr: AuditEvent, cs: seq<Call>): (r: Result<seq<Call>, Stop>)
    ensures Appends(cs, r)
    ensures r.Ok? <==> tr.argUuid1.Some? && tr.upath1.Some?
    ensures tr.argUuid1.None? ==> r == Err((cs, MissingField(tr.event, "arg_objuuid1")))
    ensures tr.argUuid1.Some? && tr.upath1.None? ==> r == Err((cs, MissingField(tr.event, "upath1")))
    ensures r.Ok? ==> r.value[|cs|..] == [Declare(FILE, tr.argUuid1.value, None), Unname(tr.argUuid1.value, PDN.Path(tr.upath1.value))]
  {
    var fu :- Field(cs, tr.event, tr.argUuid1, "arg_objuuid1");
    var p1 :- Field(cs, tr.event, tr.upath1, "upath1");
    Tail(cs, [Declare(FILE, fu, None), Unname(fu, PDN.Path(p1))]);
    Ok(cs + [Declare(FILE, fu, None), Unname(fu, PDN.Path(p1))])
  }

  /** Whether a field holds one of the subject's identities. */
  predicate IsId(f: FieldName)
  {
    f.FUid? || f.FEuid? || f.FRuid? || f.FSuid? || f.FGid? || f.FEgid? || f.FRgid? || f.FSgid?
  }

  /** One identity of the subject set to `v`, unless `v` is -1 (left unchanged). */
  function SetId(tr: AuditEvent, key: string, v: i64): (r: seq<Call>)
    ensures forall k, w :: Meta(tr.subj, k, w) in r <==> k == key && v != -1 && w == Num(v)
    ensures forall c :: c in r ==> c.Meta? && c.node == tr.subj
  {
    if v != -1 then [Meta(tr.subj, key, Num(v))] else []
  }

  /** setuid/setgid (all three ids) and seteuid/setegid (the effective one): set unconditionally. */
  function SetAll(tr: AuditEvent, cs: seq<Call>, f: FieldName, keys: seq<string>): (r: Result<seq<Call>, Stop>)
    requires IsId(f)
    ensures Appends(cs, r)
    ensures r.Ok? <==> Present(tr, f)
    ensures !Present(tr, f) ==> r == Err((cs, MissingField(tr.event, Wire(f))))
    ensures r.Ok? ==> var a := r.value[|cs|..];
      |a| == |keys| && forall i :: 0 <= i < |a| ==> NumMeta(a[i], tr.subj, keys[i], IdOf(tr, f).value as int)
  {
    var v :- Field(cs, tr.event, IdOf(tr, f), Wire(f));
    var t := Num(v);
    var a := seq(|keys|, i requires 0 <= i < |keys| => Meta(tr.subj, keys[i], t));
    NumText.DecimalRoundTrip(v as int);
    assert NumText.ParseDecimal(t) == Some(v as int);
    assert forall i :: 0 <= i < |a| ==> a[i] == Meta(tr.subj, keys[i], t);
    Tail(cs, a);
    Ok(cs + a)
  }

  /** setreuid/setregid: real then effective, each left unchanged when -1. */
  function SetRe(tr: AuditEvent, cs: seq<Call>, fr: FieldName, fe: FieldName, keys: (string, string)): (r: Result<seq<Call>, Stop>)
    requires IsId(fr) && IsId(fe)
    ensures Appends(cs, r)
    ensures r.Ok? <==> Present(tr, fr) && Present(tr, fe)
    ensures !Present(tr, fr) ==> r == Err((cs, MissingField(tr.event, Wire(fr))))
    ensures Present(tr, fr) && !Present(tr, fe) ==> r == Err((cs, MissingField(tr.event, Wire(fe))))
    ensures r.Ok? ==> var vr := IdOf(tr, fr).value; var ve := IdOf(tr, fe).value;
      forall k, v :: Meta(tr.subj, k, v) in r.value[|cs|..] <==>
        (k == keys.0 && vr != -1 && v == Num(vr)) || (k == keys.1 && ve != -1 && v == Num(ve))
  {
    var r :- Field(cs, tr.event, IdOf(tr, fr), Wire(fr));
    var e :- Field(cs, tr.event, IdOf(tr, fe), Wire(fe));
    var a := SetId(tr, keys.0, r) + SetId(tr, keys.1, e);
    Tail(cs, a);
    Ok(cs + a)
  }

  /** setresuid/setresgid: real, effective, saved, each left unchanged when -1. */
  function SetRes(tr: AuditEvent, cs: seq<Call>, fr: FieldName, fe: FieldName, fs: FieldName,
                  keys: (string, string, string)): (r: Result<seq<Call>, Stop>)
    requires IsId(fr) && IsId(fe) && IsId(fs)
    ensures Appends(cs, r)
    ensures r.Ok? <==> Present(tr, fr) && Present(tr, fe) && Present(tr, fs)
    ensures !Present(tr, fr) ==> r == Err((cs, MissingField(tr.event, Wire(fr))))
    ensures Present(tr, fr) && !Present(tr, fe) ==> r == Err((cs, MissingField(tr.event, Wire(fe))))
    ensures Present(tr, fr) && Present(tr, fe) && !Present(tr, fs) ==> r == Err((cs, MissingField(tr.event, Wire(fs))))
    ensures r.Ok? ==> var vr := IdOf(tr, fr).value; var ve := IdOf(tr, fe).value; var vs := IdOf(tr, fs).value;
      forall k, v :: Meta(tr.subj, k, v) in r.value[|cs|..] <==>
        (k == keys.0 && vr != -1 && v == Num(vr)) || (k == keys.1 && ve != -1 && v == Num(ve))
        || (k == keys.2 && vs != -1 && v == Num(vs))
  {
    var r :- Field(cs, tr.event, IdOf(tr, fr), Wire(fr));
    var e :- Field(cs, tr.event, IdOf(tr, fe), Wire(fe));
    var s :- Field(cs, tr.event, IdOf(tr, fs), Wire(fs));
    var a := SetId(tr, keys.0, r) + SetId(tr, keys.1, e) + SetId(tr, keys.2, s);
    Tail(cs, a);
    Ok(cs + a)
  }

  function Setlogin(tr: AuditEvent, cs: seq<Call>): (r: Result<seq<Call>, Stop>)
    ensures Appends(cs, r)
    ensures r.Ok? <==> tr.login.Some?
    ensures tr.login.None? ==> r == Err((cs, MissingField(tr.event, "login")))
    ensures r.Ok? ==> r.value[|cs|..] == [Meta(tr.subj, "login_name", tr.login.value)]
  {
    var login :- Field(cs, tr.event, tr.login, "login");
    Tail(cs, [Meta(tr.subj, "login_name", login)]);
    Ok(cs + [Meta(tr.subj, "login_name", login)])
  }

  // ------------------------------------------------------------------ dispatch

  datatype Handler =
    | HAccept | HBind | HChdir | HChmod | HChown | HClose | HConnect | HExec | HExit | HFork
    | HFchmod | HFchown | HLink | HListen | HMmap | HOpen | HPipe | HOpenpt | HRead | HRecv
    | HRename | HSend | HSetegid | HSeteuid | HSetlogin | HSetgid | HSetregid | HSetresgid
    | HSetresuid | HSetreuid | HSetuid | HSocket | HSocketpair | HUnlink | HWrite | HIgnore

  /** The event names the parser recognises; recvmsg/recvfrom and sendmsg/sendto share a body. */
  function HandlerOf(e: string): Option<Handler>
  {
    if e == "audit:event:aue_accept:" then Some(HAccept)
    else if e == "audit:event:aue_bind:" then Some(HBind)
    else if e == "audit:event:aue_chdir:" || e == "audit:event:aue_fchdir:" then Some(HChdir)
    else if e == "audit:event:aue_chmod:" || e == "audit:event:aue_fchmodat:" then Some(HChmod)
    else if e == "audit:event:aue_chown:" then Some(HChown)
    else if e == "audit:event:aue_close:" then Some(HClose)
    else if e == "audit:event:aue_connect:" then Some(HConnect)
    else if e == "audit:event:aue_execve:" then Some(HExec)
    else if e == "audit:event:aue_exit:" then Some(HExit)
    else if e == "audit:event:aue_fork:" || e == "audit:event:aue_pdfork:" || e == "audit:event:aue_vfork:" then Some(HFork)
    else if e == "audit:event:aue_fchmod:" then Some(HFchmod)
    else if e == "audit:event:aue_fchown:" then Some(HFchown)
    else if e == "audit:event:aue_link:" then Some(HLink)
    else if e == "audit:event:aue_listen:" then Some(HListen)
    else if e == "audit:event:aue_mmap:" then Some(HMmap)
    else if e == "audit:event:aue_open_rwtc:" || e == "audit:event:aue_openat_rwtc:" then Some(HOpen)
    else if e == "audit:event:aue_pipe:" then Some(HPipe)
    else if e == "audit:event:aue_posix_openpt:" then Some(HOpenpt)
    else if e == "audit:event:aue_read:" || e == "audit:event:aue_pread:" then Some(HRead)
    else if e == "audit:event:aue_recvmsg:" || e == "audit:event:aue_recvfrom:" then Some(HRecv)
    else if e == "audit:event:aue_rename:" then Some(HRename)
    else if e == "audit:event:aue_sendmsg:" || e == "audit:event:aue_sendto:" then Some(HSend)
    else if e == "audit:event:aue_setegid:" then Some(HSetegid)
    else if e == "audit:event:aue_seteuid:" then Some(HSeteuid)
    else if e == "audit:event:aue_setlogin:" then Some(HSetlogin)
    else if e == "audit:event:aue_setgid:" then Some(HSetgid)
    else if e == "audit:event:aue_setregid:" then Some(HSetregid)
    else if e == "audit:event:aue_setresgid:" then Some(HSetresgid)
    else if e == "audit:event:aue_setresuid:" then Some(HSetresuid)
    else if e == "audit:event:aue_setreuid:" then Some(HSetreuid)
    else if e == "audit:event:aue_setuid:" then Some(HSetuid)
    else if e == "audit:event:aue_socket:" then Some(HSocket)
    else if e == "audit:event:aue_socketpair:" then Some(HSocketpair)
    else if e == "audit:event:aue_unlink:" then Some(HUnlink)
    else if e == "audit:event:aue_write:" || e == "audit:event:aue_pwrite:" || e == "audit:event:aue_writev:" then Some(HWrite)
    else if e == "audit:event:aue_dup2:" then Some(HIgnore)
    else None
  }

  function Handle(h: Handler, tr: AuditEvent, cs: seq<Call>): (r: Result<seq<Call>, Stop>)
    ensures Appends(cs, r)
  {
    match h
    case HAccept => Accept(tr, cs)
    case HBind => Bind(tr, cs)
    case HChdir => Chdir(tr, cs)
    case HChmod => Chmod(tr, cs)
    case HChown => Chown(tr, cs)
    case HClose => Close(tr, cs)
    case HConnect => Bind(tr, cs)
    case HExec => Exec(tr, cs)
    case HExit =>
      Tail(cs, [Release(tr.subj)]);
      Ok(cs + [Release(tr.subj)])
    case HFork => Fork(tr, cs)
    case HFchmod => Fchmod(tr, cs)
    case HFchown => Fchown(tr, cs)
    case HLink => Link(tr, cs)
    case HListen => DeclareOne(tr, cs, FArgUuid1, SOCKET)
    case HMmap => Mmap(tr, cs)
    case HOpen => Open(tr, cs)
    case HPipe => Pair(tr, cs, PIPE)
    case HOpenpt => DeclareOne(tr, cs, FRetUuid1, PTTY)
    case HRead => Transfer(tr, cs, Source)
    case HRecv => Message(tr, cs, Source)
    case HRename => Rename(tr, cs)
    case HSend => Message(tr, cs, SinkStart)
    case HSetegid => SetAll(tr, cs, FEgid, ["egid"])
    case HSeteuid => SetAll(tr, cs, FEuid, ["euid"])
    case HSetlogin => Setlogin(tr, cs)
    case HSetgid => SetAll(tr, cs, FGid, ["egid", "rgid", "sgid"])
    case HSetregid => SetRe(tr, cs, FRgid, FEgid, ("rgid", "egid"))
    case HSetresgid => SetRes(tr, cs, FRgid, FEgid, FSgid, ("rgid", "egid", "sgid"))
    case HSetresuid => SetRes(tr, cs, FRuid, FEuid, FSuid, ("ruid", "euid", "suid"))
    case HSetreuid => SetRe(tr, cs, FRuid, FEuid, ("ruid", "euid"))
    case HSetuid => SetAll(tr, cs, FUid, ["euid", "ruid", "suid"])
    case HSocket => DeclareOne(tr, cs, FRetUuid1, SOCKET)
    case HSocketpair => Pair(tr, cs, SOCKET)
    case HUnlink => Unlink(tr, cs)
    case HWrite => Transfer(tr, cs, SinkStart)
    case HIgnore => Ok(cs)
  }

  /** The subject's initial metadata: the executable (heritable) and the pid (not), at the event time. */
  function SubjectMeta(tr: AuditEvent): (m: MS.Store<Time>)
    ensures MS.Cur(m, "cmdline") == Some(tr.exec)
    ensures MS.Cur(m, "pid") == Some(Num(tr.pid))
  {
    MS.Update(MS.Update(MS.New(), "cmdline", tr.exec, tr.time, true), "pid", Num(tr.pid), tr.time, false)
  }

  /** The calls every audit record starts with: the context, then the subject. */
  function Prologue(tr: AuditEvent): seq<Call>
  {
    [Context(tr.event, tr.time), Declare(PROCESS, tr.subj, Some(SubjectMeta(tr)))]
  }

  /** An audit record: the prologue, then the handler its event name selects. */
  function ParseAudit(tr: AuditEvent): (o: Outcome)
    ensures Prologue(tr) <= o.calls
    ensures HandlerOf(tr.event).None? ==> o == Outcome(Prologue(tr) + [Unparsed(tr.event)], None)
    ensures HandlerOf(tr.event) == Some(HIgnore) ==> o == Outcome(Prologue(tr), None)
    ensures HandlerOf(tr.event).Some? ==> forall i :: 2 <= i < |o.calls| ==> !o.calls[i].Unparsed?
  {
    var cs := Prologue(tr);
    var h := HandlerOf(tr.event);
    if h.None? then Outcome(cs + [Unparsed(tr.event)], None)
    else if h.value == HIgnore then Outcome(cs, None)
    else
      var r := Handle(h.value, tr, cs);
      assert Finish(r).calls == Made(r);
      Finish(r)
  }

  /**
   * One trace record. FBT records are ignored; an audit record declares its
   * subject, then runs its handler. dup2 does nothing more; an unknown event
   * name is noted as unparsed and is not an error.
   */
  function Parse(te: TraceEvent): (o: Outcome)
    ensures te.Fbt? ==> o == Outcome([], None)
    ensures te.Audit? ==> Prologue(te.a) <= o.calls
    ensures te.Audit? && HandlerOf(te.a.event).None? ==> o.err.None? && Unparsed(te.a.event) in o.calls
  {
    match te
    case Fbt(_) => Outcome([], None)
    case Audit(tr) => ParseAudit(tr)
  }

  /** An audit record is noted as unparsed exactly when no handler knows its event name. */
  lemma UnparsedIffUnknown(tr: AuditEvent)
    ensures Unparsed(tr.event) in ParseAudit(tr).calls <==> HandlerOf(tr.event).None?
  {
    var out := ParseAudit(tr).calls;
    if HandlerOf(tr.event).Some? {
      forall i | 0 <= i < |out|
        ensures !out[i].Unparsed?
      {
        if i < 2 {
          assert out[i] == Prologue(tr)[i];
        }
      }
    } else {
      assert out[2] == Unparsed(tr.event);
    }
  }

  /**
   * Every audit record first sets the context, then declares its subject:
   * the command line is the executable and is inherited by children; the pid
   * reads back as the record's pid and is not inherited.
   */
  lemma SubjectSeeded(tr: AuditEvent)
    ensures var m := SubjectMeta(tr);
      ParseAudit(tr).calls[..2] == [Context(tr.event, tr.time), Declare(PROCESS, tr.subj, Some(m))]
      && MS.Cur(m, "cmdline") == Some(tr.exec) && m.entries["cmdline"].heritable
      && NumText.ParseDecimal(MS.Cur(m, "pid").value) == Some(tr.pid as int) && !m.entries["pid"].heritable
  {
    NumText.DecimalRoundTrip(tr.pid as int);
    var m0 := MS.Update(MS.New<Time>(), "cmdline", tr.exec, tr.time, true);
    assert "cmdline" in m0.entries && m0.entries["cmdline"].heritable;
    assert "pid" !in m0.entries;
  }
}
