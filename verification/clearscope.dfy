/**
 * The ClearScope (Android provenance) trace parser. A record is one of
 * nine messages; four of them carry graph content (programs, provenance
 * objects, links between the two, and events), the others are accepted
 * and ignored. Programs and provenance objects are keyed by their 32-bit
 * ids widened into uuids, so ids of the two kinds share one uuid space.
 * No message stops with an error.
 */
module Clearscope {
  import opened Ints
  import opened Wrappers
  import PDN = PvmDataNode
  import NumText
  import U = Uuid
  import opened PvmCalls

  const PROGRAM: PDN.ConcreteType := PDN.ConcreteType(PDN.Actor, "program",
    map["host_uuid" := true, "pname" := true, "pid" := false, "ppid" := false, "uid" := true,
        "start_time" := false])
  const OBJ: PDN.ConcreteType := PDN.ConcreteType(PDN.Object, "object", map["obj_type" := true])
  const FILE: PDN.ConcreteType := PDN.ConcreteType(PDN.Store, "file",
    map["permissions" := true, "file_type" := true, "size_in_bytes" := true])
  const NETFLOW: PDN.ConcreteType := PDN.ConcreteType(PDN.Conduit, "netflow", map["protocol" := true])
  const BINDER: PDN.ConcreteType := PDN.ConcreteType(PDN.Conduit, "binder", map["kind" := true])
  const PIPE: PDN.ConcreteType := PDN.ConcreteType(PDN.Conduit, "pipe", map["unique_id" := true])

  /** The concrete types registered with the builder before parsing, in order. */
  function Init(): (r: seq<PDN.ConcreteType>)
    ensures forall i, j :: 0 <= i < j < |r| ==> r[i].name != r[j].name
    ensures forall t :: t in r <==> t in {PROGRAM, FILE, NETFLOW, OBJ, BINDER, PIPE}
  {
    [PROGRAM, FILE, NETFLOW, OBJ, BINDER, PIPE]
  }

  /** A 32-bit id as a uuid: the id is the uuid's value. */
  function MkUuid(v: u32): (r: Uuid)
    ensures r as int == v as int
    ensures r < TWO_32
  {
    v as Uuid
  }

  lemma MkUuidInjective(a: u32, b: u32)
    ensures MkUuid(a) == MkUuid(b) <==> a == b
  {
  }

  // ------------------------------------------------------------------- events

  datatype EventFlow = FlowEvent | FlowSrc | FlowSink

  /** The fields of an event the parser reads; the two predicates are provenance-object ids. */
  datatype Event = Event(flow: EventFlow, progId: u32, predicate1: Option<u32>, predicate2: Option<u32>)

  /** The first predicate is declared when present and not the program's own id. */
  predicate DeclaresFirst(e: Event)
  {
    e.predicate1.Some? && e.predicate1.value != e.progId
  }

  /** The second is declared when present, not the program's id, and not equal to the first. */
  predicate DeclaresSecond(e: Event)
  {
    e.predicate2.Some? && e.predicate2.value != e.progId && e.predicate1 != e.predicate2
  }

  /** Whether `u` is an object the event declares. */
  predicate Involves(e: Event, u: Uuid)
  {
    (DeclaresFirst(e) && u == MkUuid(e.predicate1.value))
    || (DeclaresSecond(e) && u == MkUuid(e.predicate2.value))
  }

  /** The uuids of the objects an event declares, in order. */
  function Objects(e: Event): (r: seq<Uuid>)
    ensures forall u :: u in r <==> Involves(e, u)
    ensures |r| <= 2 && (|r| == 2 ==> r[0] != r[1])
  {
    var d1 := if DeclaresFirst(e) then [MkUuid(e.predicate1.value)] else [];
    var d2 := if DeclaresSecond(e) then [MkUuid(e.predicate2.value)] else [];
    d1 + d2
  }

  function DeclareAll(ty: PDN.ConcreteType, us: seq<Uuid>): (r: seq<Call>)
    ensures |r| == |us| && forall i :: 0 <= i < |us| ==> r[i] == Declare(ty, us[i], None)
  {
    seq(|us|, i requires 0 <= i < |us| => Declare(ty, us[i], None))
  }

  function FlowAll(k: FlowKind, act: Uuid, us: seq<Uuid>): (r: seq<Call>)
    ensures |r| == |us| && forall i :: 0 <= i < |us| ==> r[i] == Flow(k, act, us[i], None)
  {
    seq(|us|, i requires 0 <= i < |us| => Flow(k, act, us[i], None))
  }

  /**
   * An event declares its program and the objects it involves, then records
   * a flow from each object into the program (source) or the reverse
   * (sink); a plain event records no flow.
   */
  function ParseEvent(e: Event): (r: seq<Call>)
    ensures |r| >= 1 && r[0] == Declare(PROGRAM, MkUuid(e.progId), None)
    ensures forall c :: c in r ==> c.Declare? || c.Flow?
  {
    var prog := MkUuid(e.progId);
    var objs := Objects(e);
    var flows := match e.flow
      case FlowEvent => []
      case FlowSrc => FlowAll(Source, prog, objs)
      case FlowSink => FlowAll(Sink, prog, objs);
    [Declare(PROGRAM, prog, None)] + DeclareAll(OBJ, objs) + flows
  }

  /** An event declares its program and exactly the objects it involves, with no metadata. */
  lemma EventDeclares(e: Event)
    ensures forall u :: Declare(OBJ, u, None) in ParseEvent(e) <==> Involves(e, u)
    ensures forall c :: c in ParseEvent(e) && c.Declare? ==> c.meta.None? && (c.ty == PROGRAM || c.ty == OBJ)
  {
  }

  /**
   * An event records one flow per object it involves, between that object
   * and the program, in the event's direction; a plain event records none.
   */
  lemma EventFlows(e: Event)
    ensures e.flow.FlowEvent? ==> forall c :: c in ParseEvent(e) ==> !c.Flow?
    ensures e.flow.FlowSrc? ==> forall u :: Flow(Source, MkUuid(e.progId), u, None) in ParseEvent(e) <==> Involves(e, u)
    ensures e.flow.FlowSink? ==> forall u :: Flow(Sink, MkUuid(e.progId), u, None) in ParseEvent(e) <==> Involves(e, u)
    ensures forall c :: c in ParseEvent(e) && c.Flow? ==>
      c.act == MkUuid(e.progId) && c.nbytes.None? && (c.kind == Source <==> e.flow.FlowSrc?) && Involves(e, c.ent)
  {
  }

  /** An event never records a flow between a program and itself. */
  lemma EventNoSelfFlow(e: Event)
    ensures forall c :: c in ParseEvent(e) && c.Flow? ==> c.act != c.ent
  {
  }

  /** An event makes no call twice, even when both predicates name one object. */
  lemma EventCallsDistinct(e: Event)
    ensures var r := ParseEvent(e); forall i, j :: 0 <= i < j < |r| ==> r[i] != r[j]
  {
  }

  // ----------------------------------------------------------------- programs

  datatype DefineProgram = DefineProgram(id: u32, hostId: u32, pname: string, pid: i32, ppid: i32, uid: i32, startTime: i64)

  /** The keys a program definition sets, in order. */
  const ProgramKeys: seq<string> := ["host_uuid", "pname", "pid", "ppid", "uid", "start_time"]

  /**
   * A program definition declares the program and sets each of its type's
   * properties: the host as a hyphenated uuid, the name, and the numbers in
   * decimal.
   */
  function ParseProgram(m: DefineProgram): (r: seq<Call>)
    ensures |r| == 7 && r[0] == Declare(PROGRAM, MkUuid(m.id), None)
    ensures forall i :: 1 <= i < 7 ==> r[i].Meta? && r[i].node == MkUuid(m.id) && r[i].key == ProgramKeys[i - 1]
  {
    var p := MkUuid(m.id);
    [Declare(PROGRAM, p, None),
     Meta(p, "host_uuid", U.SingleString(MkUuid(m.hostId))),
     Meta(p, "pname", m.pname),
     Meta(p, "pid", NumText.Decimal(m.pid)),
     Meta(p, "ppid", NumText.Decimal(m.ppid)),
     Meta(p, "uid", NumText.Decimal(m.uid)),
     Meta(p, "start_time", NumText.Decimal(m.startTime))]
  }

  /** The keys a program definition sets are exactly its type's properties. */
  lemma ProgramKeysAreProps()
    ensures forall k :: k in PROGRAM.props <==> k in ProgramKeys
  {
    assert PROGRAM.props.Keys == set k | k in ProgramKeys;
  }

  /** Each metadata value of a program reads back as the field it renders. */
  lemma ProgramMetaRoundTrip(m: DefineProgram)
    ensures U.FromStr(ParseProgram(m)[1].val) == Ok(U.Single(MkUuid(m.hostId)))
    ensures ParseProgram(m)[2].val == m.pname
    ensures NumText.ParseDecimal(ParseProgram(m)[3].val) == Some(m.pid as int)
    ensures NumText.ParseDecimal(ParseProgram(m)[4].val) == Some(m.ppid as int)
    ensures NumText.ParseDecimal(ParseProgram(m)[5].val) == Some(m.uid as int)
    ensures NumText.ParseDecimal(ParseProgram(m)[6].val) == Some(m.startTime as int)
  {
    U.RoundTrip(U.Single(MkUuid(m.hostId)));
    NumText.DecimalRoundTrip(m.pid);
    NumText.DecimalRoundTrip(m.ppid);
    NumText.DecimalRoundTrip(m.uid);
    NumText.DecimalRoundTrip(m.startTime);
  }

  // ------------------------------------------------------- provenance links

  datatype ProvFlow = ProvSrc | ProvSink

  datatype DefineProv = DefineProv(flow: ProvFlow, id: u32, progId: u32, provType: i32)

  /** The uuid of a link's provenance object: its signed type id reinterpreted as unsigned. */
  function ProvUuid(m: DefineProv): (r: Uuid)
    ensures m.provType >= 0 ==> r as int == m.provType as int
    ensures m.provType < 0 ==> r as int == m.provType as int + TWO_32
  {
    MkUuid(ToU32(m.provType))
  }

  /**
   * A link declares the program and the provenance object (as a file,
   * keyed by the type id, not the link's own id), then records one flow
   * between them in the link's direction.
   */
  function ParseProv(m: DefineProv): (r: seq<Call>)
    ensures |r| == 3
    ensures r[0] == Declare(PROGRAM, MkUuid(m.progId), None) && r[1] == Declare(FILE, ProvUuid(m), None)
    ensures r[2].Flow? && r[2].act == MkUuid(m.progId) && r[2].ent == ProvUuid(m) && r[2].nbytes.None?
    ensures r[2].kind == Source <==> m.flow.ProvSrc?
    ensures r[2].kind == Sink <==> m.flow.ProvSink?
  {
    var prog := MkUuid(m.progId);
    var prov := ProvUuid(m);
    [Declare(PROGRAM, prog, None), Declare(FILE, prov, None),
     Flow(if m.flow.ProvSrc? then Source else Sink, prog, prov, None)]
  }

  /** The link's own id never reaches the graph. */
  lemma ProvIgnoresId(m: DefineProv, id: u32)
    ensures ParseProv(m.(id := id)) == ParseProv(m)
  {
  }

  // -------------------------------------------------------- provenance types

  /**
   * A provenance object. A binder's kind is carried as the text its debug
   * form prints (the variant's name).
   */
  datatype ProvTypeObject =
    | General
    | FileObj(path: string, permissions: i32, fileType: string, sizeInBytes: Option<i64>)
    | Network(localAddress: string, localPort: i32, protocol: i32)
    | PacketSocket
    | PipeObj(uniqueId: string)
    | Binder(kindName: string)

  datatype DefineProvType = DefineProvType(id: u32, progId: u32, obj: ProvTypeObject)

  /** The port a network object is named by: the low 16 bits of the recorded port. */
  function LocalPort(p: i32): (r: u16)
    ensures 0 <= p < TWO_16 ==> r == p
    ensures (r - p) % TWO_16 == 0
  {
    ToU16(p)
  }

  /**
   * A provenance type declares its object with the concrete type of its
   * kind: a file is named by its path and gets its permissions, file type
   * and, when known, size; a network object is named by its local address
   * and port and gets its protocol; a pipe gets its unique id; a binder its
   * kind. General objects and packet sockets make no call.
   */
  function ParseProvType(m: DefineProvType): (r: seq<Call>)
    ensures (m.obj.General? || m.obj.PacketSocket?) <==> r == []
    ensures r != [] ==> r[0].Declare? && r[0].uuid == MkUuid(m.id) && r[0].meta.None?
    ensures m.obj.FileObj? ==>
      |r| == (if m.obj.sizeInBytes.Some? then 5 else 4) && r[0].ty == FILE
      && r[1] == Name(MkUuid(m.id), PDN.Path(m.obj.path))
      && r[2] == Meta(MkUuid(m.id), "permissions", NumText.Decimal(m.obj.permissions))
      && r[3] == Meta(MkUuid(m.id), "file_type", m.obj.fileType)
      && (m.obj.sizeInBytes.Some? ==> r[4] == Meta(MkUuid(m.id), "size_in_bytes", NumText.Decimal(m.obj.sizeInBytes.value)))
    ensures m.obj.Network? ==>
      |r| == 3 && r[0].ty == NETFLOW
      && r[1] == Name(MkUuid(m.id), PDN.Net(m.obj.localAddress, LocalPort(m.obj.localPort)))
      && r[2] == Meta(MkUuid(m.id), "protocol", NumText.Decimal(m.obj.protocol))
    ensures m.obj.PipeObj? ==> |r| == 2 && r[0].ty == PIPE && r[1] == Meta(MkUuid(m.id), "unique_id", m.obj.uniqueId)
    ensures m.obj.Binder? ==> |r| == 2 && r[0].ty == BINDER && r[1] == Meta(MkUuid(m.id), "kind", m.obj.kindName)
  {
    var u := MkUuid(m.id);
    match m.obj
    case FileObj(path, perms, ft, size) =>
      [Declare(FILE, u, None), Name(u, PDN.Path(path)), Meta(u, "permissions", NumText.Decimal(perms)),
       Meta(u, "file_type", ft)]
      + (if size.Some? then [Meta(u, "size_in_bytes", NumText.Decimal(size.value))] else [])
    case Network(addr, port, proto) =>
      [Declare(NETFLOW, u, None), Name(u, PDN.Net(addr, LocalPort(port))), Meta(u, "protocol", NumText.Decimal(proto))]
    case PipeObj(id) => [Declare(PIPE, u, None), Meta(u, "unique_id", id)]
    case Binder(kind) => [Declare(BINDER, u, None), Meta(u, "kind", kind)]
    case _ => []
  }

  /** Ports outside 0..65535 wrap: the name keeps only the low 16 bits. */
  lemma PortWraps()
    ensures LocalPort(65536 + 80) == 80
    ensures LocalPort(-1) == 65535
  {
  }

  // ----------------------------------------------------------------- messages

  datatype ProvMessage =
    | DefineAppPpt
    | MsgProgram(program: DefineProgram)
    | MsgProv(prov: DefineProv)
    | DefineProvSet
    | MsgProvType(provType: DefineProvType)
    | DefineSysCall
    | MsgEvent(event: Event)
    | HostInfo
    | User

  /** Whether a message carries no graph content. */
  predicate Ignored(m: ProvMessage)
  {
    m.DefineAppPpt? || m.DefineProvSet? || m.DefineSysCall? || m.HostInfo? || m.User?
  }

  /** Parsing a message: its calls, and never an error. */
  function Parse(m: ProvMessage): (r: Outcome)
    ensures r.err.None?
    ensures Ignored(m) ==> r.calls == []
    ensures !Ignored(m) && !(m.MsgProvType? && (m.provType.obj.General? || m.provType.obj.PacketSocket?)) ==>
      |r.calls| > 0 && r.calls[0].Declare?
  {
    match m
    case MsgProgram(p) => Outcome(ParseProgram(p), None)
    case MsgProv(p) => Outcome(ParseProv(p), None)
    case MsgProvType(p) => Outcome(ParseProvType(p), None)
    case MsgEvent(e) => Outcome(ParseEvent(e), None)
    case _ => Outcome([], None)
  }

  /**
   * Every node a message declares has a registered concrete type, and every
   * metadata key it sets is a property of the type it declared first, for
   * the node it declared first.
   */
  ghost predicate WellTyped(cs: seq<Call>)
  {
    (forall c :: c in cs && c.Declare? ==> c.ty in Init())
    && (forall i :: 0 <= i < |cs| && cs[i].Meta? ==>
          cs[0].Declare? && cs[i].node == cs[0].uuid && cs[i].key in cs[0].ty.props)
  }

  lemma ProgramWellTyped(p: DefineProgram)
    ensures WellTyped(ParseProgram(p))
  {
    var r := ParseProgram(p);
    ProgramKeysAreProps();
    forall i | 0 <= i < |r| && r[i].Meta?
      ensures r[i].key in PROGRAM.props
    {
      assert r[i].key == ProgramKeys[i - 1];
    }
  }

  lemma ProvTypeWellTyped(p: DefineProvType)
    ensures WellTyped(ParseProvType(p))
  {
    var r := ParseProvType(p);
    assert forall c :: c in r && c.Declare? ==> c == r[0];
  }

  lemma EventWellTyped(e: Event)
    ensures WellTyped(ParseEvent(e))
  {
    EventDeclares(e);
  }

  lemma ParseWellTyped(m: ProvMessage)
    ensures WellTyped(Parse(m).calls)
  {
    match m
    case MsgProgram(p) => ProgramWellTyped(p);
    case MsgProvType(p) => ProvTypeWellTyped(p);
    case MsgEvent(e) => EventWellTyped(e);
    case _ =>
  }
}
