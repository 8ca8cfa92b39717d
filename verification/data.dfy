/**
 * The current crate's decoders and encoders between database values and
 * its graph records: a generic node (id, labels, properties), the process
 * node, and the two process edges (`child`, `next`). The crate carries
 * several copies of these (the data module, its `edge` and `gen_node`
 * files); they agree on everything modelled here, so each is defined once.
 */
module Data {
  import opened Ints
  import opened Wrappers
  import opened DbValue
  import VA = ValueAs
  import Uuid

  /** The panic message of a failed `assert_eq!`. */
  const AssertEqFailed := "assertion failed: `(left == right)`"

  // ---------------------------------------------------------------- nodes

  datatype GenNode = GenNode(id: u64, labs: seq<string>, props: map<string, Value>)

  /** The labels as strings; a non-string label panics (its `unwrap`). */
  function LabelStrings(vs: seq<Value>): (r: Result<seq<string>, Failure>)
    ensures r.Ok? <==> forall i :: 0 <= i < |vs| ==> vs[i].String?
    ensures r.Ok? ==> |r.value| == |vs| && forall i :: 0 <= i < |vs| ==> vs[i] == String(r.value[i])
    ensures r.Err? ==> r.error == Panic(UnwrapNone)
    decreases |vs|
  {
    if vs == [] then Ok([])
    else match VA.AsString(vs[0])
      case None => Err(Panic(UnwrapNone))
      case Some(s) =>
        match LabelStrings(vs[1..])
          case Err(e) => Err(e)
          case Ok(rest) => Ok([s] + rest)
  }

  /** The labels written as a list value. */
  function LabelValues(labs: seq<string>): (r: seq<Value>)
    ensures |r| == |labs| && forall i :: 0 <= i < |labs| ==> r[i] == String(labs[i])
  {
    seq(|labs|, i requires 0 <= i < |labs| => String(labs[i]))
  }

  /**
   * A node structure: signature 0x4E, three fields (a non-negative integer
   * id, a list of string labels, a property map), checked in that order.
   */
  function GenNodeFromDb(v: Value): (r: Result<GenNode, Failure>)
    ensures !v.Structure? ==> r == Err(Error("Is not a node value."))
    ensures v.Structure? && v.signature != NodeSignature ==> r == Err(Error("Structure has incorrect signature"))
    ensures v.Structure? && v.signature == NodeSignature && |v.fields| != 3 ==>
      r == Err(Error("Node structure has incorrect number of fields"))
    ensures r.Ok? <==>
      v.Structure? && v.signature == NodeSignature && |v.fields| == 3
      && v.fields[0].Integer? && v.fields[0].i >= 0
      && v.fields[1].List? && (forall i :: 0 <= i < |v.fields[1].items| ==> v.fields[1].items[i].String?)
      && v.fields[2].Map?
    ensures r.Ok? ==>
      r.value.id == v.fields[0].i && LabelValues(r.value.labs) == v.fields[1].items
      && r.value.props == v.fields[2].m
  {
    if !v.Structure? then Err(Error("Is not a node value."))
    else if v.signature != NodeSignature then Err(Error("Structure has incorrect signature"))
    else if |v.fields| != 3 then Err(Error("Node structure has incorrect number of fields"))
    else match VA.AsU64(v.fields[0])
      case None => Err(Error("id field is not an integer"))
      case Some(id) =>
        match VA.AsVec(v.fields[1])
          case None => Err(Error("labels field is not a list"))
          case Some(l) =>
            match LabelStrings(l)
              case Err(e) => Err(e)
              case Ok(labs) =>
                match VA.AsMap(v.fields[2])
                  case None => Err(Error("properties field is not a map"))
                  case Some(props) => Ok(GenNode(id, labs, props))
  }

  function Decompose(g: GenNode): (r: (u64, seq<string>, map<string, Value>))
  {
    (g.id, g.labs, g.props)
  }

  /** Any node written in the database's layout decodes to itself, and decomposes to its parts. */
  lemma GenNodeRoundTrip(g: GenNode)
    requires g.id < TWO_63
    ensures
      var r := GenNodeFromDb(Structure(NodeSignature, [Integer(g.id), List(LabelValues(g.labs)), Map(g.props)]));
      r == Ok(g) && Decompose(r.value) == (g.id, g.labs, g.props)
  {
    var r := GenNodeFromDb(Structure(NodeSignature, [Integer(g.id), List(LabelValues(g.labs)), Map(g.props)]));
    assert r.Ok?;
    assert r.value.labs == g.labs;
  }

  /** A label that is not a string panics. */
  lemma NonStringLabelPanics(id: i64, l: seq<Value>, props: map<string, Value>, i: nat)
    requires id >= 0 && i < |l| && !l[i].String?
    ensures GenNodeFromDb(Structure(NodeSignature, [Integer(id), List(l), Map(props)])) == Err(Panic(UnwrapNone))
  {
  }

  // ------------------------------------------------------- process nodes

  datatype ProcessNode = ProcessNode(dbId: i64, uuid: Uuid.Uuid5, pid: i32, cmdline: string, thin: bool)

  /**
   * The five typed properties, each failing with its own message, in the
   * order db_id, uuid, cmdline, pid, thin; a uuid string on which the
   * parser panics is that panic.
   */
  function ProcessFromProps(props: map<string, Value>): (r: Result<ProcessNode, Failure>)
    ensures r.Ok? <==>
      "db_id" in props && props["db_id"].Integer?
      && "uuid" in props && VA.AsUuid5(props["uuid"]).Ok? && VA.AsUuid5(props["uuid"]).value.Some?
      && "cmdline" in props && props["cmdline"].String?
      && "pid" in props && VA.AsI32(props["pid"]).Some?
      && "thin" in props && props["thin"].Boolean?
    ensures ("db_id" !in props || !props["db_id"].Integer?) ==>
      r == Err(Error("db_id property is missing or not an Integer"))
    ensures "db_id" in props && props["db_id"].Integer? && "uuid" in props && VA.AsUuid5(props["uuid"]).Err? ==>
      r == Err(VA.AsUuid5(props["uuid"]).error)
    ensures r.Err? && r.error.Panic? ==> "uuid" in props && VA.AsUuid5(props["uuid"]).Err?
    ensures r.Ok? ==>
      Integer(r.value.dbId) == props["db_id"] && String(r.value.cmdline) == props["cmdline"]
      && Integer(r.value.pid) == props["pid"] && Boolean(r.value.thin) == props["thin"]
      && VA.AsUuid5(props["uuid"]) == Ok(Some(r.value.uuid))
  {
    match (if "db_id" in props then VA.AsI64(props["db_id"]) else None)
    case None => Err(Error("db_id property is missing or not an Integer"))
    case Some(id) =>
      match (if "uuid" in props then VA.AsUuid5(props["uuid"]) else Ok(None))
      case Err(e) => Err(e)
      case Ok(None) => Err(Error("uuid property is missing or not a UUID5"))
      case Ok(Some(u)) =>
        match (if "cmdline" in props then VA.AsString(props["cmdline"]) else None)
        case None => Err(Error("cmdline property is missing or not a String"))
        case Some(c) =>
          match (if "pid" in props then VA.AsI32(props["pid"]) else None)
          case None => Err(Error("pid property is missing or not an Integer"))
          case Some(p) =>
            match (if "thin" in props then VA.AsBool(props["thin"]) else None)
            case None => Err(Error("thin property is missing or not a bool"))
            case Some(t) => Ok(ProcessNode(id, u, p, c, t))
  }

  /** The property map a process node is written as. */
  function ProcessToDb(n: ProcessNode): (r: Value)
    ensures r.Map? && r.m.Keys == {"db_id", "uuid", "cmdline", "pid", "thin"}
  {
    Map(map["db_id" := Integer(n.dbId), "uuid" := String(Uuid.ToString(n.uuid)),
            "cmdline" := String(n.cmdline), "pid" := Integer(n.pid), "thin" := Boolean(n.thin)])
  }

  /** `ProcessToDb` writes exactly what `ProcessFromProps` reads back. */
  lemma ProcessRoundTrip(n: ProcessNode)
    ensures ProcessFromProps(ProcessToDb(n).m) == Ok(n)
  {
    VA.Uuid5RoundTrip(n.uuid);
  }

  datatype MultiNode = Proc(p: ProcessNode)

  /** A node decodes as a process exactly when its labels include "Process". */
  function MultiNodeFromDb(v: Value): (r: Result<MultiNode, Failure>)
    ensures GenNodeFromDb(v).Err? ==> r == Err(GenNodeFromDb(v).error)
    ensures GenNodeFromDb(v).Ok? && "Process" !in GenNodeFromDb(v).value.labs ==>
      r == Err(Error("Node doesn't match any known type."))
    ensures r.Ok? ==> ProcessFromProps(GenNodeFromDb(v).value.props) == Ok(r.value.p)
  {
    match GenNodeFromDb(v)
    case Err(e) => Err(e)
    case Ok(g) =>
      if "Process" in g.labs then
        match ProcessFromProps(g.props)
        case Ok(p) => Ok(Proc(p))
        case Err(e) => Err(e)
      else Err(Error("Node doesn't match any known type."))
  }

  // --------------------------------------------------------------- edges

  datatype Edge = Child(dest: i64) | Next(dest: i64)

  function EdgeClass(e: Edge): string
  {
    if e.Child? then "child" else "next"
  }

  /** The edge's property map: its destination id and its class. */
  function EdgeToDb(e: Edge): (r: Value)
    ensures r.Map? && r.m.Keys == {"id", "class"} && r.m["id"] == Integer(e.dest)
    ensures r.m["class"] == String(if e.Child? then "child" else "next")
  {
    Map(map["id" := Integer(e.dest), "class" := String(EdgeClass(e))])
  }

  /**
   * A relationship structure: signature 0x52 and five fields are asserted
   * (a panic otherwise); the destination is field 2 and the class is read
   * from the property map in field 4.
   */
  function EdgeFromDb(v: Value): (r: Result<Edge, Failure>)
    ensures !v.Structure? ==> r == Err(Error("Value is not an edge"))
    ensures v.Structure? && (v.signature != RelSignature || |v.fields| != 5) ==> r == Err(Panic(AssertEqFailed))
    ensures r.Ok? <==>
      v.Structure? && v.signature == RelSignature && |v.fields| == 5
      && v.fields[2].Integer? && v.fields[4].Map? && "class" in v.fields[4].m
      && v.fields[4].m["class"] in {String("child"), String("next")}
    ensures r.Ok? ==>
      r.value.dest == v.fields[2].i && v.fields[4].m["class"] == String(EdgeClass(r.value))
  {
    if !v.Structure? then Err(Error("Value is not an edge"))
    else if v.signature != RelSignature || |v.fields| != 5 then Err(Panic(AssertEqFailed))
    else match VA.AsI64(v.fields[2])
      case None => Err(Error("DestID field is not an Integer"))
      case Some(dest) =>
        var cls := (match VA.AsMap(v.fields[4])
          case None => None
          case Some(m) => if "class" in m then VA.AsString(m["class"]) else None);
        match cls
          case None => Err(Error("Edge class property missing, not a string or properties field not a map"))
          case Some(c) =>
            if c == "child" then Ok(Child(dest))
            else if c == "next" then Ok(Next(dest))
            else Err(Error("Invalid edge class"))
  }

  /** A relationship whose property map is an edge's encoding decodes to that edge. */
  lemma EdgeRoundTrip(e: Edge, a: Value, b: Value, c: Value)
    ensures EdgeFromDb(Structure(RelSignature, [a, b, Integer(e.dest), c, EdgeToDb(e)])) == Ok(e)
  {
  }

  /** A class other than "child" or "next" is an error, not a panic. */
  lemma UnknownClassRejected(fields: seq<Value>, cls: string)
    requires |fields| == 5 && fields[2].Integer? && fields[4] == Map(map["class" := String(cls)])
    requires cls != "child" && cls != "next"
    ensures EdgeFromDb(Structure(RelSignature, fields)) == Err(Error("Invalid edge class"))
  {
  }
}
