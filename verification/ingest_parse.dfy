/**
 * The ingest crate's own audit-record parser. Every audit record first
 * declares its subject process (thin, with the record's pid and executable
 * as its command line); a handler chosen by the event name then declares
 * the objects involved, names them, updates process and socket nodes, and
 * records flows. The parser reads node state back in three places: whether
 * the subject is thin, a parent's command line, and whether a socket's
 * class is still unknown. So the model keeps the builder's nodes, reduced
 * to what the parser reads. It records everything else the builder is asked
 * to do as actions. A declaration panics when the node is already checked
 * out during the same record, as the builder's checking store does.
 */
module IngestParse {
  import opened Ints
  import opened Wrappers
  import NT = NodeTypes
  import CS = CheckingStore
  import Uuid
  import PC = PvmCalls

  type Uuid5 = Uuid.Uuid5

  /** The fields of an audit record the parser reads; uuids are their 128-bit values. */
  datatype AuditEvent = AuditEvent(
    event: string, pid: i32, exec: string, retval: i32, subj: u128,
    cmdline: Option<string>, upath1: Option<string>, upath2: Option<string>, fdpath: Option<string>,
    argUuid1: Option<u128>, argUuid2: Option<u128>, retUuid1: Option<u128>, retUuid2: Option<u128>,
    retFd1: Option<i32>, retFd2: Option<i32>,
    memFlags: Option<seq<string>>, sharingFlags: Option<seq<string>>,
    address: Option<string>, port: Option<u16>)

  datatype TraceEvent = Audit(a: AuditEvent) | Fbt

  /** A trace uuid as the builder keys it. */
  function Key(v: u128): (r: Uuid5)
    ensures r.Single? && r.v == v
  {
    Uuid.Single(v)
  }

  /** The record's subject process. */
  function Subj(tr: AuditEvent): Uuid5
  {
    Key(tr.subj)
  }

  /** What the builder holds for a uuid: the node's kind and the fields the parser reads back. */
  datatype Obj = Process(p: NT.ProcessInit) | Socket(s: NT.SocketInit) | File | Pipe(fd: i32) | Ptty

  /** A process or socket declared without initial fields. */
  const NewProcess: Obj := Process(NT.ProcessInit(0, "", true))
  const NewSocket: Obj := Socket(NT.SocketInit(NT.Unknown, "", "", 0))

  /** The defaults above are the node constructors' own. */
  lemma NewNodeDefaults(id: i64, u: Uuid5)
    ensures var n := NT.ProcessNew(id, u, None); Process(NT.ProcessInit(n.pid, n.cmdline, n.thin)) == NewProcess
    ensures var n := NT.SocketNew(id, u, None); Socket(NT.SocketInit(n.sockClass, n.path, n.ip, n.port)) == NewSocket
  {
  }

  /**
   * What the builder is asked to do: add a node (a first declaration, or a
   * new version of a process), name it, write its properties, record a flow
   * (with the byte count a read or write adds), link a new process version
   * to the one it replaces, connect two conduits, or release a uuid.
   */
  datatype Act =
    | Add(uuid: Uuid5, obj: Obj)
    | Name(uuid: Uuid5, name: string)
    | Prop(uuid: Uuid5)
    | Flow(kind: PC.FlowKind, act: Uuid5, ent: Uuid5, tag: string, bytes: Option<u64>)
    | FromPrevious(uuid: Uuid5, tag: string)
    | Connect(a: Uuid5, b: Uuid5, tag: string)
    | Release(uuid: Uuid5)

  /** The builder between records: its nodes, and the event names no handler recognised. */
  datatype Builder = Builder(nodes: map<Uuid5, Obj>, unparsed: set<string>)

  /** A record in progress: the nodes, the uuids checked out so far, and the actions made. */
  datatype Ev = Ev(nodes: map<Uuid5, Obj>, held: set<Uuid5>, acts: seq<Act>)

  /** Where a handler stops: the state reached (its effects stand) and the error. */
  type Stop = (Ev, PC.PvmError)

  /** The panic of a process handler whose subject or child is not a process node. */
  const NotAProcess := "is not an Process"

  /** The fdpath the tracer writes when it could not resolve a descriptor. */
  const UnknownPath := "<unknown>"

  // ------------------------------------------------------------------ helpers

  /** A required field: its value, or `MissingField` with the state reached. */
  function Need<T>(ev: Ev, tr: AuditEvent, f: Option<T>, name: string): (r: Result<T, Stop>)
    ensures f.Some? <==> r.Ok?
    ensures f.Some? ==> r.value == f.value
    ensures f.None? ==> r.error == (ev, PC.MissingField(tr.event, name))
  {
    match f
    case Some(v) => Ok(v)
    case None => Err((ev, PC.MissingField(tr.event, name)))
  }

  /** A node changes only while the parser may still edit it: a process, or a socket of unknown class. */
  predicate Editable(o: Obj)
  {
    o.Process? || (o.Socket? && o.s.sockClass.Unknown?)
  }

  /** Every node kept from `a` to `b` is unchanged unless it was editable. */
  ghost predicate Keeps(a: map<Uuid5, Obj>, b: map<Uuid5, Obj>)
  {
    forall u :: u in a && u in b ==> b[u] == a[u] || Editable(a[u])
  }

  /** `b` continues `a`: more checked out, more actions, and only editable nodes changed. */
  ghost predicate Extends(a: Ev, b: Ev)
  {
    a.held <= b.held && |a.acts| <= |b.acts| && b.acts[..|a.acts|] == a.acts && Keeps(a.nodes, b.nodes)
    && a.nodes.Keys <= b.nodes.Keys
  }

  ghost predicate Steps(ev: Ev, r: Result<Ev, Stop>)
  {
    if r.Ok? then Extends(ev, r.value) else Extends(ev, r.error.0)
  }

  lemma ExtendsTrans(a: Ev, b: Ev, c: Ev)
    requires Extends(a, b) && Extends(b, c)
    ensures Extends(a, c)
  {
    assert c.acts[..|a.acts|] == c.acts[..|b.acts|][..|a.acts|];
  }

  /** The last `n` actions. */
  function Last(acts: seq<Act>, n: nat): seq<Act>
    requires n <= |acts|
  {
    acts[|acts| - n..]
  }

  function Emit(ev: Ev, a: seq<Act>): (r: Ev)
    ensures r.nodes == ev.nodes && r.held == ev.held && r.acts == ev.acts + a
    ensures Extends(ev, r) && |r.acts| == |ev.acts| + |a| && Last(r.acts, |a|) == a
  {
    assert (ev.acts + a)[..|ev.acts|] == ev.acts;
    ev.(acts := ev.acts + a)
  }

  /** Whether declaring `u` would check out a node this record has already checked out. */
  predicate Claimable(ev: Ev, u: Uuid5)
  {
    !(u in ev.held && u in ev.nodes)
  }

  /**
   * `declare`: a known uuid yields its current node (the initial fields are
   * ignored); an unknown one gets a new node built from them. Either way the
   * node is now checked out; a node already checked out panics.
   */
  function Declare(ev: Ev, u: Uuid5, init: Obj): (r: Result<(Ev, Obj), Stop>)
    ensures r.Ok? <==> Claimable(ev, u)
    ensures r.Err? ==> r.error == (ev, PC.Panic(CS.CheckoutLoaned))
    ensures r.Ok? ==> var e := r.value.0;
      Extends(ev, e) && e.held == ev.held + {u} && u in e.nodes && r.value.1 == e.nodes[u]
      && e.nodes - {u} == ev.nodes - {u}
    ensures r.Ok? && u in ev.nodes ==> r.value.0.nodes == ev.nodes && r.value.0.acts == ev.acts
    ensures r.Ok? && u !in ev.nodes ==> r.value.1 == init && r.value.0.acts == ev.acts + [Add(u, init)]
  {
    if u in ev.nodes then
      if u in ev.held then Err((ev, PC.Panic(CS.CheckoutLoaned)))
      else Ok((ev.(held := ev.held + {u}), ev.nodes[u]))
    else
      var e := Emit(ev, [Add(u, init)]);
      Ok((e.(nodes := ev.nodes[u := init], held := ev.held + {u}), init))
  }

  /** A known uuid's declaration does not depend on the initial fields offered. */
  lemma DeclareIgnoresInit(ev: Ev, u: Uuid5, a: Obj, b: Obj)
    requires u in ev.nodes
    ensures Declare(ev, u, a) == Declare(ev, u, b)
  {
  }

  /** Writes `o` as the node of `u`, which the record holds and may edit. */
  function Set(ev: Ev, u: Uuid5, o: Obj): (r: Ev)
    requires u in ev.nodes && Editable(ev.nodes[u])
    ensures r.nodes == ev.nodes[u := o] && r.held == ev.held && r.acts == ev.acts
    ensures Extends(ev, r)
  {
    assert ev.acts[..|ev.acts|] == ev.acts;
    ev.(nodes := ev.nodes[u := o])
  }

  // -------------------------------------------------------------- processes

  /** Every field exec needs is present. */
  predicate ExecFields(tr: AuditEvent)
  {
    tr.cmdline.Some? && tr.argUuid1.Some? && tr.upath1.Some? && tr.argUuid2.Some? && tr.upath2.Some?
  }

  /**
   * exec declares and names the binary and the linker. A thin subject is
   * completed in place (new command line, no longer thin); otherwise a new
   * version of the process is added, fed by the old one, the binary and
   * the linker.
   */
  function Exec(tr: AuditEvent, pro: Obj, ev: Ev): (r: Result<Ev, Stop>)
    requires Subj(tr) in ev.nodes && ev.nodes[Subj(tr)] == pro
    ensures Steps(ev, r)
    ensures tr.cmdline.None? ==> r == Err((ev, PC.MissingField(tr.event, "cmdline")))
    ensures tr.cmdline.Some? && tr.argUuid1.None? ==> r == Err((ev, PC.MissingField(tr.event, "arg_objuuid1")))
    ensures tr.cmdline.Some? && tr.argUuid1.Some? && tr.upath1.None? ==>
      r == Err((ev, PC.MissingField(tr.event, "upath1")))
    ensures tr.cmdline.Some? && tr.argUuid1.Some? && tr.upath1.Some? && tr.argUuid2.None? ==>
      r == Err((ev, PC.MissingField(tr.event, "arg_objuuid2")))
    ensures tr.cmdline.Some? && tr.argUuid1.Some? && tr.upath1.Some? && tr.argUuid2.Some? && tr.upath2.None? ==>
      r == Err((ev, PC.MissingField(tr.event, "upath2")))
    ensures r.Ok? <==>
      (ExecFields(tr) && Claimable(ev, Key(tr.argUuid1.value)) && Claimable(ev, Key(tr.argUuid2.value))
       && tr.argUuid1 != tr.argUuid2 && pro.Process?)
    ensures (ExecFields(tr) && r.Err? && Claimable(ev, Key(tr.argUuid1.value)) && Claimable(ev, Key(tr.argUuid2.value))
             && tr.argUuid1 != tr.argUuid2) ==>
      r.error.1 == PC.Panic(NotAProcess)
    ensures r.Ok? ==>
      Name(Key(tr.argUuid1.value), tr.upath1.value) in r.value.acts
      && Name(Key(tr.argUuid2.value), tr.upath2.value) in r.value.acts
    ensures r.Ok? && pro.p.thin ==>
      r.value.nodes[Subj(tr)] == Process(NT.ProcessInit(pro.p.pid, tr.cmdline.value, false))
      && |r.value.acts| >= 3
      && Last(r.value.acts, 3) == [Prop(Subj(tr)), Flow(PC.Source, Subj(tr), Key(tr.argUuid1.value), "binary", None),
                                   Flow(PC.Source, Subj(tr), Key(tr.argUuid2.value), "linker", None)]
    ensures r.Ok? && !pro.p.thin ==>
      r.value.nodes[Subj(tr)] == Process(NT.ProcessInit(tr.pid, tr.cmdline.value, false))
      && |r.value.acts| >= 4
      && Last(r.value.acts, 4) == [Add(Subj(tr), Process(NT.ProcessInit(tr.pid, tr.cmdline.value, false))),
                                   FromPrevious(Subj(tr), tr.event),
                                   Flow(PC.Source, Subj(tr), Key(tr.argUuid1.value), "binary", None),
                                   Flow(PC.Source, Subj(tr), Key(tr.argUuid2.value), "linker", None)]
  {
    var _ :- Need(ev, tr, tr.cmdline, "cmdline");
    var _ :- Need(ev, tr, tr.argUuid1, "arg_objuuid1");
    var _ :- Need(ev, tr, tr.upath1, "upath1");
    var _ :- Need(ev, tr, tr.argUuid2, "arg_objuuid2");
    var _ :- Need(ev, tr, tr.upath2, "upath2");
    var e :- ExecFiles(tr, ev);
    var r := ExecProcess(tr, pro, e);
    if r.Ok? then ExtendsTrans(ev, e, r.value); r
    else ExtendsTrans(ev, e, r.error.0); r
  }

  /** exec's first half: declare and name the binary, then the linker; no existing node changes. */
  function ExecFiles(tr: AuditEvent, ev: Ev): (r: Result<Ev, Stop>)
    requires ExecFields(tr)
    ensures Steps(ev, r)
    ensures r.Ok? <==>
      Claimable(ev, Key(tr.argUuid1.value)) && Claimable(ev, Key(tr.argUuid2.value)) && tr.argUuid1 != tr.argUuid2
    ensures r.Err? ==> r.error.1 == PC.Panic(CS.CheckoutLoaned)
    ensures r.Ok? ==>
      Name(Key(tr.argUuid1.value), tr.upath1.value) in r.value.acts
      && Name(Key(tr.argUuid2.value), tr.upath2.value) in r.value.acts
      && forall u :: u in ev.nodes ==> u in r.value.nodes && r.value.nodes[u] == ev.nodes[u]
  {
    var bin, ld := Key(tr.argUuid1.value), Key(tr.argUuid2.value);
    var d1 :- Declare(ev, bin, File);
    var e2 := Emit(d1.0, [Name(bin, tr.upath1.value)]);
    var d3 :- Declare(e2, ld, File);
    var e4 := Emit(d3.0, [Name(ld, tr.upath2.value)]);
    ExtendsTrans(ev, d1.0, e2);
    ExtendsTrans(ev, e2, d3.0);
    ExtendsTrans(ev, d3.0, e4);
    assert Name(bin, tr.upath1.value) in e4.acts by { assert e4.acts[|e2.acts| - 1] == Name(bin, tr.upath1.value); }
    Ok(e4)
  }

  /**
   * exec's second half: a thin subject is completed in place; any other
   * process gets a new version fed by the old one; then both flows from the
   * binary and the linker. A subject that is not a process panics.
   */
  function ExecProcess(tr: AuditEvent, pro: Obj, ev: Ev): (r: Result<Ev, Stop>)
    requires ExecFields(tr)
    requires Subj(tr) in ev.nodes && ev.nodes[Subj(tr)] == pro
    ensures Steps(ev, r)
    ensures r.Ok? <==> pro.Process?
    ensures r.Err? ==> r.error == (ev, PC.Panic(NotAProcess))
    ensures r.Ok? ==> r.value.held == ev.held
    ensures r.Ok? && pro.p.thin ==>
      r.value.nodes == ev.nodes[Subj(tr) := Process(NT.ProcessInit(pro.p.pid, tr.cmdline.value, false))]
      && r.value.acts == ev.acts + [Prop(Subj(tr)), Flow(PC.Source, Subj(tr), Key(tr.argUuid1.value), "binary", None),
                                    Flow(PC.Source, Subj(tr), Key(tr.argUuid2.value), "linker", None)]
    ensures r.Ok? && !pro.p.thin ==>
      r.value.nodes == ev.nodes[Subj(tr) := Process(NT.ProcessInit(tr.pid, tr.cmdline.value, false))]
      && r.value.acts == ev.acts + [Add(Subj(tr), Process(NT.ProcessInit(tr.pid, tr.cmdline.value, false))),
                                    FromPrevious(Subj(tr), tr.event),
                                    Flow(PC.Source, Subj(tr), Key(tr.argUuid1.value), "binary", None),
                                    Flow(PC.Source, Subj(tr), Key(tr.argUuid2.value), "linker", None)]
  {
    var s := Subj(tr);
    var flows := [Flow(PC.Source, s, Key(tr.argUuid1.value), "binary", None),
                  Flow(PC.Source, s, Key(tr.argUuid2.value), "linker", None)];
    if !pro.Process? then
      assert ev.acts[..|ev.acts|] == ev.acts;
      Err((ev, PC.Panic(NotAProcess)))
    else
      var next := if pro.p.thin then Process(NT.ProcessInit(pro.p.pid, tr.cmdline.value, false))
                  else Process(NT.ProcessInit(tr.pid, tr.cmdline.value, false));
      var e5 := Set(ev, s, next);
      var e6 := Emit(e5, (if pro.p.thin then [Prop(s)] else [Add(s, next), FromPrevious(s, tr.event)]) + flows);
      ExtendsTrans(ev, e5, e6);
      Ok(e6)
  }

  /**
   * fork declares the child (ret_objuuid1) and makes it a thin process with
   * the return value as its pid and the parent's command line, fed by the
   * parent.
   */
  function Fork(tr: AuditEvent, pro: Obj, ev: Ev): (r: Result<Ev, Stop>)
    ensures Steps(ev, r)
    ensures tr.retUuid1.None? ==> r == Err((ev, PC.MissingField(tr.event, "ret_objuuid1")))
    ensures r.Ok? <==>
      (tr.retUuid1.Some? && Claimable(ev, Key(tr.retUuid1.value)) && pro.Process?
       && (Key(tr.retUuid1.value) in ev.nodes ==> ev.nodes[Key(tr.retUuid1.value)].Process?))
    ensures tr.retUuid1.Some? && Claimable(ev, Key(tr.retUuid1.value)) && r.Err? ==>
      r.error.1 == PC.Panic(NotAProcess)
    ensures r.Ok? ==>
      var ch := Key(tr.retUuid1.value);
      r.value.nodes == ev.nodes[ch := Process(NT.ProcessInit(tr.retval, pro.p.cmdline, true))]
      && |r.value.acts| >= 2 && Last(r.value.acts, 2) == [Prop(ch), Flow(PC.Source, ch, Subj(tr), tr.event, None)]
      && (ch !in ev.nodes ==> Add(ch, NewProcess) in r.value.acts)
  {
    var chU :- Need(ev, tr, tr.retUuid1, "ret_objuuid1");
    var ch := Key(chU);
    var d :- Declare(ev, ch, NewProcess);
    if !pro.Process? || !d.1.Process? then Err((d.0, PC.Panic(NotAProcess)))
    else
      var e1 := Set(d.0, ch, Process(NT.ProcessInit(tr.retval, pro.p.cmdline, true)));
      ExtendsTrans(ev, d.0, e1);
      var e2 := Emit(e1, [Prop(ch), Flow(PC.Source, ch, Subj(tr), tr.event, None)]);
      ExtendsTrans(ev, e1, e2);
      assert ch !in ev.nodes ==> Add(ch, NewProcess) in e2.acts by {
        if ch !in ev.nodes { assert e2.acts[|ev.acts|] == Add(ch, NewProcess); }
      }
      Ok(e2)
  }

  /** exit releases the subject's uuid: the builder forgets its node. */
  function Exit(tr: AuditEvent, ev: Ev): (r: Ev)
    ensures Subj(tr) !in r.nodes && r.nodes == ev.nodes - {Subj(tr)}
    ensures r.held == ev.held && r.acts == ev.acts + [Release(Subj(tr))]
  {
    Ev(ev.nodes - {Subj(tr)}, ev.held, ev.acts + [Release(Subj(tr))])
  }

  // ------------------------------------------------------------------- files

  /** The action a declaration makes: an `Add` for an unknown uuid, none for a known one. */
  function Added(ev: Ev, u: Uuid5, init: Obj): (r: seq<Act>)
    ensures u in ev.nodes <==> r == []
    ensures forall a :: a in r ==> a == Add(u, init)
  {
    if u in ev.nodes then [] else [Add(u, init)]
  }

  /** Declares `u`, then makes the actions `a`, which do not depend on the node. */
  function DeclareThen(ev: Ev, u: Uuid5, init: Obj, a: seq<Act>): (r: Result<Ev, Stop>)
    ensures Steps(ev, r)
    ensures r.Ok? <==> Claimable(ev, u)
    ensures r.Err? ==> r.error == (ev, PC.Panic(CS.CheckoutLoaned))
    ensures r.Ok? ==>
      r.value.acts == ev.acts + Added(ev, u, init) + a && r.value.held == ev.held + {u}
      && u in r.value.nodes && r.value.nodes - {u} == ev.nodes - {u}
      && (u in ev.nodes ==> r.value.nodes == ev.nodes)
  {
    var d :- Declare(ev, u, init);
    var e := Emit(d.0, a);
    ExtendsTrans(ev, d.0, e);
    Ok(e)
  }

  /** open declares and names the file it returns, and does nothing without one. */
  function Open(tr: AuditEvent, ev: Ev): (r: Result<Ev, Stop>)
    ensures Steps(ev, r)
    ensures tr.retUuid1.None? ==> r == Ok(ev)
    ensures tr.retUuid1.Some? && tr.upath1.None? ==> r == Err((ev, PC.MissingField(tr.event, "upath1")))
    ensures tr.retUuid1.Some? && tr.upath1.Some? ==>
      var f := Key(tr.retUuid1.value);
      (r.Ok? <==> Claimable(ev, f))
      && (r.Ok? ==> r.value.acts == ev.acts + Added(ev, f, File) + [Name(f, tr.upath1.value)])
  {
    if tr.retUuid1.None? then
      assert ev.acts[..|ev.acts|] == ev.acts;
      Ok(ev)
    else
      var name :- Need(ev, tr, tr.upath1, "upath1");
      var f := Key(tr.retUuid1.value);
      DeclareThen(ev, f, File, [Name(f, name)])
  }

  /** Whether a record's fdpath names its file: present and resolved. */
  predicate NamesFd(tr: AuditEvent)
  {
    tr.fdpath.Some? && tr.fdpath.value != UnknownPath
  }

  /**
   * What read and write do to their file: name it by its fdpath when
   * resolved, then record the flow (a source for a read, the start of a
   * write session for a write) carrying the return value, as an unsigned
   * 64-bit count, as bytes.
   */
  function TransferActs(tr: AuditEvent, f: Uuid5, k: PC.FlowKind): (r: seq<Act>)
    ensures |r| >= 1 && r[|r| - 1] == Flow(k, Subj(tr), f, tr.event, Some(ToU64(tr.retval)))
    ensures (exists a :: a in r && a.Name?) <==> NamesFd(tr)
    ensures forall a :: a in r && a.Name? ==> tr.fdpath.Some? && a == Name(f, tr.fdpath.value)
    ensures forall a :: a in r ==> a.Name? || a.Flow?
  {
    var named := if NamesFd(tr) then [Name(f, tr.fdpath.value)] else [];
    var t := named + [Flow(k, Subj(tr), f, tr.event, Some(ToU64(tr.retval)))];
    assert NamesFd(tr) ==> t[0].Name?;
    t
  }

  /** read and write: the file (arg_objuuid1) is required. */
  function Transfer(tr: AuditEvent, ev: Ev, k: PC.FlowKind): (r: Result<Ev, Stop>)
    ensures Steps(ev, r)
    ensures tr.argUuid1.None? ==> r == Err((ev, PC.MissingField(tr.event, "arg_objuuid1")))
    ensures r.Ok? <==> tr.argUuid1.Some? && Claimable(ev, Key(tr.argUuid1.value))
    ensures r.Ok? ==>
      var f := Key(tr.argUuid1.value);
      r.value.acts == ev.acts + Added(ev, f, File) + TransferActs(tr, f, k)
  {
    var fU :- Need(ev, tr, tr.argUuid1, "arg_objuuid1");
    DeclareThen(ev, Key(fU), File, TransferActs(tr, Key(fU), k))
  }

  /** close ends the subject's write session on the file, when the record names one. */
  function Close(tr: AuditEvent, ev: Ev): (r: Result<Ev, Stop>)
    ensures Steps(ev, r)
    ensures tr.argUuid1.None? ==> r == Ok(ev)
    ensures r.Ok? <==> tr.argUuid1.None? || Claimable(ev, Key(tr.argUuid1.value))
    ensures tr.argUuid1.Some? && r.Ok? ==>
      var f := Key(tr.argUuid1.value);
      r.value.acts == ev.acts + Added(ev, f, File) + [Flow(PC.SinkEnd, Subj(tr), f, tr.event, None)]
  {
    if tr.argUuid1.None? then
      assert ev.acts[..|ev.acts|] == ev.acts;
      Ok(ev)
    else
      var f := Key(tr.argUuid1.value);
      DeclareThen(ev, f, File, [Flow(PC.SinkEnd, Subj(tr), f, tr.event, None)])
  }

  /** The uuid-valued fields a one-node handler can require. */
  datatype UuidField = ArgUuid1 | RetUuid1

  function UuidOf(tr: AuditEvent, f: UuidField): Option<u128>
  {
    if f.ArgUuid1? then tr.argUuid1 else tr.retUuid1
  }

  function WireName(f: UuidField): string
  {
    if f.ArgUuid1? then "arg_objuuid1" else "ret_objuuid1"
  }

  /** socket, listen and posix_openpt only declare the node the record names. */
  function DeclareOne(tr: AuditEvent, ev: Ev, f: UuidField, init: Obj): (r: Result<Ev, Stop>)
    ensures Steps(ev, r)
    ensures UuidOf(tr, f).None? ==> r == Err((ev, PC.MissingField(tr.event, WireName(f))))
    ensures r.Ok? <==> UuidOf(tr, f).Some? && Claimable(ev, Key(UuidOf(tr, f).value))
    ensures r.Ok? ==>
      var u := Key(UuidOf(tr, f).value);
      u in r.value.nodes && r.value.nodes - {u} == ev.nodes - {u}
      && r.value.acts == ev.acts + Added(ev, u, init)
  {
    var v :- Need(ev, tr, UuidOf(tr, f), WireName(f));
    DeclareThen(ev, Key(v), init, [])
  }

  /** chdir and fchdir declare the directory and name it when upath1 is present. */
  function Chdir(tr: AuditEvent, ev: Ev): (r: Result<Ev, Stop>)
    ensures Steps(ev, r)
    ensures tr.argUuid1.None? ==> r == Err((ev, PC.MissingField(tr.event, "arg_objuuid1")))
    ensures r.Ok? <==> tr.argUuid1.Some? && Claimable(ev, Key(tr.argUuid1.value))
    ensures r.Ok? ==>
      var d := Key(tr.argUuid1.value);
      r.value.acts == ev.acts + Added(ev, d, File) + (if tr.upath1.Some? then [Name(d, tr.upath1.value)] else [])
  {
    var dU :- Need(ev, tr, tr.argUuid1, "arg_objuuid1");
    var d := Key(dU);
    DeclareThen(ev, d, File, if tr.upath1.Some? then [Name(d, tr.upath1.value)] else [])
  }

  /**
   * chmod, fchmodat and chown name the file by upath1 and record that the
   * subject changed it (a sink).
   */
  function Chmod(tr: AuditEvent, ev: Ev): (r: Result<Ev, Stop>)
    ensures Steps(ev, r)
    ensures tr.argUuid1.None? ==> r == Err((ev, PC.MissingField(tr.event, "arg_objuuid1")))
    ensures tr.argUuid1.Some? && tr.upath1.None? ==> r == Err((ev, PC.MissingField(tr.event, "upath1")))
    ensures r.Ok? <==> tr.argUuid1.Some? && tr.upath1.Some? && Claimable(ev, Key(tr.argUuid1.value))
    ensures r.Ok? ==>
      var f := Key(tr.argUuid1.value);
      r.value.acts == ev.acts + Added(ev, f, File) + [Name(f, tr.upath1.value), Flow(PC.Sink, Subj(tr), f, tr.event, None)]
  {
    var fU :- Need(ev, tr, tr.argUuid1, "arg_objuuid1");
    var path :- Need(ev, tr, tr.upath1, "upath1");
    var f := Key(fU);
    DeclareThen(ev, f, File, [Name(f, path), Flow(PC.Sink, Subj(tr), f, tr.event, None)])
  }

  /** fchmod and fchown open a write session of the subject on the file. */
  function Fchmod(tr: AuditEvent, ev: Ev): (r: Result<Ev, Stop>)
    ensures Steps(ev, r)
    ensures tr.argUuid1.None? ==> r == Err((ev, PC.MissingField(tr.event, "arg_objuuid1")))
    ensures r.Ok? <==> tr.argUuid1.Some? && Claimable(ev, Key(tr.argUuid1.value))
    ensures r.Ok? ==>
      var f := Key(tr.argUuid1.value);
      r.value.acts == ev.acts + Added(ev, f, File) + [Flow(PC.SinkStart, Subj(tr), f, tr.event, None)]
  {
    var fU :- Need(ev, tr, tr.argUuid1, "arg_objuuid1");
    var f := Key(fU);
    DeclareThen(ev, f, File, [Flow(PC.SinkStart, Subj(tr), f, tr.event, None)])
  }

  // ------------------------------------------------------------------- mmap

  /** A mapping the subject can write through to the file: writable, and not private when sharing is given. */
  predicate MapsShared(tr: AuditEvent)
  {
    tr.memFlags.Some? && "PROT_WRITE" in tr.memFlags.value
    && (tr.sharingFlags.None? || "MAP_PRIVATE" !in tr.sharingFlags.value)
  }

  predicate MapsReadable(tr: AuditEvent)
  {
    tr.memFlags.Some? && "PROT_READ" in tr.memFlags.value
  }

  /**
   * What mmap does to its file: name it by its fdpath (even an unresolved
   * one), open a write session when the mapping is shared and writable, and
   * record a read when it is readable.
   */
  function MmapActs(tr: AuditEvent, f: Uuid5): (r: seq<Act>)
    ensures Flow(PC.SinkStart, Subj(tr), f, tr.event, None) in r <==> MapsShared(tr)
    ensures Flow(PC.Source, Subj(tr), f, tr.event, None) in r <==> MapsReadable(tr)
    ensures (exists a :: a in r && a.Name?) <==> tr.fdpath.Some?
    ensures forall a :: a in r ==>
      (a.Name? && tr.fdpath.Some? && a == Name(f, tr.fdpath.value))
      || (a.Flow? && a.act == Subj(tr) && a.ent == f && a.bytes.None? && (a.kind.SinkStart? || a.kind.Source?))
  {
    var named := if tr.fdpath.Some? then [Name(f, tr.fdpath.value)] else [];
    var t := named
      + (if MapsShared(tr) then [Flow(PC.SinkStart, Subj(tr), f, tr.event, None)] else [])
      + (if MapsReadable(tr) then [Flow(PC.Source, Subj(tr), f, tr.event, None)] else []);
    assert tr.fdpath.Some? ==> t[0].Name?;
    t
  }

  /** mmap: the file (arg_objuuid1) is required. */
  function Mmap(tr: AuditEvent, ev: Ev): (r: Result<Ev, Stop>)
    ensures Steps(ev, r)
    ensures tr.argUuid1.None? ==> r == Err((ev, PC.MissingField(tr.event, "arg_objuuid1")))
    ensures r.Ok? <==> tr.argUuid1.Some? && Claimable(ev, Key(tr.argUuid1.value))
    ensures r.Ok? ==>
      var f := Key(tr.argUuid1.value);
      r.value.acts == ev.acts + Added(ev, f, File) + MmapActs(tr, f)
  {
    var fU :- Need(ev, tr, tr.argUuid1, "arg_objuuid1");
    DeclareThen(ev, Key(fU), File, MmapActs(tr, Key(fU)))
  }

  // ----------------------------------------------------------------- sockets

  /** A socket the record can still address: a socket node whose class is unknown. */
  predicate Unaddressed(o: Obj)
  {
    o.Socket? && o.s.sockClass.Unknown?
  }

  /**
   * `socket_addr`: a socket of unknown class takes its address from the
   * record, upath1 first (a Unix socket, keeping its ip and port), else the
   * port with the then required address (an internet socket, keeping its
   * path). It reports whether the socket changed; any other node is left
   * alone.
   */
  function SocketAddr(tr: AuditEvent, ev: Ev, s: Uuid5, o: Obj): (r: Result<(Ev, bool), Stop>)
    requires s in ev.nodes && ev.nodes[s] == o
    ensures r.Err? <==> Unaddressed(o) && tr.upath1.None? && tr.port.Some? && tr.address.None?
    ensures r.Err? ==> r.error == (ev, PC.MissingField(tr.event, "address"))
    ensures r.Ok? ==> (r.value.1 <==> Unaddressed(o) && (tr.upath1.Some? || tr.port.Some?))
    ensures r.Ok? && !r.value.1 ==> r.value.0 == ev
    ensures r.Ok? && r.value.1 ==> Extends(ev, r.value.0) && r.value.0.acts == ev.acts && r.value.0.held == ev.held
    ensures r.Ok? && r.value.1 && tr.upath1.Some? ==>
      r.value.0.nodes == ev.nodes[s := Socket(o.s.(sockClass := NT.AfUnix, path := tr.upath1.value))]
    ensures r.Ok? && r.value.1 && tr.upath1.None? ==>
      r.value.0.nodes == ev.nodes[s := Socket(o.s.(sockClass := NT.AfInet, port := tr.port.value, ip := tr.address.value))]
  {
    if Unaddressed(o) then
      if tr.upath1.Some? then
        Ok((Set(ev, s, Socket(o.s.(sockClass := NT.AfUnix, path := tr.upath1.value))), true))
      else if tr.port.Some? then
        var addr :- Need(ev, tr, tr.address, "address");
        Ok((Set(ev, s, Socket(o.s.(sockClass := NT.AfInet, port := tr.port.value, ip := addr))), true))
      else Ok((ev, false))
    else Ok((ev, false))
  }

  /** A socket's class, once known, is never changed by `socket_addr`. */
  lemma AddressSticky(tr: AuditEvent, ev: Ev, s: Uuid5)
    requires s in ev.nodes && ev.nodes[s].Socket? && !ev.nodes[s].s.sockClass.Unknown?
    ensures SocketAddr(tr, ev, s, ev.nodes[s]) == Ok((ev, false))
  {
  }

  /** Whether `socket_addr` changes a node: an unaddressed socket and a record with a path or a port. */
  predicate Readdresses(tr: AuditEvent, o: Obj)
  {
    Unaddressed(o) && (tr.upath1.Some? || tr.port.Some?)
  }

  /** The node a socket operation finds or creates for `s`. */
  function Found(ev: Ev, s: Uuid5): Obj
  {
    if s in ev.nodes then ev.nodes[s] else NewSocket
  }

  /**
   * What a socket operation records after the declaration: the socket's
   * properties when its address changed, then the message flow, if any.
   */
  function SockActs(tr: AuditEvent, s: Uuid5, changed: bool, k: Option<PC.FlowKind>): (r: seq<Act>)
    ensures Prop(s) in r <==> changed
    ensures (exists a :: a in r && a.Flow?) <==> k.Some?
    ensures forall a :: a in r && a.Flow? ==> a == Flow(k.value, Subj(tr), s, tr.event, None)
    ensures k.Some? ==> |r| >= 1 && r[|r| - 1] == Flow(k.value, Subj(tr), s, tr.event, None)
  {
    var props := if changed then [Prop(s)] else [];
    var fl := if k.Some? then [Flow(k.value, Subj(tr), s, tr.event, None)] else [];
    assert k.Some? ==> (props + fl)[|props|] == fl[0];
    props + fl
  }

  /** A socket operation once its socket is declared: address it, then record. */
  function AddrThen(tr: AuditEvent, ev: Ev, s: Uuid5, k: Option<PC.FlowKind>): (r: Result<Ev, Stop>)
    requires s in ev.nodes
    ensures Steps(ev, r)
    ensures r.Err? <==> Unaddressed(ev.nodes[s]) && tr.upath1.None? && tr.port.Some? && tr.address.None?
    ensures r.Err? ==> r.error == (ev, PC.MissingField(tr.event, "address"))
    ensures r.Ok? ==> r.value.acts == ev.acts + SockActs(tr, s, Readdresses(tr, ev.nodes[s]), k)
  {
    var a :- SocketAddr(tr, ev, s, ev.nodes[s]);
    var e := Emit(a.0, SockActs(tr, s, a.1, k));
    ExtendsTrans(ev, a.0, e);
    Ok(e)
  }

  /** A socket operation once its socket's uuid is known. */
  function SockCore(tr: AuditEvent, ev: Ev, s: Uuid5, k: Option<PC.FlowKind>): (r: Result<Ev, Stop>)
    ensures Steps(ev, r)
    ensures r.Err? <==>
      !Claimable(ev, s)
      || (Unaddressed(Found(ev, s)) && tr.upath1.None? && tr.port.Some? && tr.address.None?)
    ensures !Claimable(ev, s) ==> r == Err((ev, PC.Panic(CS.CheckoutLoaned)))
    ensures Claimable(ev, s) && r.Err? ==> r.error.1 == PC.MissingField(tr.event, "address")
    ensures r.Ok? ==>
      r.value.acts == ev.acts + Added(ev, s, NewSocket) + SockActs(tr, s, Readdresses(tr, Found(ev, s)), k)
  {
    var d :- Declare(ev, s, NewSocket);
    assert d.0.nodes[s] == Found(ev, s);
    assert d.0.acts == ev.acts + Added(ev, s, NewSocket);
    var e :- AddrThen(tr, d.0, s, k);
    ExtendsTrans(ev, d.0, e);
    Ok(e)
  }

  /**
   * bind, connect, and the message calls (sendmsg and sendto start a write
   * session, recvmsg and recvfrom read): declare the socket, take its
   * address from the record if still unknown (writing its properties when
   * it changed), then record the message flow, if any.
   */
  function SockOp(tr: AuditEvent, ev: Ev, k: Option<PC.FlowKind>): (r: Result<Ev, Stop>)
    ensures Steps(ev, r)
    ensures tr.argUuid1.None? ==> r == Err((ev, PC.MissingField(tr.event, "arg_objuuid1")))
    ensures tr.argUuid1.Some? ==> r == SockCore(tr, ev, Key(tr.argUuid1.value), k)
  {
    var sU :- Need(ev, tr, tr.argUuid1, "arg_objuuid1");
    SockCore(tr, ev, Key(sU), k)
  }

  /**
   * accept declares the listening socket, then the returned socket with
   * the peer's address: a path makes it a Unix socket, else a port (with
   * its then required address) an internet one, else it has no address.
   * Neither guard is bound to a name, so each is checked back in at the end
   * of its own statement: the listening socket is free again before the
   * returned one is declared, even when both are the same socket.
   */
  function Accept(tr: AuditEvent, ev: Ev): (r: Result<Ev, Stop>)
    ensures Steps(ev, r)
    ensures tr.argUuid1.None? ==> r == Err((ev, PC.MissingField(tr.event, "arg_objuuid1")))
    ensures tr.argUuid1.Some? && tr.retUuid1.None? ==> r == Err((ev, PC.MissingField(tr.event, "ret_objuuid1")))
    ensures (tr.argUuid1.Some? && tr.retUuid1.Some? && Claimable(ev, Key(tr.argUuid1.value))
             && tr.upath1.None? && tr.port.Some? && tr.address.None?) ==>
      r.Err? && r.error.1 == PC.MissingField(tr.event, "address")
    ensures r.Ok? ==>
      var rs := Key(tr.retUuid1.value);
      rs in r.value.nodes
      && (rs !in ev.nodes && rs != Key(tr.argUuid1.value) ==>
            r.value.nodes[rs] == AcceptedSocket(tr)
            && |r.value.acts| >= 1 && Last(r.value.acts, 1) == [Add(rs, AcceptedSocket(tr))])
    ensures r.Ok? ==> r.value.held == ev.held
    ensures (tr.argUuid1.Some? && tr.retUuid1 == tr.argUuid1 && Key(tr.argUuid1.value) !in ev.held
             && !(tr.upath1.None? && tr.port.Some? && tr.address.None?)) ==> r.Ok?
  {
    var lU :- Need(ev, tr, tr.argUuid1, "arg_objuuid1");
    var rU :- Need(ev, tr, tr.retUuid1, "ret_objuuid1");
    var d1 :- Declare(ev, Key(lU), NewSocket);
    var l := d1.0.(held := ev.held);
    assert Extends(ev, l);
    if tr.upath1.None? && tr.port.Some? && tr.address.None? then
      Err((l, PC.MissingField(tr.event, "address")))
    else
      var d2 :- Declare(l, Key(rU), AcceptedSocket(tr));
      var e := d2.0.(held := ev.held);
      assert Extends(l, e);
      ExtendsTrans(ev, l, e);
      Ok(e)
  }

  /** The returned socket of an accept that names its peer fully. */
  function AcceptedSocket(tr: AuditEvent): (o: Obj)
    ensures tr.upath1.Some? ==> o == Socket(NT.SocketInit(NT.AfUnix, tr.upath1.value, "", 0))
    ensures tr.upath1.None? && tr.port.Some? && tr.address.Some? ==>
      o == Socket(NT.SocketInit(NT.AfInet, "", tr.address.value, tr.port.value))
    ensures tr.upath1.None? && tr.port.None? ==> o == NewSocket
  {
    if tr.upath1.Some? then Socket(NT.SocketInit(NT.AfUnix, tr.upath1.value, "", 0))
    else if tr.port.Some? && tr.address.Some? then Socket(NT.SocketInit(NT.AfInet, "", tr.address.value, tr.port.value))
    else NewSocket
  }

  /** socketpair declares both returned sockets and connects them. */
  function SocketPair(tr: AuditEvent, ev: Ev): (r: Result<Ev, Stop>)
    ensures Steps(ev, r)
    ensures tr.retUuid1.None? ==> r == Err((ev, PC.MissingField(tr.event, "ret_objuuid1")))
    ensures tr.retUuid1.Some? && tr.retUuid2.None? ==> r == Err((ev, PC.MissingField(tr.event, "ret_objuuid2")))
    ensures r.Ok? <==>
      (tr.retUuid1.Some? && tr.retUuid2.Some? && tr.retUuid1 != tr.retUuid2
       && Claimable(ev, Key(tr.retUuid1.value)) && Claimable(ev, Key(tr.retUuid2.value)))
    ensures r.Ok? ==>
      |r.value.acts| >= 1 && Last(r.value.acts, 1) == [Connect(Key(tr.retUuid1.value), Key(tr.retUuid2.value), tr.event)]
  {
    var u1 :- Need(ev, tr, tr.retUuid1, "ret_objuuid1");
    var u2 :- Need(ev, tr, tr.retUuid2, "ret_objuuid2");
    var d1 :- Declare(ev, Key(u1), NewSocket);
    var d2 :- Declare(d1.0, Key(u2), NewSocket);
    ExtendsTrans(ev, d1.0, d2.0);
    var e := Emit(d2.0, [Connect(Key(u1), Key(u2), tr.event)]);
    ExtendsTrans(ev, d2.0, e);
    Ok(e)
  }

  /** pipe declares both ends, each with its descriptor, and connects them. */
  function PipePair(tr: AuditEvent, ev: Ev): (r: Result<Ev, Stop>)
    ensures Steps(ev, r)
    ensures tr.retUuid1.None? ==> r == Err((ev, PC.MissingField(tr.event, "ret_objuuid1")))
    ensures tr.retUuid1.Some? && tr.retFd1.None? ==> r == Err((ev, PC.MissingField(tr.event, "ret_fd1")))
    ensures tr.retUuid1.Some? && tr.retFd1.Some? && tr.retUuid2.None? ==>
      r == Err((ev, PC.MissingField(tr.event, "ret_objuuid2")))
    ensures tr.retUuid1.Some? && tr.retFd1.Some? && tr.retUuid2.Some? && tr.retFd2.None? ==>
      r == Err((ev, PC.MissingField(tr.event, "ret_fd2")))
    ensures r.Ok? <==>
      (tr.retUuid1.Some? && tr.retFd1.Some? && tr.retUuid2.Some? && tr.retFd2.Some? && tr.retUuid1 != tr.retUuid2
       && Claimable(ev, Key(tr.retUuid1.value)) && Claimable(ev, Key(tr.retUuid2.value)))
    ensures r.Ok? ==>
      var p1, p2 := Key(tr.retUuid1.value), Key(tr.retUuid2.value);
      |r.value.acts| >= 1 && Last(r.value.acts, 1) == [Connect(p1, p2, tr.event)]
      && p1 in r.value.nodes && p2 in r.value.nodes
      && (p1 !in ev.nodes ==> r.value.nodes[p1] == Pipe(tr.retFd1.value))
      && (p2 !in ev.nodes ==> r.value.nodes[p2] == Pipe(tr.retFd2.value))
  {
    var u1 :- Need(ev, tr, tr.retUuid1, "ret_objuuid1");
    var fd1 :- Need(ev, tr, tr.retFd1, "ret_fd1");
    var u2 :- Need(ev, tr, tr.retUuid2, "ret_objuuid2");
    var fd2 :- Need(ev, tr, tr.retFd2, "ret_fd2");
    var d1 :- Declare(ev, Key(u1), Pipe(fd1));
    var d2 :- Declare(d1.0, Key(u2), Pipe(fd2));
    ExtendsTrans(ev, d1.0, d2.0);
    var e := Emit(d2.0, [Connect(Key(u1), Key(u2), tr.event)]);
    ExtendsTrans(ev, d2.0, e);
    Ok(e)
  }

  // ---------------------------------------------------------------- dispatch

  /** The handlers, one per group of event names that share one. */
  datatype Handler =
    | OnAccept | OnBind | OnChdir | OnChmod | OnClose | OnConnect | OnExec | OnExit | OnFork
    | OnFchmod | OnListen | OnMmap | OnOpen | OnPipe | OnOpenpt | OnRead | OnRecv | OnSend
    | OnSocket | OnSocketpair | OnWrite | OnIgnore

  const ExecEvent := "audit:event:aue_execve:"
  const ExitEvent := "audit:event:aue_exit:"
  const ForkEvent := "audit:event:aue_fork:"
  const ReadEvent := "audit:event:aue_read:"
  const Dup2Event := "audit:event:aue_dup2:"

  /** The event names the parser recognises, each with the handler it runs, in the order the parser tries them. */
  const Events: seq<(string, Handler)> := [
    ("audit:event:aue_accept:", OnAccept),
    ("audit:event:aue_bind:", OnBind),
    ("audit:event:aue_chdir:", OnChdir),
    ("audit:event:aue_fchdir:", OnChdir),
    ("audit:event:aue_chmod:", OnChmod),
    ("audit:event:aue_fchmodat:", OnChmod),
    ("audit:event:aue_chown:", OnChmod),
    ("audit:event:aue_close:", OnClose),
    ("audit:event:aue_connect:", OnConnect),
    (ExecEvent, OnExec),
    (ExitEvent, OnExit),
    (ForkEvent, OnFork),
    ("audit:event:aue_pdfork:", OnFork),
    ("audit:event:aue_vfork:", OnFork),
    ("audit:event:aue_fchmod:", OnFchmod),
    ("audit:event:aue_fchown:", OnFchmod),
    ("audit:event:aue_listen:", OnListen),
    ("audit:event:aue_mmap:", OnMmap),
    ("audit:event:aue_open_rwtc:", OnOpen),
    ("audit:event:aue_openat_rwtc:", OnOpen),
    ("audit:event:aue_pipe:", OnPipe),
    ("audit:event:aue_posix_openpt:", OnOpenpt),
    (ReadEvent, OnRead),
    ("audit:event:aue_pread:", OnRead),
    ("audit:event:aue_recvmsg:", OnRecv),
    ("audit:event:aue_recvfrom:", OnRecv),
    ("audit:event:aue_sendmsg:", OnSend),
    ("audit:event:aue_sendto:", OnSend),
    ("audit:event:aue_socket:", OnSocket),
    ("audit:event:aue_socketpair:", OnSocketpair),
    ("audit:event:aue_write:", OnWrite),
    ("audit:event:aue_pwrite:", OnWrite),
    ("audit:event:aue_writev:", OnWrite),
    (Dup2Event, OnIgnore)
  ]

  /** The handler of the first entry of `t` named `e`; `None` when no entry is. */
  function Lookup(e: string, t: seq<(string, Handler)>): (r: Option<Handler>)
    ensures r.Some? ==> (e, r.value) in t
  {
    if t == [] then None
    else if t[0].0 == e then Some(t[0].1)
    else Lookup(e, t[1..])
  }

  /** The handler an event name selects; `None` for a name the parser does not recognise. */
  function HandlerOf(e: string): Option<Handler>
  {
    Lookup(e, Events)
  }

  /** A name is looked up exactly when some entry carries it. */
  lemma {:induction false} LookupFinds(e: string, t: seq<(string, Handler)>)
    ensures Lookup(e, t).Some? <==> exists i :: 0 <= i < |t| && t[i].0 == e
  {
    if t != [] {
      LookupFinds(e, t[1..]);
      if t[0].0 != e {
        if exists i :: 0 <= i < |t| && t[i].0 == e {
          var i :| 0 <= i < |t| && t[i].0 == e;
          assert t[1..][i - 1].0 == e;
        }
      }
    }
  }

  /** The first entry carrying a name decides its handler. */
  lemma {:induction false} LookupFirst(e: string, t: seq<(string, Handler)>, i: nat)
    requires i < |t| && t[i].0 == e
    requires forall j :: 0 <= j < i ==> t[j].0 != e
    ensures Lookup(e, t) == Some(t[i].1)
  {
    if i > 0 {
      assert t[0].0 != e;
      LookupFirst(e, t[1..], i - 1);
    }
  }

  /** The subject as every record declares it: a thin process with the record's pid and executable. */
  function SubjInit(tr: AuditEvent): Obj
  {
    Process(NT.ProcessInit(tr.pid, tr.exec, true))
  }

  /**
   * The state after a record's first step, declaring its subject: nothing is
   * checked out yet, so this never panics.
   */
  function Seed(b: Builder, tr: AuditEvent): (r: Ev)
    ensures Subj(tr) in r.nodes && r.held == {Subj(tr)}
    ensures Subj(tr) in b.nodes ==> r.nodes == b.nodes && r.acts == []
    ensures Subj(tr) !in b.nodes ==> r.nodes == b.nodes[Subj(tr) := SubjInit(tr)] && r.acts == [Add(Subj(tr), SubjInit(tr))]
  {
    var s := Subj(tr);
    if s in b.nodes then Ev(b.nodes, {s}, [])
    else Ev(b.nodes[s := SubjInit(tr)], {s}, [Add(s, SubjInit(tr))])
  }

  /** `Seed` is the declaration `parse_trace` makes, from a state with nothing checked out. */
  lemma SeedDeclares(b: Builder, tr: AuditEvent)
    ensures var r := Seed(b, tr);
      Declare(Ev(b.nodes, {}, []), Subj(tr), SubjInit(tr)) == Ok((r, r.nodes[Subj(tr)]))
  {
    var s := Subj(tr);
    var ev0 := Ev(b.nodes, {}, []);
    assert ev0.held + {s} == {s};
    if s in b.nodes {
      assert Declare(ev0, s, SubjInit(tr)) == Ok((ev0.(held := {s}), b.nodes[s]));
    } else {
      var e := Emit(ev0, [Add(s, SubjInit(tr))]);
      assert e.acts == [Add(s, SubjInit(tr))];
      assert Declare(ev0, s, SubjInit(tr)) == Ok((e.(nodes := b.nodes[s := SubjInit(tr)], held := {s}), SubjInit(tr)));
    }
  }

  /** The outcome of one trace record: the builder after it, the actions made, and the error, if any. */
  datatype Parsed = Parsed(builder: Builder, acts: seq<Act>, err: Option<PC.PvmError>)

  /** Closes a record: a stop keeps its effects and reports its error. */
  function Finish(b: Builder, r: Result<Ev, Stop>): (p: Parsed)
    ensures r.Ok? ==> p == Parsed(Builder(r.value.nodes, b.unparsed), r.value.acts, None)
    ensures r.Err? ==> p == Parsed(Builder(r.error.0.nodes, b.unparsed), r.error.0.acts, Some(r.error.1))
  {
    if r.Ok? then Parsed(Builder(r.value.nodes, b.unparsed), r.value.acts, None)
    else Parsed(Builder(r.error.0.nodes, b.unparsed), r.error.0.acts, Some(r.error.1))
  }

  /**
   * Runs the handler `h` on a record whose subject is declared (exit is run
   * by the caller): each group of event names runs its own handler, which
   * only extends the state.
   */
  function Handle(h: Handler, tr: AuditEvent, ev: Ev): Result<Ev, Stop>
    requires Subj(tr) in ev.nodes
  {
    match h
    case OnAccept => Accept(tr, ev)
    case OnBind => SockOp(tr, ev, None)
    case OnConnect => SockOp(tr, ev, None)
    case OnChdir => Chdir(tr, ev)
    case OnChmod => Chmod(tr, ev)
    case OnClose => Close(tr, ev)
    case OnExec => Exec(tr, ev.nodes[Subj(tr)], ev)
    case OnExit => Ok(Exit(tr, ev))
    case OnFork => Fork(tr, ev.nodes[Subj(tr)], ev)
    case OnFchmod => Fchmod(tr, ev)
    case OnListen => DeclareOne(tr, ev, ArgUuid1, NewSocket)
    case OnMmap => Mmap(tr, ev)
    case OnOpen => Open(tr, ev)
    case OnPipe => PipePair(tr, ev)
    case OnOpenpt => DeclareOne(tr, ev, RetUuid1, Ptty)
    case OnRead => Transfer(tr, ev, PC.Source)
    case OnRecv => SockOp(tr, ev, Some(PC.Source))
    case OnSend => SockOp(tr, ev, Some(PC.SinkStart))
    case OnSocket => DeclareOne(tr, ev, RetUuid1, NewSocket)
    case OnSocketpair => SocketPair(tr, ev)
    case OnWrite => Transfer(tr, ev, PC.SinkStart)
    case OnIgnore => Ok(ev)
  }

  /**
   * `parse_trace`: a kernel-probe record is ignored. An audit record declares
   * its subject, then runs the handler its event name selects; a name with
   * no handler is only remembered as unparsed.
   */
  method ParseTrace(b: Builder, te: TraceEvent) returns (r: Parsed)
    ensures te.Fbt? ==> r == Parsed(b, [], None)
    ensures te.Audit? ==>
      r.builder.unparsed == b.unparsed + (if HandlerOf(te.a.event).Some? then {} else {te.a.event})
    ensures te.Audit? && (HandlerOf(te.a.event).None? || HandlerOf(te.a.event) == Some(OnIgnore)) ==>
      r.err.None? && r.builder.nodes == Seed(b, te.a).nodes && r.acts == Seed(b, te.a).acts
    ensures te.Audit? && Subj(te.a) !in b.nodes ==>
      |r.acts| >= 1 && r.acts[0] == Add(Subj(te.a), SubjInit(te.a))
    ensures te.Audit? && HandlerOf(te.a.event) != Some(OnExit) ==>
      b.nodes.Keys <= r.builder.nodes.Keys && Keeps(b.nodes, r.builder.nodes)
    ensures te.Audit? && HandlerOf(te.a.event).Some? ==>
      r == Finish(b, Handle(HandlerOf(te.a.event).value, te.a, Seed(b, te.a)))
  {
    match te
    case Fbt =>
      r := Parsed(b, [], None);
    case Audit(tr) =>
      var ev := Seed(b, tr);
      var h := HandlerOf(tr.event);
      if h.None? {
        r := Parsed(Builder(ev.nodes, b.unparsed + {tr.event}), ev.acts, None);
        assert Keeps(b.nodes, r.builder.nodes) by { KeepsSeed(b, tr); }
      } else {
        var x := RunHandler(h.value, tr, ev);
        r := Finish(b, x);
        var e := if x.Ok? then x.value else x.error.0;
        if h.value.OnExit? {
          assert e.acts == ev.acts + [Release(Subj(tr))];
        } else {
          KeepsSeed(b, tr);
          KeepsAfter(b.nodes, ev, e);
        }
        if Subj(tr) !in b.nodes {
          assert e.acts[0] == ev.acts[0];
        }
      }
  }

  /**
   * Every handler but exit only extends the state, whether it finishes or
   * stops: nodes already there stay (or are edited in place), guards are
   * only taken, and actions are only appended. Exit forgets the subject and
   * appends its release.
   */
  lemma HandleSteps(h: Handler, tr: AuditEvent, ev: Ev)
    requires Subj(tr) in ev.nodes
    ensures !h.OnExit? ==> Steps(ev, Handle(h, tr, ev))
    ensures h.OnExit? ==>
      && Handle(h, tr, ev).Ok?
      && Handle(h, tr, ev).value.nodes == ev.nodes - {Subj(tr)}
      && Handle(h, tr, ev).value.acts == ev.acts + [Release(Subj(tr))]
    ensures h.OnIgnore? ==> Handle(h, tr, ev) == Ok(ev)
  {
    if h.OnIgnore? {
      assert ev.acts[..|ev.acts|] == ev.acts;
    }
  }

  /**
   * Computes a handler's result and what `HandleSteps` says of it. As a
   * method it gives `ParseTrace` these facts without the definitions of
   * every handler.
   */
  method RunHandler(h: Handler, tr: AuditEvent, ev: Ev) returns (r: Result<Ev, Stop>)
    requires Subj(tr) in ev.nodes
    ensures r == Handle(h, tr, ev)
    ensures !h.OnExit? ==> Steps(ev, r)
    ensures h.OnExit? ==>
      && r.Ok?
      && r.value.nodes == ev.nodes - {Subj(tr)}
      && r.value.acts == ev.acts + [Release(Subj(tr))]
    ensures h.OnIgnore? ==> r == Ok(ev)
  {
    r := Handle(h, tr, ev);
    HandleSteps(h, tr, ev);
  }

  /** Declaring the subject keeps every node the builder had. */
  lemma KeepsSeed(b: Builder, tr: AuditEvent)
    ensures b.nodes.Keys <= Seed(b, tr).nodes.Keys && Keeps(b.nodes, Seed(b, tr).nodes)
  {
  }

  lemma KeepsAfter(a: map<Uuid5, Obj>, ev: Ev, e: Ev)
    requires a.Keys <= ev.nodes.Keys && Keeps(a, ev.nodes) && Extends(ev, e)
    ensures a.Keys <= e.nodes.Keys && Keeps(a, e.nodes)
  {
    forall u | u in a && u in e.nodes
      ensures e.nodes[u] == a[u] || Editable(a[u])
    {
      assert ev.nodes[u] == a[u] || Editable(a[u]);
    }
  }

  // ------------------------------------------------------------------ lemmas
  // Each lemma follows one handler from the state `Seed` leaves, which is
  // where `ParseTrace` runs it.

  /**
   * exec of a process first seen at that record completes its thin node in
   * place: its properties are rewritten and the binary and linker feed it,
   * with no new version.
   */
  lemma ExecThinInPlace(b: Builder, tr: AuditEvent)
    requires ExecFields(tr) && Subj(tr) !in b.nodes
    requires tr.argUuid1 != tr.argUuid2 && tr.argUuid1 != Some(tr.subj) && tr.argUuid2 != Some(tr.subj)
    ensures var ev := Seed(b, tr); var r := Finish(b, Exec(tr, ev.nodes[Subj(tr)], ev));
      r.err.None?
      && r.builder.nodes[Subj(tr)] == Process(NT.ProcessInit(tr.pid, tr.cmdline.value, false))
      && |r.acts| >= 3
      && Last(r.acts, 3) == [Prop(Subj(tr)), Flow(PC.Source, Subj(tr), Key(tr.argUuid1.value), "binary", None),
                             Flow(PC.Source, Subj(tr), Key(tr.argUuid2.value), "linker", None)]
  {
    var ev := Seed(b, tr);
    assert ev.nodes[Subj(tr)] == SubjInit(tr);
  }

  /**
   * exec of a subject that is already a fat process adds a new version,
   * fed by the old one, the binary and the linker.
   */
  lemma ExecFatVersions(b: Builder, tr: AuditEvent)
    requires ExecFields(tr)
    requires Subj(tr) in b.nodes && b.nodes[Subj(tr)].Process? && !b.nodes[Subj(tr)].p.thin
    requires tr.argUuid1 != tr.argUuid2 && tr.argUuid1 != Some(tr.subj) && tr.argUuid2 != Some(tr.subj)
    ensures var ev := Seed(b, tr); var r := Finish(b, Exec(tr, ev.nodes[Subj(tr)], ev));
      var next := Process(NT.ProcessInit(tr.pid, tr.cmdline.value, false));
      r.err.None? && r.builder.nodes[Subj(tr)] == next
      && |r.acts| >= 4
      && Last(r.acts, 4) == [Add(Subj(tr), next), FromPrevious(Subj(tr), tr.event),
                             Flow(PC.Source, Subj(tr), Key(tr.argUuid1.value), "binary", None),
                             Flow(PC.Source, Subj(tr), Key(tr.argUuid2.value), "linker", None)]
  {
    var ev := Seed(b, tr);
    assert ev.nodes[Subj(tr)] == b.nodes[Subj(tr)];
  }

  /**
   * A forked child new to the builder is a thin process with the fork's
   * return value as pid and the parent's command line, fed by the parent.
   */
  lemma ForkChild(b: Builder, tr: AuditEvent)
    requires tr.retUuid1.Some? && tr.retUuid1 != Some(tr.subj)
    requires Key(tr.retUuid1.value) !in b.nodes
    requires Subj(tr) in b.nodes ==> b.nodes[Subj(tr)].Process?
    ensures var ev := Seed(b, tr); var r := Finish(b, Fork(tr, ev.nodes[Subj(tr)], ev));
      var parent := if Subj(tr) in b.nodes then b.nodes[Subj(tr)].p.cmdline else tr.exec;
      r.err.None?
      && r.builder.nodes[Key(tr.retUuid1.value)] == Process(NT.ProcessInit(tr.retval, parent, true))
      && |r.acts| >= 1 && r.acts[|r.acts| - 1] == Flow(PC.Source, Key(tr.retUuid1.value), Subj(tr), tr.event, None)
  {
    var ev := Seed(b, tr);
    assert Key(tr.retUuid1.value) != Subj(tr);
  }

  /** A read whose file is the subject itself panics: the subject is already checked out. */
  lemma ReadOfSubjectPanics(b: Builder, tr: AuditEvent)
    requires tr.argUuid1 == Some(tr.subj)
    ensures Finish(b, Transfer(tr, Seed(b, tr), PC.Source)).err == Some(PC.Panic(CS.CheckoutLoaned))
  {
    assert !Claimable(Seed(b, tr), Key(tr.argUuid1.value));
  }

  /** exit forgets the subject's node, whatever it was, and makes no other change. */
  lemma ExitForgets(b: Builder, tr: AuditEvent)
    ensures var r := Finish(b, Ok(Exit(tr, Seed(b, tr))));
      r.err.None? && r.builder.nodes == b.nodes - {Subj(tr)}
      && |r.acts| >= 1 && r.acts[|r.acts| - 1] == Release(Subj(tr))
  {
    var ev := Seed(b, tr);
    assert ev.nodes - {Subj(tr)} == b.nodes - {Subj(tr)};
  }
}
