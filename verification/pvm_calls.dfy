/**
 * What the trace parsers ask of the graph builder. A parser turns one trace
 * record into a sequence of builder calls (declare a node of a concrete
 * type, attach metadata, name or unname it, record a flow, connect two
 * conduits, release a node, note an unparsed event). The builder's own
 * reaction to each call is outside this module: a parser's meaning is the
 * calls it makes, in order, and the error it stops with, if any.
 */
module PvmCalls {
  import opened Ints
  import opened Wrappers
  import PDN = PvmDataNode
  import MS = MetaStore

  /** A trace UUID, as its 128-bit value. */
  type Uuid = u128

  /** An event timestamp; only its identity matters here. */
  type Time = int

  /**
   * The parsers' error: a field the event needed was absent (named as the
   * trace names it), or a panic of the builder.
   */
  datatype PvmError = MissingField(evt: string, field: string) | Panic(msg: string)

  /**
   * Information-flow calls: `source(act, ent)` (data flows from the entity
   * into the actor), `sink`, and the start and end of a write session.
   */
  datatype FlowKind = Source | Sink | SinkStart | SinkEnd

  datatype Call =
    | Context(event: string, time: Time)
    | Declare(ty: PDN.ConcreteType, uuid: Uuid, meta: Option<MS.Store<Time>>)
    | Meta(node: Uuid, key: string, val: string)
    | Name(node: Uuid, name: PDN.Name)
    | Unname(node: Uuid, name: PDN.Name)
    | Flow(kind: FlowKind, act: Uuid, ent: Uuid, nbytes: Option<i32>)
    | Connect(a: Uuid, b: Uuid)
    | Inherit(child: Uuid, parent: Uuid, time: Time)
    | Release(node: Uuid)
    | Unparsed(event: string)

  /**
   * Where a parser stops: the calls already made (they have taken effect)
   * and the error it returns.
   */
  type Stop = (seq<Call>, PvmError)

  /** The outcome of parsing one record: every call made, and the error if it stopped early. */
  datatype Outcome = Outcome(calls: seq<Call>, err: Option<PvmError>)

  /** A required field: its value, or a stop at the calls made so far with `MissingField`. */
  function Field<T>(done: seq<Call>, evt: string, f: Option<T>, name: string): (r: Result<T, Stop>)
    ensures f.Some? <==> r.Ok?
    ensures f.Some? ==> r.value == f.value
    ensures f.None? ==> r.error == (done, MissingField(evt, name))
  {
    match f
    case Some(v) => Ok(v)
    case None => Err((done, MissingField(evt, name)))
  }

  /** Closes a parse: a stop keeps its calls and reports its error. */
  function Finish(r: Result<seq<Call>, Stop>): (o: Outcome)
    ensures r.Ok? ==> o == Outcome(r.value, None)
    ensures r.Err? ==> o == Outcome(r.error.0, Some(r.error.1))
  {
    match r
    case Ok(cs) => Outcome(cs, None)
    case Err((cs, e)) => Outcome(cs, Some(e))
  }

  /** The flow calls among `a` are exactly the calls of `fs`. */
  ghost predicate FlowsAre(a: seq<Call>, fs: seq<Call>)
  {
    forall c :: c in a && c.Flow? <==> c in fs
  }

  /** The flows a call sequence records, in order. */
  function Flows(cs: seq<Call>): (r: seq<Call>)
    ensures |r| <= |cs|
    ensures forall i :: 0 <= i < |r| ==> r[i].Flow?
  {
    if cs == [] then [] else (if cs[0].Flow? then [cs[0]] else []) + Flows(cs[1..])
  }

  lemma {:induction false} FlowsConcat(a: seq<Call>, b: seq<Call>)
    ensures Flows(a + b) == Flows(a) + Flows(b)
  {
    if a == [] {
      assert a + b == b;
    } else {
      assert (a + b)[0] == a[0];
      assert (a + b)[1..] == a[1..] + b;
      FlowsConcat(a[1..], b);
    }
  }

  /** Every flow of a sequence is one of its calls, and every flow call is kept. */
  lemma {:induction false} FlowsExact(cs: seq<Call>, c: Call)
    ensures c in Flows(cs) <==> c in cs && c.Flow?
  {
    if cs != [] {
      FlowsExact(cs[1..], c);
      assert cs == [cs[0]] + cs[1..];
    }
  }
}
