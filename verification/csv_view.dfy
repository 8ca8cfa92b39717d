/**
 * The CSV export view: it keeps the last version of every node and
 * relationship, keyed by output file and database id, and at the end writes
 * one CSV file per node kind and type (and per relationship kind), each with
 * a header row before its first record. Quoted fields follow rule 7 of
 * section 2 of RFC 4180: the field is enclosed in double quotes and every
 * double quote inside it is doubled.
 *
 * The archive, the hydration script and the text of unquoted numbers are not
 * modelled: a record is its list of fields. Values computed by code outside
 * this file (a UUID's text, the metadata's JSON, a metadata key's current
 * value) are carried as fields of the node.
 */
module CsvView {
  import opened Ints
  import opened Wrappers
  import Glue = Neo4jGlue

  // ------------------------------------------------------------- quoting

  /** The field body with every double quote doubled. */
  function Escape(s: string): (r: string)
    ensures |r| >= |s|
  {
    if s == [] then []
    else (if s[0] == '"' then "\"\"" else [s[0]]) + Escape(s[1..])
  }

  /**
   * Reading a quoted body back: a doubled quote is one quote; a lone quote
   * cannot occur inside a quoted field.
   */
  function Unescape(b: string): (r: Option<string>)
    decreases |b|
  {
    if b == [] then Some([])
    else if b[0] != '"' then
      match Unescape(b[1..])
      case Some(t) => Some([b[0]] + t)
      case None => None
    else if |b| >= 2 && b[1] == '"' then
      match Unescape(b[2..])
      case Some(t) => Some("\"" + t)
      case None => None
    else None
  }

  /** Un-doubling recovers the original text exactly. */
  lemma {:induction false} UnescapeEscape(s: string)
    ensures Unescape(Escape(s)) == Some(s)
  {
    if s != [] {
      UnescapeEscape(s[1..]);
      if s[0] == '"' {
        assert Escape(s)[2..] == Escape(s[1..]);
        assert "\"" + s[1..] == s;
      } else {
        assert Escape(s)[1..] == Escape(s[1..]);
        assert [s[0]] + s[1..] == s;
      }
    }
  }

  /** And a body that reads back is exactly the doubling of what it reads as. */
  lemma {:induction false} EscapeUnescape(b: string, s: string)
    requires Unescape(b) == Some(s)
    ensures Escape(s) == b
    decreases |b|
  {
    if b != [] {
      if b[0] != '"' {
        var t := Unescape(b[1..]).value;
        EscapeUnescape(b[1..], t);
        assert s == [b[0]] + t && s[1..] == t;
        assert [b[0]] + b[1..] == b;
      } else {
        var t := Unescape(b[2..]).value;
        EscapeUnescape(b[2..], t);
        assert s == "\"" + t && s[1..] == t;
        assert "\"\"" + b[2..] == b;
      }
    }
  }

  /** `write_str`: a comma, then the text quoted. */
  function WriteStr(s: string): (r: string)
    ensures |r| >= 3 && r[..2] == ",\"" && r[|r| - 1] == '"'
  {
    ",\"" + Escape(s) + "\""
  }

  /** Reading a field written by `WriteStr`. */
  function ReadQuoted(t: string): (r: Option<string>)
  {
    if |t| >= 3 && t[..2] == ",\"" && t[|t| - 1] == '"' then Unescape(t[2..|t| - 1]) else None
  }

  /** What `WriteStr` writes reads back as the original text. */
  lemma WriteStrRoundTrip(s: string)
    ensures ReadQuoted(WriteStr(s)) == Some(s)
  {
    assert WriteStr(s)[2..|WriteStr(s)| - 1] == Escape(s);
    UnescapeEscape(s);
  }

  /** Distinct texts are written differently. */
  lemma WriteStrInjective(s: string, t: string)
    ensures WriteStr(s) == WriteStr(t) <==> s == t
  {
    WriteStrRoundTrip(s);
    WriteStrRoundTrip(t);
  }

  // ------------------------------------------------------------- numbers

  /** `format_u64`: the unsigned id's bits read as a signed 64-bit integer. */
  function FormatU64(v: u64): (r: i64)
    ensures v < TWO_63 ==> r == v
    ensures v >= TWO_63 ==> r == v - TWO_64
  {
    ToI64(v)
  }

  /** The reinterpretation loses nothing: reading the bits back as unsigned gives the id. */
  lemma FormatU64RoundTrip(v: u64)
    ensures ToU64(FormatU64(v)) == v
  {
  }

  // ------------------------------------------------------------- records

  /** The node roles this view writes; each has its own file prefix and label. */
  datatype DataType = Actor | Store | Conduit | EditSession | StoreCont

  function TypeName(t: DataType): string
  {
    match t
    case Actor => "Actor"
    case Store => "Store"
    case Conduit => "Conduit"
    case EditSession => "EditSession"
    case StoreCont => "StoreCont"
  }

  /**
   * The nodes as this view sees them. A data node carries, per property of
   * its type, the key and the metadata's current value for it; a context
   * node carries, per field of its type, the name and its content.
   */
  datatype Node =
    | Data(id: u64, pvmTy: DataType, tyName: string, uuidText: string, metaJson: string, props: seq<(string, Option<string>)>)
    | Ctx(id: u64, tyName: string, cont: seq<(string, string)>)
    | PathName(id: u64, path: string)
    | NetName(id: u64, addr: string, port: u16)
    | SchemaData(id: u64, tyName: string, base: DataType, keys: seq<string>)
    | SchemaCtx(id: u64, tyName: string, fields: seq<string>)

  datatype Rel =
    | Inf(id: u64, src: u64, dst: u64, op: Glue.PvmOp, ctx: u64, byteCount: u64)
    | Named(id: u64, src: u64, dst: u64, start: u64, end: u64)

  function Prefix(t: DataType): string
  {
    match t
    case Actor => "actor_"
    case Store => "store_"
    case Conduit => "conduit_"
    case EditSession => "es_"
    case StoreCont => "cont_"
  }

  /** The file a node is written to. */
  function FName(n: Node): (r: string)
    ensures |r| >= 4 && r[|r| - 4..] == ".csv"
  {
    match n
    case Data(_, t, name, _, _, _) => Prefix(t) + name + ".csv"
    case Ctx(_, name, _) => "ctx_" + name + ".csv"
    case PathName(_, _) => "paths.csv"
    case NetName(_, _, _) => "net.csv"
    case SchemaData(_, _, _, _) => "schema.csv"
    case SchemaCtx(_, _, _) => "schema.csv"
  }

  /** What decides a node's file: its kind, and for data and context nodes its type. */
  datatype FileClass = DataFile(t: DataType, name: string) | CtxFile(name: string) | PathsFile | NetFile | SchemaFile

  function ClassOf(n: Node): FileClass
  {
    match n
    case Data(_, t, name, _, _, _) => DataFile(t, name)
    case Ctx(_, name, _) => CtxFile(name)
    case PathName(_, _) => PathsFile
    case NetName(_, _, _) => NetFile
    case SchemaData(_, _, _, _) => SchemaFile
    case SchemaCtx(_, _, _) => SchemaFile
  }

  predicate StartsWith(s: string, p: string)
  {
    |p| <= |s| && s[..|p|] == p
  }

  /** Reading the file class back from a file name. */
  function ParseFName(f: string): Option<FileClass>
  {
    if f == "paths.csv" then Some(PathsFile)
    else if f == "net.csv" then Some(NetFile)
    else if f == "schema.csv" then Some(SchemaFile)
    else if |f| < 4 || f[|f| - 4..] != ".csv" then None
    else
      var stem := f[..|f| - 4];
      if StartsWith(stem, "actor_") then Some(DataFile(Actor, stem[6..]))
      else if StartsWith(stem, "store_") then Some(DataFile(Store, stem[6..]))
      else if StartsWith(stem, "conduit_") then Some(DataFile(Conduit, stem[8..]))
      else if StartsWith(stem, "es_") then Some(DataFile(EditSession, stem[3..]))
      else if StartsWith(stem, "cont_") then Some(DataFile(StoreCont, stem[5..]))
      else if StartsWith(stem, "ctx_") then Some(CtxFile(stem[4..]))
      else None
  }

  /** Two strings that differ at a position inside both prefixes differ. */
  lemma PrefixesDiffer(p: string, x: string, q: string, y: string, i: nat)
    requires i < |p| && i < |q| && p[i] != q[i]
    ensures p + x != q + y
  {
    assert (p + x)[i] == p[i];
    assert (q + y)[i] == q[i];
  }

  /** A text that starts with `p` does not start with a `q` that differs from `p` at `i`. */
  lemma NotStarts(stem: string, p: string, q: string, i: nat)
    requires StartsWith(stem, p) && i < |p| && i < |q| && p[i] != q[i]
    ensures !StartsWith(stem, q)
  {
    assert stem[i] == p[i];
  }

  /** The name of a data or context node's file reads back as its kind and type name. */
  lemma ParseTypedFName(p: string, name: string, c: FileClass)
    requires (p, c) in {("actor_", DataFile(Actor, name)), ("store_", DataFile(Store, name)),
                        ("conduit_", DataFile(Conduit, name)), ("es_", DataFile(EditSession, name)),
                        ("cont_", DataFile(StoreCont, name)), ("ctx_", CtxFile(name))}
    ensures ParseFName(p + name + ".csv") == Some(c)
  {
    var f := p + name + ".csv";
    assert f[..|p|] == p;
    PrefixesDiffer(p, name + ".csv", "paths.csv", [], 0);
    PrefixesDiffer(p, name + ".csv", "net.csv", [], 0);
    if p == "store_" {
      PrefixesDiffer(p, name + ".csv", "schema.csv", [], 1);
    } else {
      PrefixesDiffer(p, name + ".csv", "schema.csv", [], 0);
    }
    assert f == p + name + ".csv" + [] && "paths.csv" == "paths.csv" + [];
    assert f[..|f| - 4] == p + name;
    assert f[|f| - 4..] == ".csv";
    var stem := p + name;
    assert stem[..|p|] == p && stem[|p|..] == name;
    if p != "actor_" {
      NotStarts(stem, p, "actor_", 0);
    }
    if p !in {"actor_", "store_"} {
      NotStarts(stem, p, "store_", 0);
    }
    if p == "es_" {
      NotStarts(stem, p, "conduit_", 0);
    } else if p == "cont_" {
      NotStarts(stem, p, "conduit_", 3);
      NotStarts(stem, p, "es_", 0);
    } else if p == "ctx_" {
      NotStarts(stem, p, "conduit_", 1);
      NotStarts(stem, p, "es_", 0);
      NotStarts(stem, p, "cont_", 1);
    }
  }

  /** A node's file name reads back as its file class. */
  lemma FNameRoundTrip(n: Node)
    ensures ParseFName(FName(n)) == Some(ClassOf(n))
  {
    match n
    case Data(_, t, name, _, _, _) => ParseTypedFName(Prefix(t), name, DataFile(t, name));
    case Ctx(_, name, _) => ParseTypedFName("ctx_", name, CtxFile(name));
    case PathName(_, _) =>
    case NetName(_, _, _) =>
    case SchemaData(_, _, _, _) =>
    case SchemaCtx(_, _, _) =>
  }

  /**
   * Two nodes share a file exactly when they have the same kind and, for
   * data and context nodes, the same type name.
   */
  lemma SameFileSameClass(a: Node, b: Node)
    ensures FName(a) == FName(b) <==> ClassOf(a) == ClassOf(b)
  {
    FNameRoundTrip(a);
    FNameRoundTrip(b);
  }

  /** A node's label list, `;`-separated. */
  function Lab(n: Node): (r: string)
    ensures StartsWith(r, "Node;")
  {
    match n
    case Data(_, t, _, _, _, _) => "Node;" + TypeName(t)
    case Ctx(_, _, _) => "Node;Context"
    case PathName(_, _) => "Node;Name;Path"
    case NetName(_, _, _) => "Node;Name;Net"
    case SchemaData(_, _, _, _) => "Node;Schema"
    case SchemaCtx(_, _, _) => "Node;Schema"
  }

  /** Nodes in one file carry one label; data nodes of different roles carry different labels. */
  lemma LabelsFollowFiles(a: Node, b: Node)
    ensures FName(a) == FName(b) ==> Lab(a) == Lab(b)
    ensures a.Data? && b.Data? ==> (Lab(a) == Lab(b) <==> a.pvmTy == b.pvmTy)
  {
    SameFileSameClass(a, b);
  }

  function RelFName(r: Rel): string
  {
    match r
    case Inf(_, _, _, _, _, _) => "inf.csv"
    case Named(_, _, _, _, _) => "named.csv"
  }

  function RelLab(r: Rel): string
  {
    match r
    case Inf(_, _, _, _, _, _) => "INF"
    case Named(_, _, _, _, _) => "NAMED"
  }

  /** Relationship files hold one kind each, and the kind gives the type column. */
  lemma RelFilesByKind(a: Rel, b: Rel)
    ensures RelFName(a) == RelFName(b) <==> a.Inf? == b.Inf?
    ensures RelFName(a) == RelFName(b) <==> RelLab(a) == RelLab(b)
  {
  }

  // ------------------------------------------------------- aggregation

  /** The last item seen per output file and id. */
  function Collect<X>(xs: seq<X>, file: X -> string, key: X -> u64): (r: map<string, map<u64, X>>)
    decreases |xs|
    ensures forall f, k :: f in r && k in r[f] ==> r[f][k] in xs && file(r[f][k]) == f && key(r[f][k]) == k
  {
    if xs == [] then map[]
    else
      var prev := Collect(xs[..|xs| - 1], file, key);
      var x := xs[|xs| - 1];
      var f := file(x);
      var inner := if f in prev then prev[f] else map[];
      prev[f := inner[key(x) := x]]
  }

  /** An item no later item shares a file and id with is the one kept. */
  lemma {:induction false} LastWriteWins<X>(xs: seq<X>, file: X -> string, key: X -> u64, i: nat)
    requires i < |xs|
    requires forall k :: i < k < |xs| ==> file(xs[k]) != file(xs[i]) || key(xs[k]) != key(xs[i])
    ensures var r := Collect(xs, file, key);
      file(xs[i]) in r && key(xs[i]) in r[file(xs[i])] && r[file(xs[i])][key(xs[i])] == xs[i]
    decreases |xs|
  {
    if i < |xs| - 1 {
      var init := xs[..|xs| - 1];
      assert forall k :: i < k < |init| ==> init[k] == xs[k];
      LastWriteWins(init, file, key, i);
    }
  }

  /** Every item that arrived is represented in its file under its id. */
  lemma {:induction false} CollectCovers<X>(xs: seq<X>, file: X -> string, key: X -> u64, i: nat)
    requires i < |xs|
    ensures file(xs[i]) in Collect(xs, file, key) && key(xs[i]) in Collect(xs, file, key)[file(xs[i])]
    decreases |xs|
  {
    if i < |xs| - 1 {
      var init := xs[..|xs| - 1];
      assert init[i] == xs[i];
      CollectCovers(init, file, key, i);
    }
  }

  /** The view's input: creations and updates are stored alike. */
  datatype Event = CreateNode(n: Node) | UpdateNode(n: Node) | CreateRel(r: Rel) | UpdateRel(r: Rel)

  function NodesOf(es: seq<Event>): (r: seq<Node>)
    ensures |r| <= |es|
  {
    if es == [] then []
    else (if es[0].CreateNode? || es[0].UpdateNode? then [es[0].n] else []) + NodesOf(es[1..])
  }

  function RelsOf(es: seq<Event>): (r: seq<Rel>)
    ensures |r| <= |es|
  {
    if es == [] then []
    else (if es[0].CreateRel? || es[0].UpdateRel? then [es[0].r] else []) + RelsOf(es[1..])
  }

  function NodeId(n: Node): u64 { n.id }

  function RelId(r: Rel): u64 { r.id }

  /** The node and relationship tables the stream leaves behind. */
  function Aggregate(es: seq<Event>): (map<string, map<u64, Node>>, map<string, map<u64, Rel>>)
  {
    (Collect(NodesOf(es), FName, NodeId), Collect(RelsOf(es), RelFName, RelId))
  }

  // ------------------------------------------------------------- output

  /** A written field: an unquoted number or text, a quoted text or number, or nothing. */
  datatype Field = Num(i: int) | Text(s: string) | Quoted(s: string) | QuotedNum(i: int) | Blank

  /** The header columns the first record of a node file selects. */
  function Header(n: Node): seq<string>
  {
    ["db_id:ID", ":LABEL"] +
    match n
    case Data(_, _, _, _, _, props) => ["uuid", "ty", "meta_hist"] + seq(|props|, i requires 0 <= i < |props| => props[i].0)
    case Ctx(_, _, cont) => ["ty"] + seq(|cont|, i requires 0 <= i < |cont| => cont[i].0)
    case PathName(_, _) => ["path"]
    case NetName(_, _, _) => ["addr", "port:int"]
    case SchemaData(_, _, _, _) => ["name", "base", "props:string[]"]
    case SchemaCtx(_, _, _) => ["name", "base", "props:string[]"]
  }

  function Join(xs: seq<string>, sep: string): string
  {
    if xs == [] then "" else if |xs| == 1 then xs[0] else xs[0] + sep + Join(xs[1..], sep)
  }

  /** A node's record: its id and label, then its kind's fields. */
  function Row(n: Node): seq<Field>
  {
    [Num(FormatU64(n.id)), Text(Lab(n))] +
    match n
    case Data(_, _, name, uuid, meta, props) =>
      [Text(uuid), Text(name), Quoted(meta)]
      + seq(|props|, i requires 0 <= i < |props| => if props[i].1.Some? then Quoted(props[i].1.value) else Blank)
    case Ctx(_, name, cont) => [Text(name)] + seq(|cont|, i requires 0 <= i < |cont| => Text(cont[i].1))
    case PathName(_, path) => [Quoted(path)]
    case NetName(_, addr, port) => [Quoted(addr), Num(port)]
    case SchemaData(_, name, base, keys) => [Quoted(name), Text(TypeName(base)), Text(Join(keys, ";"))]
    case SchemaCtx(_, name, fields) => [Quoted(name), Text("Context"), Text(Join(fields, ";"))]
  }

  /** Every node's record has one field per column of the header it selects. */
  lemma RowFitsHeader(n: Node)
    ensures |Row(n)| == |Header(n)|
    ensures Row(n)[0] == Num(FormatU64(n.id)) && Row(n)[1] == Text(Lab(n))
  {
  }

  function RelHeader(r: Rel): seq<string>
  {
    ["db_id", ":START_ID", ":END_ID", ":TYPE"] +
    match r
    case Inf(_, _, _, _, _, _) => ["pvm_op", "ctx:long", "byte_count:long"]
    case Named(_, _, _, _, _) => ["start:long", "end:long"]
  }

  function RelRow(r: Rel): seq<Field>
  {
    [Num(FormatU64(r.id)), Num(FormatU64(r.src)), Num(FormatU64(r.dst)), Text(RelLab(r))] +
    match r
    case Inf(_, _, _, op, ctx, bytes) => [Text(Glue.OpVal(op).s), QuotedNum(FormatU64(ctx)), Num(bytes)]
    case Named(_, _, _, start, end) => [Num(FormatU64(start)), QuotedNum(FormatU64(end))]
  }

  /** Every relationship's record has one field per column of its header. */
  lemma RelRowFitsHeader(r: Rel)
    ensures |RelRow(r)| == |RelHeader(r)|
  {
  }

  datatype Line = HeaderLine(cols: seq<string>) | Record(fields: seq<Field>) | EmptyLine

  /** A node's lines: its record, and after a context node's record an empty line. */
  function NodeLines(n: Node): seq<Line>
  {
    if n.Ctx? then [Record(Row(n)), EmptyLine] else [Record(Row(n))]
  }

  function Records(ls: seq<Line>): nat
  {
    if ls == [] then 0 else (if ls[0].Record? then 1 else 0) + Records(ls[1..])
  }

  lemma {:induction false} RecordsConcat(a: seq<Line>, b: seq<Line>)
    ensures Records(a + b) == Records(a) + Records(b)
  {
    if a == [] {
      assert a + b == b;
    } else {
      assert (a + b)[0] == a[0];
      assert (a + b)[1..] == a[1..] + b;
      RecordsConcat(a[1..], b);
    }
  }

  /** The lines of a file's records, in the order the table yields them. */
  function Body(ns: seq<Node>): (r: seq<Line>)
    ensures forall i :: 0 <= i < |r| ==> !r[i].HeaderLine?
    ensures Records(r) == |ns|
    ensures ns != [] ==> r[0] == Record(Row(ns[0]))
  {
    if ns == [] then []
    else
      var rest := Body(ns[1..]);
      RecordsConcat(NodeLines(ns[0]), rest);
      NodeLines(ns[0]) + rest
  }

  /**
   * A node file: the header selected by its first record, then every
   * record. `ns` is the file's table in the order it is iterated, which is
   * unspecified.
   */
  function NodeFile(ns: seq<Node>): (r: seq<Line>)
    ensures ns == [] <==> r == []
    ensures ns != [] ==> |r| >= 2 && r[0] == HeaderLine(Header(ns[0])) && r[1] == Record(Row(ns[0]))
    ensures forall i :: 0 < i < |r| ==> !r[i].HeaderLine?
    ensures Records(r) == |ns|
  {
    if ns == [] then []
    else
      var b := Body(ns);
      RecordsConcat([HeaderLine(Header(ns[0]))], b);
      [HeaderLine(Header(ns[0]))] + b
  }

  /** A relationship file: the header selected by its first record, then one line per record. */
  function RelFile(rs: seq<Rel>): (r: seq<Line>)
    ensures rs == [] <==> r == []
    ensures rs != [] ==> |r| == |rs| + 1 && r[0] == HeaderLine(RelHeader(rs[0]))
    ensures forall i :: 0 < i < |r| ==> r[i] == Record(RelRow(rs[i - 1]))
  {
    if rs == [] then []
    else [HeaderLine(RelHeader(rs[0]))] + seq(|rs|, i requires 0 <= i < |rs| => Record(RelRow(rs[i])))
  }
}
