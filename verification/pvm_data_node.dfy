/**
 * The data library's typed graph nodes: a data node pairs its PVM role
 * (actor, store, conduit, ...) with a concrete type that names the role it
 * was declared for, and carries a metadata store; a name node is a path or
 * a network address. Times in the metadata are the type parameter `T`.
 */
module PvmDataNode {
  import opened Ints
  import opened Wrappers
  import MS = MetaStore

  datatype PvmDataType = Actor | Store | Conduit | EditSession | Object | StoreCont

  /** The role's name as displayed (and as its debug form). */
  function TypeName(t: PvmDataType): (r: string)
  {
    match t
    case Actor => "Actor"
    case Store => "Store"
    case Conduit => "Conduit"
    case EditSession => "EditSession"
    case Object => "Object"
    case StoreCont => "StoreCont"
  }

  /** Distinct roles display differently, so the displayed name identifies the role. */
  lemma TypeNameInjective(a: PvmDataType, b: PvmDataType)
    ensures TypeName(a) == TypeName(b) <==> a == b
  {
  }

  /** A concrete type: the role it belongs to, its name, and its property table. */
  datatype ConcreteType = ConcreteType(pvmTy: PvmDataType, name: string, props: map<string, bool>)

  /** Concrete types are compared by name alone. */
  predicate ConcreteEq(a: ConcreteType, b: ConcreteType)
  {
    a.name == b.name
  }

  /** ... and hashed by name alone. */
  function ConcreteHash(a: ConcreteType): string
  {
    a.name
  }

  /**
   * Name-only equality is an equivalence that agrees with the hash, and it
   * ignores the role and the property table.
   */
  lemma ConcreteEqLaws(a: ConcreteType, b: ConcreteType, c: ConcreteType)
    ensures ConcreteEq(a, a)
    ensures ConcreteEq(a, b) ==> ConcreteEq(b, a) && ConcreteHash(a) == ConcreteHash(b)
    ensures ConcreteEq(a, b) && ConcreteEq(b, c) ==> ConcreteEq(a, c)
    ensures ConcreteEq(a, a.(pvmTy := b.pvmTy, props := b.props))
  {
  }

  datatype DataNode<T> = DataNode(pvmTy: PvmDataType, ty: ConcreteType, id: u64, uuid: u128, meta: MS.Store<T>)

  /**
   * Which roles a concrete type admits: an edit session or a store
   * container must be built on a store type; every other role must be the
   * type's own.
   */
  predicate Admits(pvmType: PvmDataType, ty: ConcreteType)
  {
    if pvmType == EditSession || pvmType == StoreCont then ty.pvmTy == Store else ty.pvmTy == pvmType
  }

  /** The escape `{:?}` writes for one character of a string. */
  function DebugChar(c: char): (r: string)
    ensures |r| >= 1
    ensures r != [c] <==> c in "\"\\\t\r\n\0"
  {
    if c == '"' then "\\\""
    else if c == '\\' then "\\\\"
    else if c == '\t' then "\\t"
    else if c == '\r' then "\\r"
    else if c == '\n' then "\\n"
    else if c == '\0' then "\\0"
    else [c]
  }

  function DebugChars(s: string): (r: string)
    ensures |r| >= |s|
    decreases |s|
  {
    if s == [] then [] else DebugChar(s[0]) + DebugChars(s[1..])
  }

  /** `{:?}` of a string: quoted, with quotes, backslashes and the common control characters escaped. */
  function DebugStr(s: string): (r: string)
    ensures |r| >= |s| + 2 && r[0] == '"' && r[|r| - 1] == '"'
  {
    "\"" + DebugChars(s) + "\""
  }

  /** A string with nothing to escape is written between quotes unchanged. */
  lemma DebugPlain(s: string)
    requires forall i :: 0 <= i < |s| ==> s[i] !in "\"\\\t\r\n\0"
    ensures DebugStr(s) == "\"" + s + "\""
  {
    DebugCharsPlain(s);
  }

  lemma {:induction false} DebugCharsPlain(s: string)
    requires forall i :: 0 <= i < |s| ==> s[i] !in "\"\\\t\r\n\0"
    ensures DebugChars(s) == s
    decreases |s|
  {
    if s != [] {
      DebugCharsPlain(s[1..]);
      assert DebugChar(s[0]) == [s[0]];
      assert [s[0]] + s[1..] == s;
    }
  }

  /** An embedded quote is escaped, so it cannot end the quoted name early. */
  lemma DebugEscapesQuote()
    ensures DebugStr("a\"b") == "\"a\\\"b\""
  {
    assert DebugChars("a\"b") == DebugChar('a') + DebugChar('"') + DebugChar('b');
  }

  function Mismatch(pvmType: PvmDataType, ty: ConcreteType): string
  {
    "Invalid PVMDataType for given ConcreteType: " + DebugStr(ty.name) + " cannot be a " + TypeName(pvmType) + "."
  }

  /**
   * A data node with the given role, type, id and UUID; the metadata
   * defaults to an empty store. A role the type does not admit panics.
   */
  function DataNew<T>(pvmType: PvmDataType, ty: ConcreteType, id: u64, uuid: u128, meta: Option<MS.Store<T>>): (r: Result<DataNode<T>, string>)
    ensures r.Ok? <==> (if pvmType in {EditSession, StoreCont} then ty.pvmTy == Store else ty.pvmTy == pvmType)
    ensures r.Err? ==> r.error == Mismatch(pvmType, ty)
    ensures r.Ok? ==> r.value.pvmTy == pvmType && r.value.ty == ty && r.value.id == id && r.value.uuid == uuid
    ensures r.Ok? && meta.None? ==> r.value.meta.entries == map[] && r.value.meta.timeList == []
    ensures r.Ok? && meta.Some? ==> r.value.meta == meta.value
  {
    if !Admits(pvmType, ty) then Err(Mismatch(pvmType, ty))
    else Ok(DataNode(pvmType, ty, id, uuid, meta.UnwrapOr(MS.New())))
  }

  /**
   * A store type admits exactly the store-like roles; a type declared as an
   * edit session or store container admits none, not even its own; any
   * other type admits only its own role.
   */
  lemma AdmittedRoles(ty: ConcreteType, t: PvmDataType)
    ensures ty.pvmTy == Store ==> (DataNew<int>(t, ty, 0, 0, None).Ok? <==> t in {Store, EditSession, StoreCont})
    ensures ty.pvmTy in {EditSession, StoreCont} ==> DataNew<int>(t, ty, 0, 0, None).Err?
    ensures ty.pvmTy !in {Store, EditSession, StoreCont} ==> (DataNew<int>(t, ty, 0, 0, None).Ok? <==> t == ty.pvmTy)
  {
  }

  datatype Name = Path(path: string) | Net(addr: string, port: u16)

  datatype NameNode = PathNode(nid: u64, path: string) | NetNode(nid: u64, addr: string, port: u16)

  /** A name node carries the id it was generated with and the name it was generated from. */
  function Generate(id: u64, init: Name): (r: NameNode)
    ensures r.nid == id
    ensures init.Path? <==> r.PathNode?
  {
    match init
    case Path(s) => PathNode(id, s)
    case Net(s, p) => NetNode(id, s, p)
  }

  /** The name a name node stands for. */
  function NameOf(n: NameNode): Name
  {
    match n
    case PathNode(_, s) => Path(s)
    case NetNode(_, s, p) => Net(s, p)
  }

  /** Generation keeps the payload: the node's name is the name it was generated from. */
  lemma GenerateRoundTrip(id: u64, init: Name)
    ensures NameOf(Generate(id, init)) == init && Generate(id, init).nid == id
  {
  }

  datatype Node<T> = Data(d: DataNode<T>) | NameN(n: NameNode)

  /** A graph node's database id, whichever kind it is. */
  function GetDbId<T>(n: Node<T>): (r: u64)
    ensures n.Data? ==> r == n.d.id
    ensures n.NameN? ==> r == n.n.nid
  {
    match n
    case Data(d) => d.id
    case NameN(m) => m.nid
  }
}
