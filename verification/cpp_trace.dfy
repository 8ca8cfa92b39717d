/**
 * The C++ streaming trace reader: a SAX handler driven by a JSON tokenizer.
 * The tokenizer is outside the model; its output is a sequence of `Token`s
 * and the handler is a fold over them. Every handler callback returns a
 * boolean and the tokenizer stops at the first `false`; a callback that
 * would dereference a null record or write through an uninitialised pointer
 * is undefined behaviour and is modelled as the `Undefined` outcome.
 */
module CppTrace {
  import opened Ints
  import opened Wrappers

  /** The members of a trace record, in declaration order. */
  datatype Field =
    | Event | Host | Time | Pid | Ppid | Tid | Uid | Exec | Cmdline
    | Upath1 | Upath2 | Address | Fd | Flags | Fdpath
    | SubjProcUuid | SubjThrUuid | ArgObjUuid1 | ArgObjUuid2
    | RetObjUuid1 | RetObjUuid2 | Retval

  /** The enumerator value of a field, as the header spells it out. */
  function Bit(f: Field): bv32
  {
    match f
    case Event => 0x1 case Host => 0x2 case Time => 0x4
    case Pid => 0x8 case Ppid => 0x10 case Tid => 0x20
    case Uid => 0x40 case Exec => 0x80 case Cmdline => 0x100
    case Upath1 => 0x200 case Upath2 => 0x400 case Address => 0x800
    case Fd => 0x1000 case Flags => 0x2000 case Fdpath => 0x4000
    case SubjProcUuid => 0x8000 case SubjThrUuid => 0x10000
    case ArgObjUuid1 => 0x20000 case ArgObjUuid2 => 0x40000
    case RetObjUuid1 => 0x80000 case RetObjUuid2 => 0x100000
    case Retval => 0x200000
  }

  /** The fields every accepted record must have carried. */
  const RequiredFields: set<Field> :=
    {Event, Time, Pid, Ppid, Tid, Uid, SubjProcUuid, SubjThrUuid, Retval}

  const Required: bv32 :=
    Bit(Event) | Bit(Time) | Bit(Pid) | Bit(Ppid) | Bit(Tid) | Bit(Uid)
    | Bit(SubjProcUuid) | Bit(SubjThrUuid) | Bit(Retval)

  predicate SingleBit(b: bv32) { b != 0 && b & (b - 1) == 0 }

  /** Each enumerator is a single bit, and no two enumerators share a bit. */
  lemma BitsAreDistinctSingleBits()
    ensures forall f: Field :: SingleBit(Bit(f))
    ensures forall f: Field, g: Field :: f != g ==> Bit(f) & Bit(g) == 0
  {
    forall f: Field ensures SingleBit(Bit(f)) {
      BitIsSingle(f);
    }
    forall f: Field, g: Field | f != g ensures Bit(f) & Bit(g) == 0 {
      BitsOfDistinctIndices(f, g);
    }
  }

  lemma BitIsSingle(f: Field)
    ensures SingleBit(Bit(f))
  {
    match f
    case Event => case Host => case Time => case Pid => case Ppid =>
    case Tid => case Uid => case Exec => case Cmdline => case Upath1 =>
    case Upath2 => case Address => case Fd => case Flags => case Fdpath =>
    case SubjProcUuid => case SubjThrUuid => case ArgObjUuid1 =>
    case ArgObjUuid2 => case RetObjUuid1 => case RetObjUuid2 => case Retval =>
  }

  lemma BitsOfDistinctIndices(f: Field, g: Field)
    requires f != g
    ensures Bit(f) & Bit(g) == 0
  {
    BitIsSingle(f);
    BitIsSingle(g);
    BitDecodes(f);
    BitDecodes(g);
    SingleBitsDisjoint(Bit(f), Bit(g));
  }

  /** The field an enumerator value stands for. */
  function FieldOfBit(b: bv32): Option<Field>
  {
    if b == 0x1 then Some(Event) else if b == 0x2 then Some(Host)
    else if b == 0x4 then Some(Time) else if b == 0x8 then Some(Pid)
    else if b == 0x10 then Some(Ppid) else if b == 0x20 then Some(Tid)
    else if b == 0x40 then Some(Uid) else if b == 0x80 then Some(Exec)
    else if b == 0x100 then Some(Cmdline) else if b == 0x200 then Some(Upath1)
    else if b == 0x400 then Some(Upath2) else if b == 0x800 then Some(Address)
    else if b == 0x1000 then Some(Fd) else if b == 0x2000 then Some(Flags)
    else if b == 0x4000 then Some(Fdpath) else if b == 0x8000 then Some(SubjProcUuid)
    else if b == 0x10000 then Some(SubjThrUuid) else if b == 0x20000 then Some(ArgObjUuid1)
    else if b == 0x40000 then Some(ArgObjUuid2) else if b == 0x80000 then Some(RetObjUuid1)
    else if b == 0x100000 then Some(RetObjUuid2) else if b == 0x200000 then Some(Retval)
    else None
  }

  /** Each enumerator value names its field back, so no two fields share one. */
  lemma BitDecodes(f: Field)
    ensures FieldOfBit(Bit(f)) == Some(f)
  {
    match f
    case Event => case Host => case Time => case Pid => case Ppid =>
    case Tid => case Uid => case Exec => case Cmdline => case Upath1 =>
    case Upath2 => case Address => case Fd => case Flags => case Fdpath =>
    case SubjProcUuid => case SubjThrUuid => case ArgObjUuid1 =>
    case ArgObjUuid2 => case RetObjUuid1 => case RetObjUuid2 => case Retval =>
  }

  /** Two different single bits have no bit in common. */
  lemma SingleBitsDisjoint(a: bv32, b: bv32)
    requires SingleBit(a) && SingleBit(b) && a != b
    ensures a & b == 0
  {
  }

  /** A field's bit is in the required mask exactly when the field is required. */
  lemma RequiredMaskIsRequiredFields()
    ensures forall f: Field :: (Bit(f) & Required != 0) <==> f in RequiredFields
  {
    forall f: Field ensures (Bit(f) & Required != 0) <==> f in RequiredFields {
      match f
      case Event => case Host => case Time => case Pid => case Ppid =>
      case Tid => case Uid => case Exec => case Cmdline => case Upath1 =>
      case Upath2 => case Address => case Fd => case Flags => case Fdpath =>
      case SubjProcUuid => case SubjThrUuid => case ArgObjUuid1 =>
      case ArgObjUuid2 => case RetObjUuid1 => case RetObjUuid2 => case Retval =>
    }
  }

  /** The record under construction; numeric members start at zero. */
  datatype TraceEvent = TraceEvent(
    event: string, host: string, time: u64,
    pid: u32, ppid: u32, tid: u32, uid: u32,
    exec: string, cmdline: string, upath1: string, upath2: string,
    address: string, fd: i32, flags: i32, fdpath: string,
    subjprocuuid: string, subjthruuid: string,
    argObjuuid1: string, argObjuuid2: string,
    retObjuuid1: string, retObjuuid2: string,
    retval: u32)

  const ZeroEvent: TraceEvent :=
    TraceEvent("", "", 0, 0, 0, 0, 0, "", "", "", "", "", 0, 0, "",
               "", "", "", "", "", "", 0)

  datatype State = ExpectObjectStart | ExpectKeyOrEndObject | ExpectValue | IgnoreValue

  /**
   * Handler state: the parse state, the selected record member (none before
   * the first recognised key), the presence mask (as the set of fields whose
   * bit is set: the enumerators are distinct single bits), the record under
   * construction (none once it has been moved into the output) and the
   * output list, whose entries are null when a record was moved twice.
   */
  datatype Handler = Handler(
    state: State,
    selected: Option<Field>,
    mask: set<Field>,
    current: Option<TraceEvent>,
    events: seq<Option<TraceEvent>>)

  const Fresh: Handler := Handler(ExpectObjectStart, None, {}, None, [])

  /** The callbacks the tokenizer makes; the last five reach `Default()`. */
  datatype Token =
    | StartObject
    | EndObject
    | Key(name: string)
    | Str(text: string)
    | Int(i: i32)
    | Uint(u: u32)
    | Int64(l: i64)
    | Uint64(ul: u64)
    | Null
    | Bool(b: bool)
    | Double
    | StartArray
    | EndArray

  /** What a callback did: returned true, returned false, or had undefined behaviour. */
  datatype Outcome = Accepted(h: Handler) | Rejected(h: Handler) | Undefined

  /**
   * The UTF-8 bytes of one character. The tokenizer hands keys and strings
   * to the handler in UTF-8, so a key's length is its byte count.
   */
  function CharUtf8(c: char): (b: seq<u8>)
    ensures 1 <= |b| <= 4
    ensures |b| == 1 <==> c as int < 0x80
    ensures c as int < 0x80 ==> b[0] == c as int
    ensures forall i :: 0 <= i < |b| && c as int >= 0x80 ==> b[i] >= 0x80
  {
    var n := c as int;
    if n < 0x80 then [n]
    else if n < 0x800 then [0xC0 + n / 0x40, 0x80 + n % 0x40]
    else if n < 0x1_0000 then [0xE0 + n / 0x1000, 0x80 + (n / 0x40) % 0x40, 0x80 + n % 0x40]
    else [0xF0 + n / 0x4_0000, 0x80 + (n / 0x1000) % 0x40, 0x80 + (n / 0x40) % 0x40, 0x80 + n % 0x40]
  }

  /** The UTF-8 encoding of a text. */
  function Utf8(s: string): (b: seq<u8>)
    ensures |b| >= |s|
    decreases |s|
  {
    if s == [] then [] else CharUtf8(s[0]) + Utf8(s[1..])
  }

  /**
   * An ASCII text encodes to one byte per character; the bytes the key
   * switch reads are the characters' own codes.
   */
  lemma {:induction false} AsciiUtf8(s: string)
    requires forall i :: 0 <= i < |s| ==> s[i] as int < 0x80
    ensures |Utf8(s)| == |s|
    ensures forall i :: 0 <= i < |s| ==> Utf8(s)[i] == s[i] as int
    decreases |s|
  {
    if s != [] {
      AsciiUtf8(s[1..]);
      assert Utf8(s) == [s[0] as int] + Utf8(s[1..]);
      forall i | 0 <= i < |s| ensures Utf8(s)[i] == s[i] as int {
        if i > 0 {
          assert Utf8(s)[i] == Utf8(s[1..])[i - 1];
          assert s[1..][i - 1] == s[i];
        }
      }
    }
  }

  /** The three bytes the key switch can read, for an ASCII key. */
  lemma AsciiKeyBytes(s: string)
    requires forall i :: 0 <= i < |s| ==> s[i] as int < 0x80
    ensures KeyLength(s) == |s|
    ensures |s| > 0 ==> Utf8(s)[0] == s[0] as int
    ensures |s| > 5 ==> Utf8(s)[5] == s[5] as int
    ensures |s| > 11 ==> Utf8(s)[11] == s[11] as int
  {
    AsciiUtf8(s);
  }

  function Byte(c: char): u8
    requires c as int < 0x80
  {
    c as int
  }

  /**
   * The member a key's bytes select: dispatch on the byte count and then on
   * one discriminating byte. `None` for a handled length whose byte matches
   * nothing.
   */
  function KeyBytes(k: seq<u8>): Option<Field>
  {
    if |k| == 2 then (if k[0] == Byte('f') then Some(Fd) else None)
    else if |k| == 3 then
      (if k[0] == Byte('p') then Some(Pid) else if k[0] == Byte('t') then Some(Tid)
       else if k[0] == Byte('u') then Some(Uid) else None)
    else if |k| == 4 then
      (if k[0] == Byte('h') then Some(Host) else if k[0] == Byte('t') then Some(Time)
       else if k[0] == Byte('p') then Some(Ppid) else if k[0] == Byte('e') then Some(Exec)
       else None)
    else if |k| == 5 then
      (if k[0] == Byte('e') then Some(Event) else if k[0] == Byte('f') then Some(Flags) else None)
    else if |k| == 6 then
      (if k[5] == Byte('h') then Some(Fdpath) else if k[5] == Byte('1') then Some(Upath1)
       else if k[5] == Byte('2') then Some(Upath2) else if k[5] == Byte('l') then Some(Retval)
       else None)
    else if |k| == 7 then (if k[0] == Byte('c') then Some(Cmdline) else None)
    else if |k| == 11 then (if k[0] == Byte('s') then Some(SubjThrUuid) else None)
    else if |k| == 12 then
      (if k[0] == Byte('s') then Some(SubjProcUuid)
       else if k[0] == Byte('a') then (if k[11] == Byte('1') then Some(ArgObjUuid1) else Some(ArgObjUuid2))
       else if k[0] == Byte('r') then (if k[11] == Byte('1') then Some(RetObjUuid1) else Some(RetObjUuid2))
       else None)
    else None
  }

  /** The member a key selects, read from its UTF-8 bytes. */
  function KeyField(k: string): Option<Field>
  {
    KeyBytes(Utf8(k))
  }

  /** The length the key switch dispatches on: the key's byte count. */
  function KeyLength(k: string): nat
  {
    |Utf8(k)|
  }

  predicate HandledKeyLength(n: nat)
  {
    n == 2 || n == 3 || n == 4 || n == 5 || n == 6 || n == 7 || n == 11 || n == 12
  }

  /** The JSON key under which each member is written in a trace record. */
  function FieldName(f: Field): (n: string)
    ensures forall i :: 0 <= i < |n| ==> n[i] as int < 0x80
  {
    match f
    case Event => "event" case Host => "host" case Time => "time"
    case Pid => "pid" case Ppid => "ppid" case Tid => "tid" case Uid => "uid"
    case Exec => "exec" case Cmdline => "cmdline" case Upath1 => "upath1"
    case Upath2 => "upath2" case Address => "address" case Fd => "fd"
    case Flags => "flags" case Fdpath => "fdpath"
    case SubjProcUuid => "subjprocuuid" case SubjThrUuid => "subjthruuid"
    case ArgObjUuid1 => "arg_objuuid1" case ArgObjUuid2 => "arg_objuuid2"
    case RetObjUuid1 => "ret_objuuid1" case RetObjUuid2 => "ret_objuuid2"
    case Retval => "retval"
  }

  /**
   * The key dispatch recognises every member by its own name except
   * `address`, which no key selects; some foreign keys alias members.
   */
  lemma KeyDispatchRecognisesFieldNames()
    ensures forall f: Field :: f != Address ==> KeyField(FieldName(f)) == Some(f)
    ensures KeyField(FieldName(Address)) == None
    ensures forall k: string :: KeyField(k) != Some(Address)
  {
    forall f: Field | f != Address ensures KeyField(FieldName(f)) == Some(f) {
      NameSelects(f);
    }
    AddressSelectsNothing();
    NoKeySelectsAddress();
  }

  /** `address` has seven bytes and starts with `a`, which the seven-byte case does not take. */
  lemma AddressSelectsNothing()
    ensures KeyField(FieldName(Address)) == None
  {
    AsciiKeyBytes(FieldName(Address));
  }

  /** No branch of the switch selects the address member. */
  lemma NoKeySelectsAddress()
    ensures forall k: string :: KeyField(k) != Some(Address)
  {
  }

  /**
   * Keys outside the record alias members or select nothing: `port` selects
   * `ppid`, and `cpu_id` has a handled length but selects nothing.
   */
  lemma ForeignKeys()
    ensures KeyField("port") == Some(Ppid)
    ensures KeyField("cpu_id") == None && HandledKeyLength(KeyLength("cpu_id"))
  {
    AsciiKeyBytes("port");
    AsciiKeyBytes("cpu_id");
  }

  lemma NameSelects(f: Field)
    requires f != Address
    ensures KeyField(FieldName(f)) == Some(f)
  {
    match f
    case Fd | Pid | Tid | Uid => ShortNameSelects(f);
    case Host | Time | Ppid | Exec | Event | Flags => MidNameSelects(f);
    case Fdpath | Upath1 | Upath2 | Retval | Cmdline => SixSevenNameSelects(f);
    case SubjThrUuid | SubjProcUuid => SubjectNameSelects(f);
    case ArgObjUuid1 | ArgObjUuid2 | RetObjUuid1 | RetObjUuid2 => ObjectNameSelects(f);
  }

  /** The two- and three-byte names. */
  lemma ShortNameSelects(f: Field)
    requires f.Fd? || f.Pid? || f.Tid? || f.Uid?
    ensures KeyField(FieldName(f)) == Some(f)
  {
    AsciiKeyBytes(FieldName(f));
    match f
    case Fd | Pid | Tid | Uid =>
  }

  /** The four- and five-byte names. */
  lemma MidNameSelects(f: Field)
    requires f.Host? || f.Time? || f.Ppid? || f.Exec? || f.Event? || f.Flags?
    ensures KeyField(FieldName(f)) == Some(f)
  {
    AsciiKeyBytes(FieldName(f));
    match f
    case Host | Time | Ppid | Exec | Event | Flags =>
  }

  /** The six- and seven-byte names, told apart by their last byte or their first. */
  lemma SixSevenNameSelects(f: Field)
    requires f.Fdpath? || f.Upath1? || f.Upath2? || f.Retval? || f.Cmdline?
    ensures KeyField(FieldName(f)) == Some(f)
  {
    AsciiKeyBytes(FieldName(f));
    match f
    case Fdpath | Upath1 | Upath2 | Retval | Cmdline =>
  }

  /** The subject's UUID names, of eleven and twelve bytes. */
  lemma SubjectNameSelects(f: Field)
    requires f.SubjThrUuid? || f.SubjProcUuid?
    ensures KeyField(FieldName(f)) == Some(f)
  {
    AsciiKeyBytes(FieldName(f));
    match f
    case SubjThrUuid | SubjProcUuid =>
  }

  /** The objects' twelve-byte UUID names, told apart by their first and last bytes. */
  lemma ObjectNameSelects(f: Field)
    requires f.ArgObjUuid1? || f.ArgObjUuid2? || f.RetObjUuid1? || f.RetObjUuid2?
    ensures KeyField(FieldName(f)) == Some(f)
  {
    AsciiKeyBytes(FieldName(f));
    match f
    case ArgObjUuid1 | ArgObjUuid2 | RetObjUuid1 | RetObjUuid2 =>
  }

  /**
   * The switch counts bytes, not characters: the one-character key "é" is
   * two bytes long, a handled length, and its first byte is no ASCII
   * letter, so it selects nothing and the value it announces goes to the
   * member selected before.
   */
  lemma MultiByteKeyKeepsSelection(h: Handler)
    requires h.state == ExpectKeyOrEndObject
    ensures |"\U{00E9}"| == 1 && KeyLength("\U{00E9}") == 2
    ensures OnKey(h, "\U{00E9}") == Accepted(h.(state := ExpectValue))
  {
    assert Utf8("\U{00E9}") == CharUtf8('\U{00E9}') + Utf8([]);
  }

  predicate IsStringField(f: Field)
  {
    match f
    case Event | Host | Exec | Cmdline | Upath1 | Upath2 | Fdpath | SubjProcUuid
      | SubjThrUuid | ArgObjUuid1 | ArgObjUuid2 | RetObjUuid1 | RetObjUuid2 => true
    case _ => false
  }

  predicate IsU32Field(f: Field)
  {
    match f
    case Pid | Ppid | Tid | Uid | Fd | Flags | Retval => true
    case _ => false
  }

  function SetString(e: TraceEvent, f: Field, s: string): (r: TraceEvent)
    requires IsStringField(f)
  {
    match f
    case Event => e.(event := s)
    case Host => e.(host := s)
    case Exec => e.(exec := s)
    case Cmdline => e.(cmdline := s)
    case Upath1 => e.(upath1 := s)
    case Upath2 => e.(upath2 := s)
    case Fdpath => e.(fdpath := s)
    case SubjProcUuid => e.(subjprocuuid := s)
    case SubjThrUuid => e.(subjthruuid := s)
    case ArgObjUuid1 => e.(argObjuuid1 := s)
    case ArgObjUuid2 => e.(argObjuuid2 := s)
    case RetObjUuid1 => e.(retObjuuid1 := s)
    case RetObjUuid2 => e.(retObjuuid2 := s)
  }

  /** Stores a 32-bit value: unsigned members keep it, `fd`/`flags` reinterpret it as signed. */
  function SetU32(e: TraceEvent, f: Field, v: u32): (r: TraceEvent)
    requires IsU32Field(f)
  {
    match f
    case Pid => e.(pid := v)
    case Ppid => e.(ppid := v)
    case Tid => e.(tid := v)
    case Uid => e.(uid := v)
    case Fd => e.(fd := ToI32(v))
    case Flags => e.(flags := ToI32(v))
    case Retval => e.(retval := v)
  }

  /** Reads back the member a string token may have written. */
  function GetString(e: TraceEvent, f: Field): string
    requires IsStringField(f)
  {
    match f
    case Event => e.event
    case Host => e.host
    case Exec => e.exec
    case Cmdline => e.cmdline
    case Upath1 => e.upath1
    case Upath2 => e.upath2
    case Fdpath => e.fdpath
    case SubjProcUuid => e.subjprocuuid
    case SubjThrUuid => e.subjthruuid
    case ArgObjUuid1 => e.argObjuuid1
    case ArgObjUuid2 => e.argObjuuid2
    case RetObjUuid1 => e.retObjuuid1
    case RetObjUuid2 => e.retObjuuid2
  }

  /** `StartObject`: only legal between records; begins a zeroed record. */
  function OnStartObject(h: Handler): (o: Outcome)
    ensures h.state == ExpectObjectStart ==>
      o == Accepted(h.(state := ExpectKeyOrEndObject, current := Some(ZeroEvent)))
    ensures h.state != ExpectObjectStart ==> o == Rejected(h)
  {
    if h.state == ExpectObjectStart then
      Accepted(h.(state := ExpectKeyOrEndObject, current := Some(ZeroEvent)))
    else Rejected(h)
  }

  /**
   * `EndObject`: when the mask holds every required bit, the record is moved
   * into the output whatever the state, and the call succeeds only if the
   * state was between keys. Otherwise nothing changes and the call fails.
   */
  function OnEndObject(h: Handler): (o: Outcome)
    ensures o.Accepted? <==> RequiredFields <= h.mask && h.state == ExpectKeyOrEndObject
    ensures o.Accepted? ==>
      o.h.events == h.events + [h.current] && o.h.state == ExpectObjectStart
      && o.h.current.None? && o.h.mask == h.mask
    ensures !(RequiredFields <= h.mask) ==> o == Rejected(h)
    ensures !o.Undefined?
  {
    if RequiredFields <= h.mask then
      var h' := h.(state := ExpectObjectStart, events := h.events + [h.current], current := None);
      if h.state == ExpectKeyOrEndObject then Accepted(h') else Rejected(h')
    else Rejected(h)
  }

  /**
   * `Key`: only legal between members. A recognised key selects its member
   * and sets its bit; a handled length with no matching character keeps the
   * previous selection; any other length makes the value ignored.
   */
  function OnKey(h: Handler, k: string): (o: Outcome)
    ensures h.state != ExpectKeyOrEndObject ==> o == Rejected(h)
    ensures h.state == ExpectKeyOrEndObject ==>
      o.Accepted? && o.h.current == h.current && o.h.events == h.events
    ensures h.state == ExpectKeyOrEndObject && !HandledKeyLength(KeyLength(k)) ==>
      o.h.state == IgnoreValue && o.h.mask == h.mask && o.h.selected == h.selected
    ensures h.state == ExpectKeyOrEndObject && HandledKeyLength(KeyLength(k)) ==>
      o.h.state == ExpectValue
    ensures h.state == ExpectKeyOrEndObject && KeyField(k).Some? ==>
      o.h.selected == KeyField(k) && o.h.mask == h.mask + {KeyField(k).value}
    ensures h.state == ExpectKeyOrEndObject && KeyField(k).None? ==>
      o.h.selected == h.selected && o.h.mask == h.mask
  {
    if h.state != ExpectKeyOrEndObject then Rejected(h)
    else if !HandledKeyLength(KeyLength(k)) then Accepted(h.(state := IgnoreValue))
    else match KeyField(k)
      case Some(f) => Accepted(h.(state := ExpectValue, selected := Some(f), mask := h.mask + {f}))
      case None => Accepted(h.(state := ExpectValue))
  }

  /**
   * The text a C string holds: everything before the first NUL. The handler
   * assigns the tokenizer's `const char*` to the member, so an embedded NUL
   * (`"\u0000"` in the JSON) ends the stored text.
   */
  function CString(s: string): (r: string)
    ensures r <= s && '\0' !in r
    ensures |r| < |s| ==> s[|r|] == '\0'
    ensures '\0' !in s ==> r == s
    decreases |s|
  {
    if s == [] || s[0] == '\0' then [] else [s[0]] + CString(s[1..])
  }

  /** Cutting at the first NUL twice is cutting once. */
  lemma CStringIdempotent(s: string)
    ensures CString(CString(s)) == CString(s)
  {
  }

  /** `String`: copies the C-string text into the selected string member; other targets are undefined. */
  function OnString(h: Handler, s: string): (o: Outcome)
    ensures h.state == IgnoreValue ==> o == Accepted(h.(state := ExpectKeyOrEndObject))
    ensures (h.state == ExpectObjectStart || h.state == ExpectKeyOrEndObject) ==> o == Rejected(h)
    ensures h.state == ExpectValue ==>
      (o.Accepted? <==> h.selected.Some? && IsStringField(h.selected.value) && h.current.Some?)
    ensures h.state == ExpectValue && o.Accepted? ==>
      o.h.state == ExpectKeyOrEndObject && o.h.mask == h.mask && o.h.selected == h.selected
      && o.h.current.Some? && GetString(o.h.current.value, h.selected.value) == CString(s)
    ensures !o.Rejected? || h.state != ExpectValue
    ensures !o.Undefined? ==> o.h.mask == h.mask && o.h.events == h.events && o.h.selected == h.selected
  {
    match h.state
    case ExpectValue =>
      if h.selected.Some? && IsStringField(h.selected.value) && h.current.Some? then
        Accepted(h.(state := ExpectKeyOrEndObject,
                    current := Some(SetString(h.current.value, h.selected.value, CString(s)))))
      else Undefined
    case IgnoreValue => Accepted(h.(state := ExpectKeyOrEndObject))
    case _ => Rejected(h)
  }

  /** A value with an embedded NUL keeps only the text before it. */
  lemma NulTruncates(h: Handler)
    requires h.state == ExpectValue && h.selected == Some(Host) && h.current.Some?
    ensures OnString(h, "a\0b").h.current == Some(h.current.value.(host := "a"))
  {
    assert CString("a\0b") == "a";
  }

  /**
   * The numeric callbacks share one shape: in `ExpectValue` the value is
   * stored when the selected member takes that kind of number and is logged
   * and dropped otherwise; in `IgnoreValue` it is skipped; elsewhere the call
   * fails. `Uint` and `Int` store into the 32-bit members, `Int` after a cast
   * to `uint32_t`; `Uint64` and `Int64` store only `time`, `Int64` after a
   * cast to `uint64_t`.
   */
  datatype Number = U32(u: u32) | I32(i: i32) | U64(ul: u64) | I64(l: i64)

  predicate Takes(n: Number, f: Field)
  {
    if n.U32? || n.I32? then IsU32Field(f) else f == Time
  }

  function Store(e: TraceEvent, f: Field, n: Number): (r: TraceEvent)
    requires Takes(n, f)
  {
    match n
    case U32(u) => SetU32(e, f, u)
    case I32(i) => SetU32(e, f, ToU32(i))
    case U64(ul) => e.(time := ul)
    case I64(l) => e.(time := ToU64(l))
  }

  function OnNumber(h: Handler, n: Number): (o: Outcome)
    ensures h.state == IgnoreValue ==> o == Accepted(h.(state := ExpectKeyOrEndObject))
    ensures (h.state == ExpectObjectStart || h.state == ExpectKeyOrEndObject) ==> o == Rejected(h)
    ensures h.state == ExpectValue && !(h.selected.Some? && Takes(n, h.selected.value)) ==>
      o == Accepted(h.(state := ExpectKeyOrEndObject))
    ensures !o.Undefined? ==> o.h.mask == h.mask && o.h.events == h.events && o.h.selected == h.selected
  {
    match h.state
    case ExpectValue =>
      if h.selected.Some? && Takes(n, h.selected.value) then
        if h.current.Some? then
          Accepted(h.(state := ExpectKeyOrEndObject,
                      current := Some(Store(h.current.value, h.selected.value, n))))
        else Undefined
      else Accepted(h.(state := ExpectKeyOrEndObject))
    case IgnoreValue => Accepted(h.(state := ExpectKeyOrEndObject))
    case _ => Rejected(h)
  }

  /** One callback. Null, booleans, doubles and arrays reach `Default()`, which fails. */
  function Step(h: Handler, t: Token): Outcome
  {
    match t
    case StartObject => OnStartObject(h)
    case EndObject => OnEndObject(h)
    case Key(k) => OnKey(h, k)
    case Str(s) => OnString(h, s)
    case Int(i) => OnNumber(h, I32(i))
    case Uint(u) => OnNumber(h, U32(u))
    case Int64(l) => OnNumber(h, I64(l))
    case Uint64(ul) => OnNumber(h, U64(ul))
    case _ => Rejected(h)
  }

  /** The tokenizer loop: feed tokens until one is refused. */
  function Run(h: Handler, ts: seq<Token>): Outcome
    decreases |ts|
  {
    if |ts| == 0 then Accepted(h)
    else match Step(h, ts[0])
      case Accepted(h') => Run(h', ts[1..])
      case other => other
  }

  /** Tokens other than objects, keys, strings and integers abort the parse at once. */
  lemma DefaultRejects(h: Handler, t: Token)
    requires t.Null? || t.Bool? || t.Double? || t.StartArray? || t.EndArray?
    ensures Step(h, t) == Rejected(h)
  {
  }

  /** A nested object value is refused: `StartObject` after a key fails. */
  lemma NestedObjectRejected(h: Handler, k: string)
    requires h.state == ExpectKeyOrEndObject && HandledKeyLength(KeyLength(k))
    ensures Run(h, [Key(k), StartObject]).Rejected?
  {
    var o := OnKey(h, k);
    assert Run(o.h, [StartObject]) == Step(o.h, StartObject);
  }

  /** A value skipped in `IgnoreValue` never touches the record or the mask. */
  lemma IgnoredValueLeavesRecord(h: Handler, t: Token)
    requires h.state == IgnoreValue
    requires t.Str? || t.Int? || t.Uint? || t.Int64? || t.Uint64?
    ensures Step(h, t) == Accepted(h.(state := ExpectKeyOrEndObject))
  {
  }

  /** Numeric routing for `time`: it takes 64-bit values (signed ones reinterpreted) and ignores 32-bit ones. */
  lemma TimeRouting(h: Handler, v64: u64, i64v: i64, i32v: i32)
    requires h.state == ExpectValue && h.selected == Some(Time) && h.current.Some?
    ensures Step(h, Uint64(v64)).h.current == Some(h.current.value.(time := v64))
    ensures Step(h, Int64(i64v)).h.current == Some(h.current.value.(time := ToU64(i64v)))
    ensures Step(h, Int(i32v)) == Accepted(h.(state := ExpectKeyOrEndObject))
  {
  }

  /** Numeric routing for the other members: 64-bit values are ignored, 32-bit ones stored with a cast. */
  lemma U32Routing(h: Handler, f: Field, v32: u32, i32v: i32, v64: u64)
    requires h.state == ExpectValue && h.selected == Some(f) && h.current.Some? && f != Time
    ensures Step(h, Uint64(v64)) == Accepted(h.(state := ExpectKeyOrEndObject))
    ensures !IsU32Field(f) ==> Step(h, Uint(v32)) == Accepted(h.(state := ExpectKeyOrEndObject))
    ensures f == Pid ==> Step(h, Int(i32v)).h.current == Some(h.current.value.(pid := ToU32(i32v)))
    ensures f == Fd ==> Step(h, Int(i32v)).h.current == Some(h.current.value.(fd := i32v))
    ensures f == Retval ==> Step(h, Uint(v32)).h.current == Some(h.current.value.(retval := v32))
  {
    if f == Fd {
      assert ToI32(ToU32(i32v)) == i32v by { CastRoundTrip(i32v); }
    }
  }

  lemma CastRoundTrip(x: i32)
    ensures ToI32(ToU32(x)) == x
  {
    if x < 0 {
      assert ToU32(x) == x + TWO_32;
    }
  }

  /** No callback ever removes a field from the mask. */
  lemma StepKeepsMask(h: Handler, t: Token)
    requires !Step(h, t).Undefined?
    ensures h.mask <= Step(h, t).h.mask
  {
  }

  /**
   * The mask is never cleared: whatever the token stream, every bit set
   * before is still set afterwards.
   */
  lemma {:induction false} RunKeepsMask(h: Handler, ts: seq<Token>)
    requires !Run(h, ts).Undefined?
    ensures h.mask <= Run(h, ts).h.mask
    decreases |ts|
  {
    if |ts| > 0 {
      var o := Step(h, ts[0]);
      StepKeepsMask(h, ts[0]);
      if o.Accepted? {
        RunKeepsMask(o.h, ts[1..]);
      }
    }
  }

  /**
   * So after one complete record every later record passes the
   * required-fields check, whichever members it carries.
   */
  lemma RequiredStaysSatisfied(h: Handler, ts: seq<Token>)
    requires RequiredFields <= h.mask
    requires Run(h, ts).Accepted? && Run(h, ts).h.state == ExpectKeyOrEndObject
    ensures OnEndObject(Run(h, ts).h).Accepted?
  {
    RunKeepsMask(h, ts);
  }

  /** Running two token sequences back to back is running their concatenation. */
  lemma {:induction false} RunConcat(h: Handler, a: seq<Token>, b: seq<Token>)
    ensures Run(h, a + b) == (if Run(h, a).Accepted? then Run(Run(h, a).h, b) else Run(h, a))
    decreases |a|
  {
    if |a| == 0 {
      assert a + b == b;
    } else {
      assert (a + b)[0] == a[0];
      assert (a + b)[1..] == a[1..] + b;
      var o := Step(h, a[0]);
      if o.Accepted? {
        RunConcat(o.h, a[1..], b);
      }
    }
  }

  /** A recognised string member stores its text up to the first NUL and adds its field to the mask. */
  lemma StringMember(h: Handler, k: string, f: Field, s: string)
    requires h.state == ExpectKeyOrEndObject && h.current.Some?
    requires KeyField(k) == Some(f) && IsStringField(f) && HandledKeyLength(KeyLength(k))
    ensures Run(h, [Key(k), Str(s)]) == Accepted(h.(selected := Some(f), mask := h.mask + {f},
      current := Some(SetString(h.current.value, f, CString(s)))))
  {
    var o1 := OnKey(h, k);
    assert o1 == Accepted(h.(state := ExpectValue, selected := Some(f), mask := h.mask + {f}));
    var o2 := Step(o1.h, Str(s));
    assert o2.Accepted?;
    assert [Key(k), Str(s)][1..] == [Str(s)];
    assert [Str(s)][1..] == [];
    assert Run(o1.h, [Str(s)]) == Run(o2.h, []);
  }

  /** A recognised 32-bit member stores an unsigned value and adds its field to the mask. */
  lemma U32Member(h: Handler, k: string, f: Field, v: u32)
    requires h.state == ExpectKeyOrEndObject && h.current.Some?
    requires KeyField(k) == Some(f) && IsU32Field(f) && HandledKeyLength(KeyLength(k))
    ensures Run(h, [Key(k), Uint(v)]) == Accepted(h.(selected := Some(f), mask := h.mask + {f},
      current := Some(SetU32(h.current.value, f, v))))
  {
    var o1 := OnKey(h, k);
    assert o1 == Accepted(h.(state := ExpectValue, selected := Some(f), mask := h.mask + {f}));
    var o2 := Step(o1.h, Uint(v));
    assert o2.Accepted?;
    assert [Key(k), Uint(v)][1..] == [Uint(v)];
    assert [Uint(v)][1..] == [];
    assert Run(o1.h, [Uint(v)]) == Run(o2.h, []);
  }

  /** The time member stores an unsigned 64-bit value and adds its field to the mask. */
  lemma TimeMember(h: Handler, k: string, v: u64)
    requires h.state == ExpectKeyOrEndObject && h.current.Some?
    requires KeyField(k) == Some(Time) && HandledKeyLength(KeyLength(k))
    ensures Run(h, [Key(k), Uint64(v)]) == Accepted(h.(selected := Some(Time), mask := h.mask + {Time},
      current := Some(h.current.value.(time := v))))
  {
    var o1 := OnKey(h, k);
    assert o1 == Accepted(h.(state := ExpectValue, selected := Some(Time), mask := h.mask + {Time}));
    var o2 := Step(o1.h, Uint64(v));
    assert o2.Accepted?;
    assert [Key(k), Uint64(v)][1..] == [Uint64(v)];
    assert [Uint64(v)][1..] == [];
    assert Run(o1.h, [Uint64(v)]) == Run(o2.h, []);
  }

  /** One object member as the tokenizer delivers it: a key and a value of the member's type. */
  datatype Entry =
    | StrEntry(key: string, field: Field, text: string)
    | U32Entry(key: string, field: Field, value: u32)
    | TimeEntry(key: string, time: u64)

  function EntryField(e: Entry): Field
  {
    if e.TimeEntry? then Time else e.field
  }

  /** The key names the entry's member and the value has that member's type. */
  predicate WellKeyed(e: Entry)
  {
    KeyField(e.key) == Some(EntryField(e)) && HandledKeyLength(KeyLength(e.key)) && Typed(e)
  }

  predicate AllWellKeyed(es: seq<Entry>)
    ensures AllWellKeyed(es) ==> forall i | 0 <= i < |es| :: Typed(es[i])
  {
    forall i | 0 <= i < |es| :: WellKeyed(es[i])
  }

  /** The value has the type of the entry's member. */
  predicate Typed(e: Entry)
  {
    match e
    case StrEntry(_, f, _) => IsStringField(f)
    case U32Entry(_, f, _) => IsU32Field(f)
    case TimeEntry(_, _) => true
  }

  function EntryTokens(e: Entry): seq<Token>
  {
    match e
    case StrEntry(k, _, s) => [Key(k), Str(s)]
    case U32Entry(k, _, v) => [Key(k), Uint(v)]
    case TimeEntry(k, t) => [Key(k), Uint64(t)]
  }

  function EntriesTokens(es: seq<Entry>): seq<Token>
    decreases |es|
  {
    if es == [] then [] else EntryTokens(es[0]) + EntriesTokens(es[1..])
  }

  /** The tokens of one object whose members are `es`. */
  function ObjectTokens(es: seq<Entry>): seq<Token>
  {
    [StartObject] + EntriesTokens(es) + [EndObject]
  }

  /** The record an entry writes into. */
  function Fill(e: TraceEvent, x: Entry): TraceEvent
    requires Typed(x)
  {
    match x
    case StrEntry(_, f, s) => SetString(e, f, CString(s))
    case U32Entry(_, f, v) => SetU32(e, f, v)
    case TimeEntry(_, t) => e.(time := t)
  }

  /** The record after the entries, written in order: a later duplicate wins. */
  function FillAll(e: TraceEvent, es: seq<Entry>): TraceEvent
    requires forall i | 0 <= i < |es| :: Typed(es[i])
    decreases |es|
  {
    if es == [] then e else FillAll(Fill(e, es[0]), es[1..])
  }

  function FieldsOf(es: seq<Entry>): set<Field>
  {
    set i | 0 <= i < |es| :: EntryField(es[i])
  }

  /** One well-keyed entry stores its value and adds its member to the mask. */
  lemma EntryStep(h: Handler, x: Entry)
    requires h.state == ExpectKeyOrEndObject && h.current.Some? && WellKeyed(x)
    ensures Run(h, EntryTokens(x)) == Accepted(h.(selected := Some(EntryField(x)),
      mask := h.mask + {EntryField(x)}, current := Some(Fill(h.current.value, x))))
  {
    match x
    case StrEntry(k, f, s) => StringMember(h, k, f, s);
    case U32Entry(k, f, v) => U32Member(h, k, f, v);
    case TimeEntry(k, t) => TimeMember(h, k, t);
  }

  /**
   * Well-keyed entries are all accepted: the mask gains exactly their
   * members and the record holds their values, written in order.
   */
  lemma {:induction false} RunEntries(h: Handler, es: seq<Entry>)
    requires h.state == ExpectKeyOrEndObject && h.current.Some?
    requires AllWellKeyed(es)
    ensures Run(h, EntriesTokens(es)).Accepted?
    ensures Run(h, EntriesTokens(es)).h.state == ExpectKeyOrEndObject
    ensures Run(h, EntriesTokens(es)).h.mask == h.mask + FieldsOf(es)
    ensures Run(h, EntriesTokens(es)).h.current == Some(FillAll(h.current.value, es))
    ensures Run(h, EntriesTokens(es)).h.events == h.events
    decreases |es|
  {
    if es == [] {
      assert FieldsOf(es) == {};
    } else {
      var x := es[0];
      EntryStep(h, x);
      var h1 := h.(selected := Some(EntryField(x)), mask := h.mask + {EntryField(x)},
        current := Some(Fill(h.current.value, x)));
      RunConcat(h, EntryTokens(x), EntriesTokens(es[1..]));
      RunEntries(h1, es[1..]);
      FieldsOfCons(es);
    }
  }

  lemma FieldsOfCons(es: seq<Entry>)
    requires es != []
    ensures FieldsOf(es) == {EntryField(es[0])} + FieldsOf(es[1..])
  {
    forall f | f in FieldsOf(es) ensures f in {EntryField(es[0])} + FieldsOf(es[1..]) {
      var i :| 0 <= i < |es| && EntryField(es[i]) == f;
      if i > 0 {
        assert es[1..][i - 1] == es[i];
      }
    }
    forall f | f in FieldsOf(es[1..]) ensures f in FieldsOf(es) {
      var i :| 0 <= i < |es[1..]| && EntryField(es[1..][i]) == f;
      assert es[i + 1] == es[1..][i];
    }
  }

  /**
   * One object of well-keyed members, read by a fresh handler, is accepted
   * exactly when its members cover the required fields; it then yields one
   * record holding the members' values over the zero record.
   */
  lemma ParseObject(es: seq<Entry>)
    requires AllWellKeyed(es)
    ensures Run(Fresh, ObjectTokens(es)).Accepted? <==> RequiredFields <= FieldsOf(es)
    ensures RequiredFields <= FieldsOf(es) ==>
      Run(Fresh, ObjectTokens(es)).h.events == [Some(FillAll(ZeroEvent, es))]
  {
    var h0 := Fresh.(state := ExpectKeyOrEndObject, current := Some(ZeroEvent));
    assert Run(Fresh, [StartObject]) == Accepted(h0) by {
      assert [StartObject][1..] == [];
    }
    RunConcat(Fresh, [StartObject], EntriesTokens(es));
    RunEntries(h0, es);
    RunConcat(Fresh, [StartObject] + EntriesTokens(es), [EndObject]);
    var h1 := Run(h0, EntriesTokens(es)).h;
    assert Run(h1, [EndObject]) == OnEndObject(h1) by {
      assert [EndObject][1..] == [];
    }
  }
}
