/**
 * The C++ engine's database operation records. Each is immutable once
 * built; the process id is stored as a signed 32-bit value although the
 * trace carries it (and the fork return value) unsigned, so building a
 * record narrows it.
 */
module CppDbTr {
  import opened Ints

  datatype DbOp =
    | CreateNode(dbId: i64, uuid: string, pid: i32, cmdline: string)
    | CreateRel(src: i64, dst: i64, rclass: string)
    | UpdateNode(dbId: i64, pid: i32, cmdline: string)

  /** The signed 32-bit value a trace's unsigned pid or return value becomes. */
  function NarrowPid(p: u32): (r: i32)
    ensures p < TWO_31 ==> r == p
    ensures p >= TWO_31 ==> r == p - TWO_32
  {
    ToI32(p)
  }

  /** Narrowing loses nothing: the unsigned value can be read back. */
  lemma NarrowPidRoundTrip(p: u32)
    ensures ToU32(NarrowPid(p)) == p
  {
  }

  lemma NarrowPidInjective(p: u32, q: u32)
    ensures NarrowPid(p) == NarrowPid(q) ==> p == q
  {
    NarrowPidRoundTrip(p);
    NarrowPidRoundTrip(q);
  }

  function MkCreateNode(dbId: i64, uuid: string, pid: u32, cmdline: string): (r: DbOp)
    ensures r.CreateNode? && r.dbId == dbId && r.uuid == uuid && r.cmdline == cmdline
    ensures ToU32(r.pid) == pid
  {
    NarrowPidRoundTrip(pid);
    CreateNode(dbId, uuid, NarrowPid(pid), cmdline)
  }

  function MkUpdateNode(dbId: i64, pid: u32, cmdline: string): (r: DbOp)
    ensures r.UpdateNode? && r.dbId == dbId && r.cmdline == cmdline
    ensures ToU32(r.pid) == pid
  {
    NarrowPidRoundTrip(pid);
    UpdateNode(dbId, NarrowPid(pid), cmdline)
  }
}
