/**
 * The standalone process-counting script: it folds over trace records
 * (dictionaries), keeping a map from process UUID to "thin" and two
 * counters. Reading the records from a file and printing the totals are
 * outside the model; a missing dictionary key raises and ends the run.
 */
module ProcCount {
  import opened Wrappers

  type Record = map<string, string>

  datatype Counts = Counts(pMap: map<string, bool>, pCount: nat, eCount: nat)

  const Execve: string := "audit:event:aue_execve:"
  const Fork: string := "audit:event:aue_fork:"
  const Vfork: string := "audit:event:aue_vfork:"

  const Start: Counts := Counts(map[], 0, 0)

  /** The first branch: an unseen subject is recorded as thin and counted. */
  function Sight(s: Counts, u: string): (r: Counts)
    ensures r.pMap.Keys == s.pMap.Keys + {u} && r.eCount == s.eCount
    ensures u in s.pMap ==> r == s
    ensures u !in s.pMap ==> r.pMap[u] && r.pCount == s.pCount + 1
  {
    if u !in s.pMap then s.(pMap := s.pMap[u := true], pCount := s.pCount + 1) else s
  }

  /** execve of a registered subject: a thin one is flipped, a non-thin one counts a new process. */
  function ExecveCount(s: Counts, subj: string): Counts
    requires subj in s.pMap
  {
    if s.pMap[subj] then s.(pMap := s.pMap[subj := false]) else s.(pCount := s.pCount + 1)
  }

  /** One record; `Err(key)` is the lookup of a key the record lacks. */
  function StepRecord(s: Counts, evt: Record): (r: Result<Counts, string>)
    ensures r.Ok? ==> r.value.eCount == s.eCount + 1
    ensures r.Ok? ==> s.pMap.Keys <= r.value.pMap.Keys
    ensures r.Err? ==> r.error !in evt
  {
    if "subjprocuuid" !in evt then Err("subjprocuuid")
    else
      var subj := evt["subjprocuuid"];
      var s1 := Sight(s, subj);
      if "event" !in evt then Err("event")
      else if evt["event"] == Execve then
        var s2 := ExecveCount(s1, subj);
        Ok(s2.(eCount := s2.eCount + 1))
      else if evt["event"] == Fork || evt["event"] == Vfork then
        if "ret_objuuid1" !in evt then Err("ret_objuuid1")
        else
          var s2 := Sight(s1, evt["ret_objuuid1"]);
          Ok(s2.(eCount := s2.eCount + 1))
      else Ok(s1.(eCount := s1.eCount + 1))
  }

  /** The whole run: stops at the first record that raises. */
  function Run(s: Counts, evts: seq<Record>): Result<Counts, string>
    decreases |evts|
  {
    if evts == [] then Ok(s)
    else match StepRecord(s, evts[0])
      case Err(k) => Err(k)
      case Ok(s') => Run(s', evts[1..])
  }

  /** Every insertion counts, so the process count bounds the number of distinct UUIDs. */
  predicate CountBoundsUuids(s: Counts)
  {
    s.pCount >= |s.pMap|
  }

  lemma StepKeepsBound(s: Counts, evt: Record)
    requires CountBoundsUuids(s)
    requires StepRecord(s, evt).Ok?
    ensures CountBoundsUuids(StepRecord(s, evt).value)
  {
    if "subjprocuuid" in evt {
      var subj := evt["subjprocuuid"];
      if subj !in s.pMap {
        assert |s.pMap[subj := true]| == |s.pMap| + 1;
      }
      var s1 := if subj !in s.pMap then s.(pMap := s.pMap[subj := true], pCount := s.pCount + 1) else s;
      assert |s1.pMap[subj := false]| == |s1.pMap|;
      if "ret_objuuid1" in evt {
        var ret := evt["ret_objuuid1"];
        if ret !in s1.pMap {
          assert |s1.pMap[ret := true]| == |s1.pMap| + 1;
        }
      }
    }
  }

  /** Over a whole run the bound holds at the end, and every record is counted. */
  lemma {:induction false} RunKeepsBound(s: Counts, evts: seq<Record>)
    requires CountBoundsUuids(s)
    requires Run(s, evts).Ok?
    ensures CountBoundsUuids(Run(s, evts).value)
    ensures Run(s, evts).value.eCount == s.eCount + |evts|
    decreases |evts|
  {
    if evts != [] {
      StepKeepsBound(s, evts[0]);
      RunKeepsBound(StepRecord(s, evts[0]).value, evts[1..]);
    }
  }

  /** A first sighting records the subject as thin and counts it. */
  lemma FirstSighting(s: Counts, evt: Record)
    requires "subjprocuuid" in evt && "event" in evt && evt["subjprocuuid"] !in s.pMap
    requires evt["event"] != Execve && evt["event"] != Fork && evt["event"] != Vfork
    ensures StepRecord(s, evt) == Ok(Counts(s.pMap[evt["subjprocuuid"] := true], s.pCount + 1, s.eCount + 1))
  {
  }

  /** execve of a thin subject flips it without counting; of a non-thin one, counts a new process. */
  lemma ExecveCounting(s: Counts, evt: Record)
    requires "subjprocuuid" in evt && "event" in evt && evt["event"] == Execve
    requires evt["subjprocuuid"] in s.pMap
    ensures
      var subj := evt["subjprocuuid"];
      StepRecord(s, evt) == Ok(
        if s.pMap[subj] then Counts(s.pMap[subj := false], s.pCount, s.eCount + 1)
        else Counts(s.pMap, s.pCount + 1, s.eCount + 1))
  {
  }

  /** fork of an unseen child records and counts it; a seen child changes nothing but the event count. */
  lemma ForkCounting(s: Counts, evt: Record)
    requires "subjprocuuid" in evt && "event" in evt && "ret_objuuid1" in evt
    requires evt["event"] == Fork || evt["event"] == Vfork
    requires evt["subjprocuuid"] in s.pMap
    ensures
      var ret := evt["ret_objuuid1"];
      StepRecord(s, evt) == Ok(
        if ret !in s.pMap then Counts(s.pMap[ret := true], s.pCount + 1, s.eCount + 1)
        else s.(eCount := s.eCount + 1))
  {
  }
}
