/**
 * The data library's metadata store: for every key, a heritable flag and
 * the history of its values, each stamped with an offset into a list of
 * distinct times. Times are opaque values compared only for equality (the
 * type parameter `T`); values are already rendered as strings. The store
 * keeps offsets in a `u8`: `Update` models the offset as a plain index,
 * `UpdateAsWritten` the `u8` that wraps after 256 distinct times.
 */
module MetaStore {
  import opened Ints
  import opened Wrappers

  datatype Entry = Entry(value: string, tOff: nat)
  datatype History = History(heritable: bool, values: seq<Entry>)
  datatype Store<T> = Store(entries: map<string, History>, timeList: seq<T>)

  const OutOfBounds := "index out of bounds"

  function New<T>(): (s: Store<T>)
    ensures s.entries == map[] && s.timeList == []
  {
    Store(map[], [])
  }

  predicate Distinct<T(==)>(ts: seq<T>)
  {
    forall i, j :: 0 <= i < j < |ts| ==> ts[i] != ts[j]
  }

  /** Every key has a non-empty history, every offset names a time, and no time is listed twice. */
  predicate Valid<T(==)>(s: Store<T>)
  {
    (forall k :: k in s.entries ==> |s.entries[k].values| > 0)
    && (forall k, e :: k in s.entries && e in s.entries[k].values ==> e.tOff < |s.timeList|)
    && Distinct(s.timeList)
  }

  /** The key's latest value, when it has one. */
  function Cur<T>(s: Store<T>, key: string): (r: Option<string>)
    ensures r.Some? <==> key in s.entries && |s.entries[key].values| > 0
  {
    if key in s.entries && |s.entries[key].values| > 0 then
      Some(s.entries[key].values[|s.entries[key].values| - 1].value)
    else None
  }

  /** The first position of `t` in `ts`. */
  function IndexOf<T(==)>(ts: seq<T>, t: T): (r: Option<nat>)
    ensures r.None? <==> t !in ts
    ensures r.Some? ==> r.value < |ts| && ts[r.value] == t && forall j :: 0 <= j < r.value ==> ts[j] != t
  {
    if ts == [] then None
    else if ts[0] == t then Some(0)
    else match IndexOf(ts[1..], t)
      case None => None
      case Some(i) => Some(i + 1)
  }

  /** The time's position, appending it when it is not listed yet. */
  function TimeIndex<T(==)>(ts: seq<T>, t: T): (r: (seq<T>, nat))
    ensures r.1 < |r.0| && r.0[r.1] == t
    ensures t in ts ==> r.0 == ts
    ensures t !in ts ==> r.0 == ts + [t] && r.1 == |ts|
  {
    match IndexOf(ts, t)
      case Some(i) => (ts, i)
      case None => (ts + [t], |ts|)
  }

  /** Appends one entry to the key's history; a new key takes the given heritable flag. */
  function Append<T>(s: Store<T>, key: string, e: Entry, heritable: bool): (r: map<string, History>)
    ensures r.Keys == s.entries.Keys + {key}
    ensures forall k :: k in s.entries && k != key ==> r[k] == s.entries[k]
    ensures key in s.entries ==> r[key] == History(s.entries[key].heritable, s.entries[key].values + [e])
    ensures key !in s.entries ==> r[key] == History(heritable, [e])
  {
    if key in s.entries then
      s.entries[key := History(s.entries[key].heritable, s.entries[key].values + [e])]
    else s.entries[key := History(heritable, [e])]
  }

  /**
   * Records a value for a key at a time. Nothing happens when the value is
   * already the key's current one; otherwise the time is found or listed,
   * and one entry is appended to the key's history.
   */
  function Update<T(==)>(s: Store<T>, key: string, val: string, time: T, heritable: bool): (r: Store<T>)
    ensures Cur(s, key) == Some(val) ==> r == s
    ensures Cur(r, key) == Some(val)
    ensures forall k :: k != key ==> Cur(r, k) == Cur(s, k)
  {
    if Cur(s, key) == Some(val) then s
    else
      var (ts, off) := TimeIndex(s.timeList, time);
      Store(Append(s, key, Entry(val, off), heritable), ts)
  }

  /** `Update` with the offset narrowed to a `u8`, as the store keeps it. */
  function UpdateAsWritten<T(==)>(s: Store<T>, key: string, val: string, time: T, heritable: bool): (r: Store<T>)
    ensures Cur(s, key) == Some(val) ==> r == s
    ensures Cur(r, key) == Some(val)
  {
    if Cur(s, key) == Some(val) then s
    else
      var (ts, off) := TimeIndex(s.timeList, time);
      Store(Append(s, key, Entry(val, off % TWO_8), heritable), ts)
  }

  /** The time the key's latest value was stamped with. */
  function LatestTime<T>(s: Store<T>, key: string): (r: Option<T>)
    ensures r.Some? ==> Cur(s, key).Some?
  {
    if key in s.entries && |s.entries[key].values| > 0
       && s.entries[key].values[|s.entries[key].values| - 1].tOff < |s.timeList| then
      Some(s.timeList[s.entries[key].values[|s.entries[key].values| - 1].tOff])
    else None
  }

  /**
   * A snapshot at a time keeps only the heritable keys, each with its latest
   * value alone at offset 0, and lists that one time. A heritable key with
   * no history panics.
   */
  function Snapshot<T>(s: Store<T>, time: T): (r: Result<Store<T>, string>)
    ensures r.Err? <==> exists k :: k in s.entries && s.entries[k].heritable && |s.entries[k].values| == 0
    ensures r.Ok? ==>
      r.value.timeList == [time]
      && (forall k :: k in r.value.entries <==> k in s.entries && s.entries[k].heritable)
      && (forall k :: k in r.value.entries ==>
            r.value.entries[k].heritable && |r.value.entries[k].values| == 1
            && r.value.entries[k].values[0].tOff == 0 && Cur(r.value, k) == Cur(s, k))
  {
    if exists k :: k in s.entries && s.entries[k].heritable && |s.entries[k].values| == 0 then Err(UnwrapNone)
    else
      Ok(Store(map k | k in s.entries && s.entries[k].heritable ::
                 History(true, [Entry(if |s.entries[k].values| > 0
                                      then s.entries[k].values[|s.entries[k].values| - 1].value else "", 0)]),
               [time]))
  }

  /** Each key's latest value, time and flag; an empty history panics, as does an offset past the time list. */
  function IterLatest<T>(s: Store<T>): (r: Result<map<string, (string, T, bool)>, string>)
    ensures r.Ok? ==> r.value.Keys == s.entries.Keys
    ensures r.Ok? ==> forall k :: k in r.value ==>
      Cur(s, k) == Some(r.value[k].0) && LatestTime(s, k) == Some(r.value[k].1) && r.value[k].2 == s.entries[k].heritable
  {
    if exists k :: k in s.entries && |s.entries[k].values| == 0 then Err(UnwrapNone)
    else if exists k :: k in s.entries && s.entries[k].values[|s.entries[k].values| - 1].tOff >= |s.timeList| then
      Err(OutOfBounds)
    else
      Ok(map k | k in s.entries ::
           (s.entries[k].values[|s.entries[k].values| - 1].value,
            s.timeList[s.entries[k].values[|s.entries[k].values| - 1].tOff],
            s.entries[k].heritable))
  }

  // ------------------------------------------------------------------ merge

  /** A history item as the store's iterator yields it: key, value, time, heritable flag. */
  datatype Item<T> = Item(key: string, value: string, time: T, heritable: bool)

  /** One key's history as items; an offset past the time list panics. */
  function HistItems<T>(key: string, h: History, ts: seq<T>, i: nat): (r: Result<seq<Item<T>>, string>)
    requires i <= |h.values|
    ensures r.Ok? ==> |r.value| == |h.values| - i
    ensures r.Ok? ==> forall j :: 0 <= j < |r.value| ==> r.value[j].key == key && r.value[j].value == h.values[i + j].value
    decreases |h.values| - i
  {
    if i == |h.values| then Ok([])
    else if h.values[i].tOff >= |ts| then Err(OutOfBounds)
    else match HistItems(key, h, ts, i + 1)
      case Err(e) => Err(e)
      case Ok(rest) => Ok([Item(key, h.values[i].value, ts[h.values[i].tOff], h.heritable)] + rest)
  }

  /** All items, key by key in the map's iteration order `keys`. */
  function Items<T>(s: Store<T>, keys: seq<string>): (r: Result<seq<Item<T>>, string>)
    requires forall k :: k in keys ==> k in s.entries
  {
    if keys == [] then Ok([])
    else match HistItems(keys[0], s.entries[keys[0]], s.timeList, 0)
      case Err(e) => Err(e)
      case Ok(a) =>
        match Items(s, keys[1..])
          case Err(e) => Err(e)
          case Ok(b) => Ok(a + b)
  }

  /** Feeds items to `Update` in order. */
  function Replay<T(==)>(s: Store<T>, items: seq<Item<T>>): (r: Store<T>)
    decreases |items|
  {
    if items == [] then s
    else Replay(Update(s, items[0].key, items[0].value, items[0].time, items[0].heritable), items[1..])
  }

  /** Merging replays the other store's whole history; `keys` is its map's iteration order. */
  function Merge<T(==)>(s: Store<T>, other: Store<T>, keys: seq<string>): (r: Result<Store<T>, string>)
    requires forall k :: k in keys ==> k in other.entries
  {
    match Items(other, keys)
      case Err(e) => Err(e)
      case Ok(items) => Ok(Replay(s, items))
  }

  /** The value of the last item for a key, if any. */
  function LastValue<T>(items: seq<Item<T>>, key: string): Option<string>
  {
    if items == [] then None
    else
      var rest := LastValue(items[1..], key);
      if rest.Some? then rest else if items[0].key == key then Some(items[0].value) else None
  }

  // ----------------------------------------------------------------- lemmas

  lemma NewValid<T>()
    ensures Valid(New<T>())
  {
  }

  /**
   * An update that is not a no-op appends exactly one entry, stamped with
   * the given time, and keeps a key's heritable flag once it has one.
   */
  lemma UpdateAppendsOne<T>(s: Store<T>, key: string, val: string, time: T, heritable: bool)
    requires Cur(s, key) != Some(val)
    ensures
      var r := Update(s, key, val, time, heritable);
      key in r.entries && LatestTime(r, key) == Some(time)
      && (key in s.entries ==> r.entries[key] == History(s.entries[key].heritable, s.entries[key].values + [r.entries[key].values[|r.entries[key].values| - 1]]))
      && (key !in s.entries ==> r.entries[key].heritable == heritable && |r.entries[key].values| == 1)
      && (forall k :: k in s.entries && k != key ==> r.entries[k] == s.entries[k])
  {
  }

  /** Updating keeps the store valid: non-empty histories, offsets in range, distinct times. */
  lemma UpdateValid<T>(s: Store<T>, key: string, val: string, time: T, heritable: bool)
    requires Valid(s)
    ensures Valid(Update(s, key, val, time, heritable))
  {
    if Cur(s, key) != Some(val) {
      var (ts, off) := TimeIndex(s.timeList, time);
      if time !in s.timeList {
        assert forall i :: 0 <= i < |s.timeList| ==> ts[i] == s.timeList[i] && s.timeList[i] != time;
      }
    }
  }

  /** A time is listed at most once, so the latest entry's offset finds the time it was given. */
  lemma UpdateLatestTime<T>(s: Store<T>, key: string, val: string, time: T, heritable: bool)
    requires Valid(s) && Cur(s, key) != Some(val)
    ensures LatestTime(Update(s, key, val, time, heritable), key) == Some(time)
  {
  }

  /**
   * With 256 distinct times listed, a value stamped with a new time wraps
   * to offset 0 and reads back the first time instead.
   */
  lemma AsWrittenOffsetWraps<T>(s: Store<T>, key: string, val: string, time: T, heritable: bool)
    requires Valid(s) && |s.timeList| == TWO_8 && time !in s.timeList && Cur(s, key) != Some(val)
    ensures LatestTime(UpdateAsWritten(s, key, val, time, heritable), key) == Some(s.timeList[0])
    ensures s.timeList[0] != time
  {
  }

  /** Replaying items leaves each key at its last item's value, or where it was. */
  lemma {:induction false} ReplayCur<T>(s: Store<T>, items: seq<Item<T>>, key: string)
    ensures Cur(Replay(s, items), key) == if LastValue(items, key).Some? then LastValue(items, key) else Cur(s, key)
    decreases |items|
  {
    if items != [] {
      var s1 := Update(s, items[0].key, items[0].value, items[0].time, items[0].heritable);
      ReplayCur(s1, items[1..], key);
    }
  }

  lemma {:induction false} LastValueConcat<T>(a: seq<Item<T>>, b: seq<Item<T>>, key: string)
    ensures LastValue(a + b, key) == if LastValue(b, key).Some? then LastValue(b, key) else LastValue(a, key)
    decreases |a|
  {
    if a != [] {
      assert (a + b)[1..] == a[1..] + b;
      LastValueConcat(a[1..], b, key);
    } else {
      assert a + b == b;
    }
  }

  /** A history's items end with the history's latest value for that key, and mention no other key. */
  lemma {:induction false} HistItemsLast<T>(k: string, h: History, ts: seq<T>, i: nat, key: string)
    requires i <= |h.values| && HistItems(k, h, ts, i).Ok?
    ensures LastValue(HistItems(k, h, ts, i).value, key) ==
      if k == key && i < |h.values| then Some(h.values[|h.values| - 1].value) else None
    decreases |h.values| - i
  {
    if i < |h.values| {
      HistItemsLast(k, h, ts, i + 1, key);
      var items := HistItems(k, h, ts, i).value;
      assert items[1..] == HistItems(k, h, ts, i + 1).value;
    }
  }

  lemma {:induction false} ItemsLast<T>(s: Store<T>, keys: seq<string>, key: string)
    requires forall k :: k in keys ==> k in s.entries
    requires Items(s, keys).Ok?
    ensures LastValue(Items(s, keys).value, key) == if key in keys then Cur(s, key) else None
    decreases |keys|
  {
    if keys != [] {
      var a := HistItems(keys[0], s.entries[keys[0]], s.timeList, 0).value;
      ItemsLast(s, keys[1..], key);
      HistItemsLast(keys[0], s.entries[keys[0]], s.timeList, 0, key);
      LastValueConcat(a, Items(s, keys[1..]).value, key);
      assert key in keys <==> key == keys[0] || key in keys[1..];
    }
  }

  /** Every offset in a valid store is in range, so its items never panic. */
  lemma {:induction false} ItemsOk<T>(s: Store<T>, keys: seq<string>)
    requires Valid(s) && forall k :: k in keys ==> k in s.entries
    ensures Items(s, keys).Ok?
    decreases |keys|
  {
    if keys != [] {
      HistItemsOk(keys[0], s.entries[keys[0]], s.timeList, 0);
      ItemsOk(s, keys[1..]);
    }
  }

  lemma {:induction false} HistItemsOk<T>(k: string, h: History, ts: seq<T>, i: nat)
    requires i <= |h.values| && forall e :: e in h.values ==> e.tOff < |ts|
    ensures HistItems(k, h, ts, i).Ok?
    decreases |h.values| - i
  {
    if i < |h.values| {
      assert h.values[i] in h.values;
      HistItemsOk(k, h, ts, i + 1);
    }
  }

  /**
   * Merging a valid store, in any key order covering its keys, leaves every
   * key it holds at its current value there and every other key as it was.
   */
  lemma MergeCur<T>(s: Store<T>, other: Store<T>, keys: seq<string>, key: string)
    requires Valid(other) && forall k :: k in keys <==> k in other.entries
    ensures Merge(s, other, keys).Ok?
    ensures Cur(Merge(s, other, keys).value, key) == if key in other.entries then Cur(other, key) else Cur(s, key)
  {
    ItemsOk(other, keys);
    ItemsLast(other, keys, key);
    ReplayCur(s, Items(other, keys).value, key);
  }

  /** A valid store's latest view never panics. */
  lemma IterLatestValid<T>(s: Store<T>)
    requires Valid(s)
    ensures IterLatest(s).Ok?
  {
    forall k | k in s.entries
      ensures s.entries[k].values[|s.entries[k].values| - 1].tOff < |s.timeList|
    {
      assert s.entries[k].values[|s.entries[k].values| - 1] in s.entries[k].values;
    }
  }

  /** A valid store's snapshot succeeds and is valid. */
  lemma SnapshotValid<T>(s: Store<T>, time: T)
    requires Valid(s)
    ensures Snapshot(s, time).Ok? && Valid(Snapshot(s, time).value)
  {
  }
}
