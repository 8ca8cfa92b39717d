/**
 * The loan-tracking store of the current crate: a map whose values can be
 * checked out (loaned) and must be checked back in. Each key is in one of
 * three states; removing a loaned value only marks it, and the value is
 * dropped when the loan returns. A counter tracks the loans outstanding.
 * Panics are the `Err` of each operation's result, carrying the message.
 */
module CheckingStore {
  import opened Ints
  import opened Wrappers

  datatype Slot<V> = Present(value: V) | Loaned | AwaitingDrop

  /** `outstanding` is a `usize` updated with wrapping atomic add/sub. */
  datatype Store<K, V> = Store(entries: map<K, Slot<V>>, outstanding: u64)

  /** A checked-out value with the key it must be returned under. */
  datatype Guard<K, V> = Guard(key: K, value: V)

  const OverwriteLoaned := "Cannot overwrite loaned value"
  const OverwriteAwaitingDrop := "Cannot overwrite value awaiting drop"
  const CheckoutLoaned := "Checking out already checked out value"
  const CheckoutAwaitingDrop := "Checking out value awaiting drop"
  const ReturningReplaced := "Returning replaced item"
  const NotFromStore := "Checking in item not from store"
  const Outlived := "value checkouts outlived store."

  function New<K, V>(): (s: Store<K, V>)
    ensures s.entries == map[] && s.outstanding == 0
  {
    Store(map[], 0)
  }

  /** The keys whose value is out on loan, whether or not removal is pending. */
  function Lent<K, V>(s: Store<K, V>): set<K>
  {
    set k | k in s.entries && !s.entries[k].Present?
  }

  /** The store's invariant: the counter is the number of loans outstanding. */
  predicate Valid<K, V>(s: Store<K, V>)
  {
    s.outstanding == |Lent(s)|
  }

  /** A key counts as present while its value is at home or on loan, not once removal is pending. */
  predicate ContainsKey<K, V>(s: Store<K, V>, k: K)
  {
    k in s.entries && !s.entries[k].AwaitingDrop?
  }

  /** Inserting over a value at home replaces it; over a loaned one it panics. */
  function Insert<K, V>(s: Store<K, V>, k: K, v: V): (r: Result<Store<K, V>, string>)
    ensures r.Ok? <==> k !in s.entries || s.entries[k].Present?
    ensures r.Ok? ==> r.value == s.(entries := s.entries[k := Present(v)])
    ensures r.Err? ==> r.error == (if s.entries[k].Loaned? then OverwriteLoaned else OverwriteAwaitingDrop)
  {
    if k !in s.entries then Ok(s.(entries := s.entries[k := Present(v)]))
    else match s.entries[k]
      case Present(_) => Ok(s.(entries := s.entries[k := Present(v)]))
      case Loaned => Err(OverwriteLoaned)
      case AwaitingDrop => Err(OverwriteAwaitingDrop)
  }

  /**
   * Removal deletes a value at home, marks a loaned one for dropping on
   * return, and reports whether the key was present.
   */
  function Remove<K, V>(s: Store<K, V>, k: K): (r: (Store<K, V>, bool))
    ensures r.1 <==> ContainsKey(s, k)
    ensures !ContainsKey(r.0, k)
    ensures r.0.outstanding == s.outstanding
    ensures r.0.entries - {k} == s.entries - {k}
    ensures k in r.0.entries <==> k in s.entries && !s.entries[k].Present?
  {
    if k !in s.entries then (s, false)
    else match s.entries[k]
      case Present(_) => (s.(entries := s.entries - {k}), true)
      case Loaned => (s.(entries := s.entries[k := AwaitingDrop]), true)
      case AwaitingDrop => (s, false)
  }

  /** Checking out lends a value at home; a missing key gives `None`; a lent key panics. */
  function Checkout<K, V>(s: Store<K, V>, k: K): (r: Result<(Store<K, V>, Option<Guard<K, V>>), string>)
    ensures r.Ok? <==> k !in s.entries || s.entries[k].Present?
    ensures r.Ok? && k !in s.entries ==> r.value == (s, None)
    ensures r.Ok? && k in s.entries ==>
      r.value.1 == Some(Guard(k, s.entries[k].value))
      && r.value.0.entries == s.entries[k := Loaned]
      && r.value.0.outstanding == ToU64(s.outstanding + 1)
    ensures r.Err? ==> r.error == (if s.entries[k].Loaned? then CheckoutLoaned else CheckoutAwaitingDrop)
  {
    if k !in s.entries then Ok((s, None))
    else match s.entries[k]
      case Present(v) => Ok((Store(s.entries[k := Loaned], ToU64(s.outstanding + 1)), Some(Guard(k, v))))
      case Loaned => Err(CheckoutLoaned)
      case AwaitingDrop => Err(CheckoutAwaitingDrop)
  }

  /** Checks a value out and unwraps the result: a missing key is the unwrap panic. */
  function Take<K, V>(s: Store<K, V>, k: K): (r: Result<(Store<K, V>, Guard<K, V>), string>)
    ensures r.Ok? <==> k in s.entries && s.entries[k].Present?
    ensures r.Ok? ==> r.value.1 == Guard(k, s.entries[k].value)
    ensures r.Ok? ==> r.value.0.entries == s.entries[k := Loaned] && r.value.0.outstanding == ToU64(s.outstanding + 1)
    ensures k !in s.entries ==> r == Err(UnwrapNone)
    ensures k in s.entries && !s.entries[k].Present? ==>
      r == Err(if s.entries[k].Loaned? then CheckoutLoaned else CheckoutAwaitingDrop)
  {
    match Checkout(s, k)
      case Err(e) => Err(e)
      case Ok((s1, None)) => Err(UnwrapNone)
      case Ok((s1, Some(g))) => Ok((s1, g))
  }

  /**
   * Checking in returns a loan: the value goes home, or is dropped when
   * removal was requested meanwhile. A key at home or unknown panics.
   */
  function Checkin<K, V>(s: Store<K, V>, k: K, v: V): (r: Result<Store<K, V>, string>)
    ensures r.Ok? <==> k in s.entries && !s.entries[k].Present?
    ensures r.Ok? ==> r.value.outstanding == ToU64(s.outstanding - 1)
    ensures r.Ok? && s.entries[k].Loaned? ==> r.value.entries == s.entries[k := Present(v)]
    ensures r.Ok? && s.entries[k].AwaitingDrop? ==> r.value.entries == s.entries - {k}
    ensures r.Err? ==> r.error == (if k in s.entries then ReturningReplaced else NotFromStore)
  {
    if k !in s.entries then Err(NotFromStore)
    else
      var n := ToU64(s.outstanding - 1);
      match s.entries[k]
        case Present(_) => Err(ReturningReplaced)
        case Loaned => Ok(Store(s.entries[k := Present(v)], n))
        case AwaitingDrop => Ok(Store(s.entries - {k}, n))
  }

  /**
   * Dropping a guard checks its (possibly edited) value back in: afterwards
   * the key is no longer on loan, and it stays present exactly when it was
   * present before.
   */
  function DropGuard<K, V>(s: Store<K, V>, g: Guard<K, V>): (r: Result<Store<K, V>, string>)
    ensures r.Ok? <==> g.key in Lent(s)
    ensures r.Ok? ==> g.key !in Lent(r.value) && (ContainsKey(r.value, g.key) <==> ContainsKey(s, g.key))
    ensures r.Ok? && ContainsKey(r.value, g.key) ==> r.value.entries[g.key] == Present(g.value)
  {
    Checkin(s, g.key, g.value)
  }

  /** Dropping the store panics, with the count, while loans are outstanding. */
  function DropStore<K, V>(s: Store<K, V>): (r: Result<(), (u64, string)>)
    ensures r.Ok? <==> s.outstanding == 0
    ensures r.Err? ==> r.error.0 == s.outstanding
  {
    if s.outstanding != 0 then Err((s.outstanding, Outlived)) else Ok(())
  }

  /** A valid store whose keys all lie in [0, n) has at most n loans out. */
  lemma LentBounded<V>(s: Store<i64, V>, n: nat)
    requires Valid(s)
    requires forall k :: k in s.entries ==> 0 <= k < n
    ensures s.outstanding <= n
  {
    BoundedIdsCard(Lent(s), n);
  }

  /** A set of ids drawn from [0, n) has at most n members. */
  lemma {:induction false} BoundedIdsCard(ids: set<int>, n: nat)
    requires forall i :: i in ids ==> 0 <= i < n
    ensures |ids| <= n
    decreases n
  {
    if n > 0 {
      BoundedIdsCard(ids - {n - 1}, n - 1);
    } else {
      assert forall i :: i !in ids;
      assert ids == {};
    }
  }

  lemma NewValid<K, V>()
    ensures Valid(New<K, V>()) && Lent(New<K, V>()) == {}
  {
    assert Lent(New<K, V>()) == {};
  }

  lemma InsertValid<K, V>(s: Store<K, V>, k: K, v: V)
    requires Valid(s)
    ensures Insert(s, k, v).Ok? ==> Valid(Insert(s, k, v).value)
  {
    if Insert(s, k, v).Ok? {
      assert Lent(Insert(s, k, v).value) == Lent(s);
    }
  }

  lemma RemoveValid<K, V>(s: Store<K, V>, k: K)
    requires Valid(s)
    ensures Valid(Remove(s, k).0)
  {
    assert Lent(Remove(s, k).0) == Lent(s);
  }

  /** A checkout keeps the invariant while the counter cannot wrap. */
  lemma CheckoutValid<K, V>(s: Store<K, V>, k: K)
    requires Valid(s) && s.outstanding < TWO_64 - 1
    ensures Checkout(s, k).Ok? ==> Valid(Checkout(s, k).value.0)
  {
    if Checkout(s, k).Ok? && k in s.entries {
      assert Lent(Checkout(s, k).value.0) == Lent(s) + {k};
    }
  }

  lemma CheckinValid<K, V>(s: Store<K, V>, k: K, v: V)
    requires Valid(s)
    ensures Checkin(s, k, v).Ok? ==> Valid(Checkin(s, k, v).value)
  {
    if Checkin(s, k, v).Ok? {
      assert k in Lent(s);
      assert Lent(Checkin(s, k, v).value) == Lent(s) - {k};
    }
  }

  /** Under the invariant the store can be dropped exactly when nothing is on loan. */
  lemma DropStoreIffNoLoans<K, V>(s: Store<K, V>)
    requires Valid(s)
    ensures DropStore(s).Ok? <==> forall k :: k in s.entries ==> s.entries[k].Present?
  {
    if exists k :: k in s.entries && !s.entries[k].Present? {
      var k :| k in s.entries && !s.entries[k].Present?;
      assert k in Lent(s);
    } else {
      assert Lent(s) == {};
    }
  }

  /**
   * A checkout followed by the guard's drop puts the edited value home and
   * leaves the counter where it was: edits through a guard persist.
   */
  lemma GuardRoundTrip<K, V>(s: Store<K, V>, k: K, v': V)
    requires s.outstanding < TWO_64 - 1
    requires k in s.entries && s.entries[k].Present?
    ensures
      var r := Checkout(s, k);
      r.Ok? && r.value.1.Some?
      && DropGuard(r.value.0, r.value.1.value.(value := v'))
         == Ok(Store(s.entries[k := Present(v')], s.outstanding))
  {
    assert s.entries[k := Loaned][k := Present(v')] == s.entries[k := Present(v')];
  }

  /** Removing a loaned value and then returning the loan drops it. */
  lemma RemoveWhileLoaned<K, V>(s: Store<K, V>, k: K)
    requires s.outstanding < TWO_64 - 1
    requires k in s.entries && s.entries[k].Present?
    ensures
      var (s1, g) := Checkout(s, k).value;
      var (s2, removed) := Remove(s1, k);
      removed && !ContainsKey(s2, k)
      && DropGuard(s2, g.value) == Ok(Store(s.entries - {k}, s.outstanding))
  {
    var (s1, g) := Checkout(s, k).value;
    var s2 := Remove(s1, k).0;
    assert s2.entries == s.entries[k := AwaitingDrop];
    assert s2.entries - {k} == s.entries - {k};
    assert s2.outstanding == s.outstanding + 1;
  }

  /** A second removal reports false and changes nothing. */
  lemma RemoveIdempotent<K, V>(s: Store<K, V>, k: K)
    ensures var s1 := Remove(s, k).0; Remove(s1, k) == (s1, false)
  {
  }

  /** An inserted value is present and comes back from a checkout unchanged. */
  lemma InsertThenCheckout<K, V>(s: Store<K, V>, k: K, v: V)
    requires k !in s.entries || s.entries[k].Present?
    ensures
      var s1 := Insert(s, k, v).value;
      ContainsKey(s1, k) && Checkout(s1, k).Ok? && Checkout(s1, k).value.1 == Some(Guard(k, v))
  {
  }
}
