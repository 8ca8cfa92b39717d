/**
 * A bidirectional relation between two key types: `fwd` maps each left key
 * to the right keys it is paired with, and `rev` the other way round.
 */
module BiStore {
  import opened Wrappers

  datatype Store<T, U> = Store(fwd: map<T, set<U>>, rev: map<U, set<T>>)

  const IndexMissing := "key not present in map"

  function New<T, U>(): (s: Store<T, U>)
    ensures s.fwd == map[] && s.rev == map[]
  {
    Store(map[], map[])
  }

  /** The pair (a, b) as `fwd` records it. */
  predicate Fwd<T(!new), U(!new)>(s: Store<T, U>, a: T, b: U)
  {
    a in s.fwd && b in s.fwd[a]
  }

  /** The pair (a, b) as `rev` records it. */
  predicate Rev<T(!new), U(!new)>(s: Store<T, U>, a: T, b: U)
  {
    b in s.rev && a in s.rev[b]
  }

  /** The two sides record the same pairs. */
  ghost predicate Consistent<T(!new), U(!new)>(s: Store<T, U>)
  {
    forall a, b :: Fwd(s, a, b) <==> Rev(s, a, b)
  }

  /** Pairs a with b on both sides; true when b was not yet among a's partners. */
  function Insert<T(!new), U(!new)>(s: Store<T, U>, a: T, b: U): (r: (Store<T, U>, bool))
    ensures r.1 <==> !Fwd(s, a, b)
    ensures Fwd(r.0, a, b) && Rev(r.0, a, b)
    ensures forall x, y :: (x, y) != (a, b) ==> (Fwd(r.0, x, y) <==> Fwd(s, x, y)) && (Rev(r.0, x, y) <==> Rev(s, x, y))
  {
    var rev := if b in s.rev then s.rev[b := s.rev[b] + {a}] else s.rev[b := {a}];
    if a in s.fwd then (Store(s.fwd[a := s.fwd[a] + {b}], rev), b !in s.fwd[a])
    else (Store(s.fwd[a := {b}], rev), true)
  }

  /** Unpairs a and b on both sides; true when b was among a's partners. */
  function Remove<T(!new), U(!new)>(s: Store<T, U>, a: T, b: U): (r: (Store<T, U>, bool))
    ensures r.1 <==> Fwd(s, a, b)
    ensures !Fwd(r.0, a, b) && !Rev(r.0, a, b)
    ensures forall x, y :: (x, y) != (a, b) ==> (Fwd(r.0, x, y) <==> Fwd(s, x, y)) && (Rev(r.0, x, y) <==> Rev(s, x, y))
  {
    var rev := if b in s.rev then s.rev[b := s.rev[b] - {a}] else s.rev;
    if a in s.fwd then (Store(s.fwd[a := s.fwd[a] - {b}], rev), b in s.fwd[a])
    else (Store(s.fwd, rev), false)
  }

  /** True when a has no partner (never inserted, or all removed). */
  function IsEmpty<T, U>(s: Store<T, U>, a: T): (r: bool)
  {
    if a in s.fwd then s.fwd[a] == {} else true
  }

  /** `IsEmpty` holds exactly when no pair starts at a. */
  lemma IsEmptyIffNoPartner<T(!new), U(!new)>(s: Store<T, U>, a: T)
    ensures IsEmpty(s, a) <==> forall b :: !Fwd(s, a, b)
  {
    if a in s.fwd && s.fwd[a] != {} {
      var b :| b in s.fwd[a];
      assert Fwd(s, a, b);
    }
  }

  /** The left keys paired with b; a b never inserted panics (map indexing). */
  function RevIter<T(!new), U(!new)>(s: Store<T, U>, b: U): (r: Result<set<T>, string>)
    ensures r.Ok? <==> b in s.rev
    ensures r.Ok? ==> forall a :: a in r.value <==> Rev(s, a, b)
  {
    if b in s.rev then Ok(s.rev[b]) else Err(IndexMissing)
  }

  lemma NewConsistent<T(!new), U(!new)>()
    ensures Consistent(New<T, U>())
  {
  }

  lemma InsertConsistent<T(!new), U(!new)>(s: Store<T, U>, a: T, b: U)
    requires Consistent(s)
    ensures Consistent(Insert(s, a, b).0)
  {
    var r := Insert(s, a, b).0;
    forall x, y ensures Fwd(r, x, y) <==> Rev(r, x, y) {
      if (x, y) != (a, b) {
        assert Fwd(s, x, y) <==> Rev(s, x, y);
      }
    }
  }

  lemma RemoveConsistent<T(!new), U(!new)>(s: Store<T, U>, a: T, b: U)
    requires Consistent(s)
    ensures Consistent(Remove(s, a, b).0)
  {
    var r := Remove(s, a, b).0;
    forall x, y ensures Fwd(r, x, y) <==> Rev(r, x, y) {
      if (x, y) != (a, b) {
        assert Fwd(s, x, y) <==> Rev(s, x, y);
      }
    }
  }

  /** On a consistent store, the reverse view of b is exactly the keys whose forward partners include b. */
  lemma RevIterExact<T(!new), U(!new)>(s: Store<T, U>, b: U)
    requires Consistent(s) && b in s.rev
    ensures forall a :: a in RevIter(s, b).value <==> Fwd(s, a, b)
  {
    forall a ensures a in RevIter(s, b).value <==> Fwd(s, a, b) {
      assert Fwd(s, a, b) <==> Rev(s, a, b);
    }
  }

  /** Inserting a pair that is already there reports false and changes nothing observable. */
  lemma InsertTwice<T(!new), U(!new)>(s: Store<T, U>, a: T, b: U)
    ensures var s1 := Insert(s, a, b).0; !Insert(s1, a, b).1
  {
  }

  /** Removing an inserted pair reports true. */
  lemma InsertThenRemove<T(!new), U(!new)>(s: Store<T, U>, a: T, b: U)
    ensures Remove(Insert(s, a, b).0, a, b).1
    ensures !Fwd(Remove(Insert(s, a, b).0, a, b).0, a, b)
  {
  }

  /**
   * The store's usage example: (1,1) and (1,2) are new, (1,2) again is
   * not, and 2's reverse view holds 1 alone.
   */
  lemma RegularUse()
    ensures
      var (s1, i1) := Insert(New<int, int>(), 1, 1);
      var (s2, i2) := Insert(s1, 1, 2);
      var (s3, i3) := Insert(s2, 1, 2);
      i1 && i2 && !i3 && RevIter(s3, 2) == Ok({1})
  {
    var (s1, i1) := Insert(New<int, int>(), 1, 1);
    var (s2, i2) := Insert(s1, 1, 2);
    var (s3, i3) := Insert(s2, 1, 2);
    assert s3.rev[2] == {1};
  }
}
