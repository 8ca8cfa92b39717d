/**
 * The inverse Bloom filter: 256 slots, each remembering the last hash that
 * landed in it. A check answers "seen before" only when its slot still
 * holds the same hash, so it can forget (false negatives) but a true answer
 * needs a colliding hash to be wrong. The string hash is a parameter.
 */
module InvBloom {
  import opened Ints

  const N := 256

  type Slots = s: seq<u64> | |s| == N witness seq(N, i => 0)

  datatype Filter = Filter(data: Slots)

  function New(): (f: Filter)
    ensures forall i :: 0 <= i < N ==> f.data[i] == 0
  {
    Filter(seq(N, i => 0))
  }

  /**
   * Stores the test string's hash in slot `hash % 256` and reports whether
   * that slot held exactly this hash before.
   */
  function Check(f: Filter, hash: string -> u64, test: string): (r: (Filter, bool))
    ensures r.1 <==> f.data[hash(test) % N] == hash(test)
    ensures r.0.data[hash(test) % N] == hash(test)
    ensures forall i :: 0 <= i < N && i != hash(test) % N ==> r.0.data[i] == f.data[i]
  {
    var h := hash(test);
    var prev := f.data[h % N];
    (Filter(f.data[h % N := h]), prev == h)
  }

  /** The same string checked twice in a row is reported seen the second time. */
  lemma CheckTwice(f: Filter, hash: string -> u64, test: string)
    ensures Check(Check(f, hash, test).0, hash, test).1
  {
  }

  /** On a new filter only a zero hash is reported seen. */
  lemma FreshFilter(hash: string -> u64, test: string)
    ensures Check(New(), hash, test).1 <==> hash(test) == 0
  {
  }

  /** A string is reported seen after another only when their hashes are equal. */
  lemma SeenMeansSameHash(f: Filter, hash: string -> u64, a: string, b: string)
    requires Check(Check(f, hash, a).0, hash, b).1
    requires hash(a) % N == hash(b) % N
    ensures hash(a) == hash(b)
  {
  }
}
