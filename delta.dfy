/**
 * The generic delta computation shared by both handlers: the set of
 * destination ids, the order-preserving filter of source records whose id
 * is not in it, and the record-by-record schema mapping.
 */
module Delta {

  /** `new Set(dest.map(key))`: the ids of all destination records. */
  function IdSet<D>(dest: seq<D>, key: D -> int): (ids: set<int>)
    ensures forall d | d in dest :: key(d) in ids
    ensures forall k | k in ids :: exists d | d in dest :: key(d) == k
  {
    if dest == [] then {}
    else
      var rest := IdSet(dest[1..], key);
      assert forall d | d in dest[1..] :: d in dest;
      {key(dest[0])} + rest
  }

  /** `src.filter(s => !ids.has(key(s)))`: the source records whose id is not in `ids`, in source order. */
  function Unmatched<S>(src: seq<S>, key: S -> int, ids: set<int>): (r: seq<S>)
    ensures |r| <= |src|
    ensures forall s | s in r :: s in src && key(s) !in ids
    ensures forall s | s in src && key(s) !in ids :: s in r
  {
    if src == [] then []
    else if key(src[0]) in ids then Unmatched(src[1..], key, ids)
    else [src[0]] + Unmatched(src[1..], key, ids)
  }

  /** `xs.map(f)`. */
  function MapAll<S, D>(xs: seq<S>, f: S -> D): (ys: seq<D>)
    ensures |ys| == |xs|
    ensures forall i | 0 <= i < |xs| :: ys[i] == f(xs[i])
  {
    if xs == [] then [] else [f(xs[0])] + MapAll(xs[1..], f)
  }

  /** `a` is `b` with some elements left out and the rest kept in order. */
  ghost predicate IsSubsequence<T>(a: seq<T>, b: seq<T>)
    decreases |b|
  {
    a == [] ||
    (b != [] && ((a[0] == b[0] && IsSubsequence(a[1..], b[1..])) || IsSubsequence(a, b[1..])))
  }

  /** The filter keeps source order: its result is a subsequence of the source. */
  lemma {:induction false} UnmatchedIsSubsequence<S>(src: seq<S>, key: S -> int, ids: set<int>)
    ensures IsSubsequence(Unmatched(src, key, ids), src)
  {
    var r := Unmatched(src, key, ids);
    if src != [] {
      UnmatchedIsSubsequence(src[1..], key, ids);
      if key(src[0]) !in ids {
        assert r[0] == src[0] && r[1..] == Unmatched(src[1..], key, ids);
      }
    }
  }

  /**
   * The filter keeps every copy of a record whose id is absent and drops
   * every copy of a record whose id is present.
   */
  lemma {:induction false} UnmatchedCounts<S>(src: seq<S>, key: S -> int, ids: set<int>)
    ensures forall s :: multiset(Unmatched(src, key, ids))[s] == if key(s) in ids then 0 else multiset(src)[s]
  {
    if src != [] {
      UnmatchedCounts(src[1..], key, ids);
      assert src == [src[0]] + src[1..];
      assert multiset(src) == multiset{src[0]} + multiset(src[1..]);
    }
  }

  /** When every source id is among the ids, the filter keeps nothing. */
  lemma AllMatchedIsEmpty<S>(src: seq<S>, key: S -> int, ids: set<int>)
    requires forall s | s in src :: key(s) in ids
    ensures Unmatched(src, key, ids) == []
  {
  }

  /** The mapping carries a record's source id over to its destination id. */
  ghost predicate KeepsKey<S(!new), D>(srcKey: S -> int, destKey: D -> int, f: S -> D) {
    forall s :: destKey(f(s)) == srcKey(s)
  }

  /** The records the sync would write: unmatched source records, mapped. */
  function NewRecords<S, D>(src: seq<S>, dest: seq<D>, srcKey: S -> int, destKey: D -> int, f: S -> D): (r: seq<D>)
    ensures |r| <= |src|
    ensures forall i | 0 <= i < |r| :: exists s | s in src && srcKey(s) !in IdSet(dest, destKey) :: r[i] == f(s)
  {
    var delta := Unmatched(src, srcKey, IdSet(dest, destKey));
    var r := MapAll(delta, f);
    assert forall i | 0 <= i < |r| :: delta[i] in delta && r[i] == f(delta[i]);
    r
  }

  /**
   * Soundness of the delta: when the mapping keeps keys, no record written has
   * the id of a record already in the destination, and every source record
   * whose id the destination lacks is written.
   */
  lemma NewRecordsExact<S(!new), D>(src: seq<S>, dest: seq<D>, srcKey: S -> int, destKey: D -> int, f: S -> D)
    requires KeepsKey(srcKey, destKey, f)
    ensures forall d | d in NewRecords(src, dest, srcKey, destKey, f) :: destKey(d) !in IdSet(dest, destKey)
    ensures forall s | s in src && srcKey(s) !in IdSet(dest, destKey) :: f(s) in NewRecords(src, dest, srcKey, destKey, f)
  {
    var delta := Unmatched(src, srcKey, IdSet(dest, destKey));
    var r := NewRecords(src, dest, srcKey, destKey, f);
    forall s | s in src && srcKey(s) !in IdSet(dest, destKey)
      ensures f(s) in r
    {
      var i :| 0 <= i < |delta| && delta[i] == s;
      assert r[i] == f(s);
    }
  }

  /**
   * Idempotence: once the destination holds the records a sync wrote, a
   * second sync from the same source finds nothing new.
   */
  lemma {:induction false} SyncTwiceFindsNothing<S(!new), D>(src: seq<S>, dest: seq<D>, srcKey: S -> int, destKey: D -> int, f: S -> D)
    requires KeepsKey(srcKey, destKey, f)
    ensures NewRecords(src, dest + NewRecords(src, dest, srcKey, destKey, f), srcKey, destKey, f) == []
  {
    var ids := IdSet(dest, destKey);
    var written := NewRecords(src, dest, srcKey, destKey, f);
    var after := dest + written;
    var ids' := IdSet(after, destKey);
    forall s | s in src
      ensures srcKey(s) in ids'
    {
      if srcKey(s) in ids {
        var d :| d in dest && destKey(d) == srcKey(s);
        assert d in after;
      } else {
        NewRecordsExact(src, dest, srcKey, destKey, f);
        assert f(s) in after;
      }
    }
    AllMatchedIsEmpty(src, srcKey, ids');
  }
}
