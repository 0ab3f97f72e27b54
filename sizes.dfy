/** A variant's size -> quantity object. A JavaScript object keeps its keys
    unique; keys that are not array indices keep their insertion order, and
    `Object.values` lists the quantities in that order. The size labels are
    such keys, so the object is an association list with unique keys. */
module Sizes {

  import Folds

  datatype SizeEntry = SizeEntry(size: string, qty: int)

  ghost predicate UniqueKeys(s: seq<SizeEntry>) {
    forall i, j :: 0 <= i < j < |s| ==> s[i].size != s[j].size
  }

  type SizeMap = s: seq<SizeEntry> | UniqueKeys(s) witness []

  /** The garment sizes the form offers an input for. */
  const Labels: seq<string> := ["XS", "S", "M", "L", "XL", "2XL", "3XL", "4XL", "5XL"]

  /** A non-empty run of digits. JavaScript lists array-index keys before all
      others, in ascending order. Every array-index key is index-like; the
      converse fails ("01" is not an array index). */
  predicate IndexLike(k: string) {
    |k| > 0 && forall c :: c in k ==> '0' <= c <= '9'
  }

  /** The size labels are distinct and none is index-like, so an object
      keyed by them lists its entries in insertion order. */
  lemma LabelsKeepInsertionOrder()
    ensures forall i, j :: 0 <= i < j < |Labels| ==> Labels[i] != Labels[j]
    ensures forall i :: 0 <= i < |Labels| ==> !IndexLike(Labels[i])
  {
    forall i | 0 <= i < |Labels| ensures !IndexLike(Labels[i]) {
      assert Labels[i][|Labels[i]| - 1] in Labels[i];
    }
  }

  /** Some entry of s is stored under k. */
  ghost predicate HasKey(s: seq<SizeEntry>, k: string) {
    exists i :: 0 <= i < |s| && s[i].size == k
  }

  /** `sizes[k] || 0`: the quantity stored under k, or 0 when k has no entry. */
  function Lookup(s: seq<SizeEntry>, k: string): (q: int)
    ensures !HasKey(s, k) ==> q == 0
    ensures HasKey(s, k) ==> exists i :: 0 <= i < |s| && s[i].size == k && s[i].qty == q
    decreases |s|
  {
    if s == [] then 0
    else if s[0].size == k then s[0].qty
    else
      assert HasKey(s, k) ==> HasKey(s[1..], k) by {
        if HasKey(s, k) {
          var i :| 0 <= i < |s| && s[i].size == k;
          assert s[1..][i - 1].size == k;
        }
      }
      Lookup(s[1..], k)
  }

  /** `Object.values(sizes)`. */
  function Values(s: seq<SizeEntry>): (vs: seq<int>)
    ensures |vs| == |s|
    ensures forall i :: 0 <= i < |s| ==> vs[i] == s[i].qty
    decreases |s|
  {
    if s == [] then [] else [s[0].qty] + Values(s[1..])
  }

  /** The association-list update behind `Set`. */
  function Put(s: seq<SizeEntry>, k: string, q: int): (r: seq<SizeEntry>)
    ensures Lookup(r, k) == q
    ensures forall k' :: k' != k ==> Lookup(r, k') == Lookup(s, k')
    ensures forall i :: 0 <= i < |r| ==> r[i].size == k || HasKey(s, r[i].size)
    decreases |s|
  {
    if s == [] then [SizeEntry(k, q)]
    else if s[0].size == k then [SizeEntry(k, q)] + s[1..]
    else [s[0]] + Put(s[1..], k, q)
  }

  /** `{ ...sizes, [k]: q }`: an existing key keeps its position and takes the
      new quantity; a new key is appended. */
  function Set(s: SizeMap, k: string, q: int): (r: SizeMap)
    ensures Lookup(r, k) == q
    ensures forall k' :: k' != k ==> Lookup(r, k') == Lookup(s, k')
    ensures !HasKey(s, k) ==> r == s + [SizeEntry(k, q)]
    ensures HasKey(s, k) ==> |r| == |s|
    ensures HasKey(s, k) ==> forall i :: 0 <= i < |s| ==>
              r[i] == (if s[i].size == k then SizeEntry(k, q) else s[i])
  {
    PutShape(s, k, q);
    PutUnique(s, k, q);
    PutInPlace(s, k, q);
    Put(s, k, q)
  }

  lemma HasKeyTail(s: seq<SizeEntry>, k: string)
    requires s != [] && s[0].size != k
    ensures HasKey(s, k) <==> HasKey(s[1..], k)
  {
    if HasKey(s, k) {
      var i :| 0 <= i < |s| && s[i].size == k;
      assert s[1..][i - 1].size == k;
    }
    if HasKey(s[1..], k) {
      var i :| 0 <= i < |s[1..]| && s[1..][i].size == k;
      assert s[i + 1].size == k;
    }
  }

  lemma {:induction false} PutShape(s: seq<SizeEntry>, k: string, q: int)
    ensures !HasKey(s, k) ==> Put(s, k, q) == s + [SizeEntry(k, q)]
    ensures HasKey(s, k) ==> |Put(s, k, q)| == |s|
    decreases |s|
  {
    if s != [] && s[0].size != k {
      HasKeyTail(s, k);
      PutShape(s[1..], k, q);
      assert s == [s[0]] + s[1..];
    } else if s != [] {
      assert HasKey(s, k);
    }
  }

  /** An existing key is rewritten where it stands; every other entry keeps
      its position and its quantity. */
  lemma {:induction false} PutInPlace(s: SizeMap, k: string, q: int)
    ensures HasKey(s, k) ==> |Put(s, k, q)| == |s|
    ensures HasKey(s, k) ==> forall i :: 0 <= i < |s| ==>
              Put(s, k, q)[i] == (if s[i].size == k then SizeEntry(k, q) else s[i])
    decreases |s|
  {
    if HasKey(s, k) {
      var r := Put(s, k, q);
      if s[0].size == k {
        assert r == [SizeEntry(k, q)] + s[1..];
        forall i | 1 <= i < |s| ensures s[i].size != k {
          assert s[0].size != s[i].size;
        }
      } else {
        var rest: SizeMap := s[1..];
        HasKeyTail(s, k);
        PutInPlace(rest, k, q);
        assert r == [s[0]] + Put(rest, k, q);
        forall i | 1 <= i < |s|
          ensures r[i] == (if s[i].size == k then SizeEntry(k, q) else s[i])
        {
          assert r[i] == Put(rest, k, q)[i - 1] && s[i] == rest[i - 1];
        }
      }
    }
  }

  lemma {:induction false} PutUnique(s: SizeMap, k: string, q: int)
    ensures UniqueKeys(Put(s, k, q))
    decreases |s|
  {
    if s != [] && s[0].size != k {
      var rest: SizeMap := s[1..];
      PutUnique(rest, k, q);
      var r := Put(s, k, q);
      assert r == [s[0]] + Put(rest, k, q);
      forall j | 1 <= j < |r| ensures r[j].size != r[0].size {
        if r[j].size != k {
          var i :| 0 <= i < |rest| && rest[i].size == r[j].size;
          assert s[i + 1] == rest[i];
        }
      }
    }
  }

  function QtyOf(e: SizeEntry): int { e.qty }

  /** Setting one key changes the sum of all quantities by the difference
      between the new quantity and the one the key read before. */
  lemma {:induction false} SumAfterSet(s: SizeMap, k: string, q: int)
    ensures Folds.SumOf(Set(s, k, q), QtyOf) == Folds.SumOf(s, QtyOf) - Lookup(s, k) + q
    decreases |s|
  {
    if s == [] {
    } else if s[0].size == k {
      assert Set(s, k, q)[1..] == s[1..];
    } else {
      SumAfterSet(s[1..], k, q);
      assert Set(s, k, q)[1..] == Set(s[1..], k, q);
    }
  }

  lemma {:induction false} ValuesSumOf(s: seq<SizeEntry>, g: int -> int)
    requires forall x :: g(x) == x
    ensures Folds.SumOf(Values(s), g) == Folds.SumOf(s, QtyOf)
    decreases |s|
  {
    if s != [] {
      ValuesSumOf(s[1..], g);
      assert Values(s)[1..] == Values(s[1..]);
    }
  }
}
