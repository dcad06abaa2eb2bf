/** Ruby Hash operations used by the client, on ordered entry sequences, and the
    mutable hash object a caller hands to an event builder. */
module Hashes {
  import opened Values
  import opened Seqs

  /** `hash.keys`, in iteration order. */
  function Keys(h: Entries): seq<string> {
    seq(|h|, i requires 0 <= i < |h| => h[i].0)
  }

  /** A Ruby Hash never holds a key twice. */
  predicate UniqueKeys(h: Entries) {
    forall i, j :: 0 <= i < j < |h| ==> h[i].0 != h[j].0
  }

  /** The position of the first entry for `k`, or -1 when `k` is not a key. */
  function Find(h: Entries, k: string): (i: int)
    ensures -1 <= i < |h|
    ensures i < 0 <==> k !in Keys(h)
    ensures 0 <= i ==> h[i].0 == k && forall j :: 0 <= j < i ==> h[j].0 != k
  {
    if h == [] then -1
    else
      assert Keys(h) == [h[0].0] + Keys(h[1..]);
      if h[0].0 == k then 0
      else
        var j := Find(h[1..], k);
        if j < 0 then -1 else j + 1
  }

  /** `hash[k]`: the value stored under `k`, `nil` when `k` is absent. */
  function Get(h: Entries, k: string): (v: Value)
    ensures k !in Keys(h) ==> v == Nil
    ensures k in Keys(h) ==> (k, v) in h
  {
    var i := Find(h, k);
    if i < 0 then Nil
    else
      assert h[i] in h;
      h[i].1
  }

  /** In a Hash with distinct keys, `hash[k]` is the value of every entry for `k`: there is
      exactly one, and a missing key has none. */
  lemma GetUnique(h: Entries, k: string)
    requires UniqueKeys(h)
    ensures forall e :: e in h && e.0 == k ==> e.1 == Get(h, k) && k in Keys(h)
  {
    var i := Find(h, k);
    forall e | e in h && e.0 == k ensures e.1 == Get(h, k) && k in Keys(h) {
      var j :| 0 <= j < |h| && h[j] == e;
      assert Keys(h)[j] == k;
    }
  }

  /** `hash[k] = v`: an existing key keeps its position and takes the new value;
      a new key is appended. */
  function Put(h: Entries, k: string, v: Value): (r: Entries)
    ensures (k, v) in r
    ensures |r| == if k in Keys(h) then |h| else |h| + 1
    ensures forall e :: e in h && e.0 != k ==> e in r
  {
    var i := Find(h, k);
    if i < 0 then h + [(k, v)]
    else
      var r := h[i := (k, v)];
      assert r[i] == (k, v);
      assert forall e :: e in h && e.0 != k ==> e in r by {
        forall e | e in h && e.0 != k ensures e in r {
          var j :| 0 <= j < |h| && h[j] == e;
          assert r[j] == e;
        }
      }
      r
  }

  /** Two entry sequences with the same keys find every key at the same place. */
  lemma FindSameKeys(h: Entries, h': Entries, k: string)
    requires Keys(h) == Keys(h')
    ensures Find(h, k) == Find(h', k)
  {
    assert |h| == |Keys(h)| == |h'|;
    var i, i' := Find(h, k), Find(h', k);
    assert forall j :: 0 <= j < |h| ==> h[j].0 == Keys(h)[j] == h'[j].0;
  }

  /** A key appended to a hash that lacked it is found at the end. */
  lemma AppendedFoundLast(h: Entries, k: string, v: Value)
    requires k !in Keys(h)
    ensures Find(h + [(k, v)], k) == |h|
  {
    var r := h + [(k, v)];
    assert Keys(r)[|h|] == k;
    assert forall j :: 0 <= j < |h| ==> r[j].0 == Keys(h)[j];
  }

  /** Storing a value makes it the one read back. */
  lemma PutGet(h: Entries, k: string, v: Value)
    ensures Get(Put(h, k, v), k) == v
    ensures k in Keys(Put(h, k, v))
  {
    var i := Find(h, k);
    var r := Put(h, k, v);
    if i < 0 {
      AppendedFoundLast(h, k, v);
      assert Keys(r)[|h|] == k;
    } else {
      assert Keys(r) == Keys(h);
      FindSameKeys(h, r, k);
    }
  }

  /** Storing under `k` changes what no other key reads. */
  lemma PutGetOther(h: Entries, k: string, v: Value, k': string)
    requires k' != k
    ensures Get(Put(h, k, v), k') == Get(h, k')
    ensures k' in Keys(Put(h, k, v)) <==> k' in Keys(h)
  {
    var i := Find(h, k);
    var r := Put(h, k, v);
    if i < 0 {
      assert Keys(r) == Keys(h) + [k];
      var j := Find(h, k');
      if j >= 0 {
        assert r[j] == h[j];
      } else {
        assert k' !in Keys(r);
      }
    } else {
      assert Keys(r) == Keys(h);
      FindSameKeys(h, r, k');
    }
  }

  /** Everything `hash[k] = v` does: `k` reads `v`, is a key, and no other key's
      value or position changes. */
  lemma PutEffect(h: Entries, k: string, v: Value)
    ensures Get(Put(h, k, v), k) == v
    ensures forall k' :: k' != k ==> Get(Put(h, k, v), k') == Get(h, k')
    ensures forall k' :: k' in Keys(Put(h, k, v)) <==> k' in Keys(h) || k' == k
    ensures |Put(h, k, v)| >= |h|
    ensures forall i :: 0 <= i < |h| && h[i].0 != k ==> Put(h, k, v)[i] == h[i]
  {
    PutGet(h, k, v);
    PutKeys(h, k, v);
    forall k' | k' != k ensures Get(Put(h, k, v), k') == Get(h, k') {
      PutGetOther(h, k, v, k');
    }
  }

  /** The key list after `hash[k] = v`: unchanged for an existing key, `k` appended otherwise. */
  lemma PutKeys(h: Entries, k: string, v: Value)
    ensures Keys(Put(h, k, v)) == if k in Keys(h) then Keys(h) else Keys(h) + [k]
  {
    if k in Keys(h) {
      assert Keys(Put(h, k, v)) == Keys(h);
    } else {
      assert Keys(Put(h, k, v)) == Keys(h) + [k];
    }
  }

  /** Storing keeps the keys of a Ruby Hash distinct. */
  lemma PutUnique(h: Entries, k: string, v: Value)
    requires UniqueKeys(h)
    ensures UniqueKeys(Put(h, k, v))
  {
    PutKeys(h, k, v);
    var r := Put(h, k, v);
    forall i, j | 0 <= i < j < |r| ensures r[i].0 != r[j].0 {
      assert Keys(r)[i] == r[i].0 && Keys(r)[j] == r[j].0;
      if k !in Keys(h) && j == |h| {
        assert r[i].0 == Keys(h)[i];
      } else {
        assert Keys(h)[i] == h[i].0 && Keys(h)[j] == h[j].0;
      }
    }
  }

  /** A second store under the same key overrides the first. */
  lemma PutPut(h: Entries, k: string, v: Value, w: Value)
    ensures Put(Put(h, k, v), k, w) == Put(h, k, w)
  {
    var i := Find(h, k);
    var r := Put(h, k, v);
    if i < 0 {
      AppendedFoundLast(h, k, v);
    } else {
      assert Keys(r) == Keys(h);
      FindSameKeys(h, r, k);
    }
  }

  /** Storing the value a key already has changes nothing. */
  lemma PutExisting(h: Entries, k: string)
    requires k in Keys(h)
    ensures Put(h, k, Get(h, k)) == h
  {
    var i := Find(h, k);
    assert h[i := (k, h[i].1)] == h;
  }

  /** `hash.compact`: a new hash without the entries whose value is `nil`. */
  function Compact(h: Entries): (r: Entries)
    ensures forall e :: e in r <==> e in h && e.1 != Nil
    ensures Subsequence(r, h)
  {
    if h == [] then []
    else if h[0].1 == Nil then Compact(h[1..])
    else [h[0]] + Compact(h[1..])
  }

  /** `array.compact`: a new array without its `nil` elements. */
  function CompactItems(xs: seq<Value>): (r: seq<Value>)
    ensures forall x :: x in r <==> x in xs && x != Nil
    ensures Subsequence(r, xs)
    ensures |r| == |xs| - multiset(xs)[Nil]
  {
    if xs == [] then []
    else
      assert xs == [xs[0]] + xs[1..];
      if xs[0] == Nil then CompactItems(xs[1..])
      else [xs[0]] + CompactItems(xs[1..])
  }

  /** Compacting a hash that holds no `nil` value gives the same entries back. */
  lemma {:induction false} CompactWithoutNil(h: Entries)
    requires forall e :: e in h ==> e.1 != Nil
    ensures Compact(h) == h
  {
    if h != [] {
      assert h[0] in h;
      assert forall e :: e in h[1..] ==> e in h;
      CompactWithoutNil(h[1..]);
    }
  }

  /** Compacting an array that holds no `nil` gives the same elements back. */
  lemma {:induction false} CompactItemsWithoutNil(xs: seq<Value>)
    requires forall x :: x in xs ==> x != Nil
    ensures CompactItems(xs) == xs
  {
    if xs != [] {
      assert xs[0] in xs;
      assert forall x :: x in xs[1..] ==> x in xs;
      CompactItemsWithoutNil(xs[1..]);
    }
  }

  /** The object behind a caller's Hash argument: builders update it in place. */
  class RubyHash {
    var entries: Entries

    ghost predicate Valid()
      reads this
    {
      UniqueKeys(entries)
    }

    constructor (es: Entries)
      requires UniqueKeys(es)
      ensures Valid() && entries == es
    {
      entries := es;
    }

    /** `hash[k]` */
    function Fetch(k: string): (v: Value)
      reads this
      ensures k !in Keys(entries) ==> v == Nil
      ensures k in Keys(entries) ==> (k, v) in entries
    {
      Get(entries, k)
    }

    /** `hash[k] = v`, in place. */
    method Store(k: string, v: Value)
      requires Valid()
      modifies this
      ensures Valid()
      ensures entries == Put(old(entries), k, v)
      ensures Fetch(k) == v
    {
      PutUnique(entries, k, v);
      PutGet(entries, k, v);
      entries := Put(entries, k, v);
    }
  }
}
