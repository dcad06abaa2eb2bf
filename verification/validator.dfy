/** `LogSnag::Validator`: key-list checks, in-place compaction of one nested hash, and
    the shape check on flat property hashes. */
module Validator {
  import opened Values
  import opened Seqs
  import opened Hashes
  import opened Errors

  // ---------------------------------------------------------------------------
  // Required and allowed keys

  /** Ruby's `a - b`: the elements of `a` that are not in `b`, in `a`'s order. */
  function Difference(a: seq<string>, b: seq<string>): (r: seq<string>)
    ensures forall x :: x in r <==> x in a && x !in b
    ensures Subsequence(r, a)
  {
    if a == [] then []
    else if a[0] in b then Difference(a[1..], b)
    else [a[0]] + Difference(a[1..], b)
  }

  /** Membership and order pin the difference down: any subsequence of a duplicate-free
      `a` holding exactly the elements of `a` missing from `b` is `a - b`. */
  lemma {:induction false} DifferenceIsUnique(a: seq<string>, b: seq<string>, s: seq<string>)
    requires NoDuplicates(a) && Subsequence(s, a)
    requires forall x :: x in s <==> x in a && x !in b
    ensures s == Difference(a, b)
    decreases |a|
  {
    if a != [] {
      var tail := a[1..];
      assert NoDuplicates(tail) by {
        forall i, j | 0 <= i < j < |tail| ensures tail[i] != tail[j] {
          assert tail[i] == a[i + 1] && tail[j] == a[j + 1];
        }
      }
      assert a[0] !in tail by {
        forall j | 0 <= j < |tail| ensures tail[j] != a[0] {
          assert tail[j] == a[j + 1];
        }
      }
      if a[0] in b {
        assert a[0] !in s;
        assert s != [] ==> s[0] != a[0];
        assert Subsequence(s, tail);
        DifferenceIsUnique(tail, b, s);
      } else {
        assert a[0] in s;
        if s[0] == a[0] && Subsequence(s[1..], tail) {
          SubsequenceNoDuplicates(s, a);
          forall x ensures x in s[1..] <==> x in tail && x !in b {
            if x in s[1..] {
              var k :| 0 <= k < |s[1..]| && s[1..][k] == x;
              assert s[k + 1] == x && s[0] != s[k + 1];
              assert x in s;
              var m :| 0 <= m < |a| && a[m] == x;
              assert m != 0 && tail[m - 1] == x;
            }
            if x in tail && x !in b {
              var m :| 0 <= m < |tail| && tail[m] == x;
              assert a[m + 1] == x;
              assert x in s && x != s[0];
              var k :| 0 <= k < |s| && s[k] == x;
              assert k != 0 && s[1..][k - 1] == x;
            }
          }
          DifferenceIsUnique(tail, b, s[1..]);
        } else {
          SubsequenceMembers(s, tail);
          assert false;
        }
      }
    }
  }

  /** `validate_required_keys`: raises, listing the keys of `requiredKeys` that `data`
      lacks, in `requiredKeys` order. A key stored with a nil value is present. */
  function ValidateRequiredKeys(requiredKeys: seq<string>, data: Entries): (c: Check)
    ensures c.Pass? <==> forall k :: k in requiredKeys ==> k in Keys(data)
    ensures c.Fail? ==> c.error.MissingKeys? && Subsequence(c.error.keys, requiredKeys)
    ensures c.Fail? ==> forall k :: k in c.error.keys <==> k in requiredKeys && k !in Keys(data)
  {
    var missing := Difference(requiredKeys, Keys(data));
    if missing == [] then Pass
    else
      assert missing[0] in missing;
      Fail(MissingKeys(missing))
  }

  /** `validate_allowed_keys`: raises, listing the keys of `data` outside `allowedKeys`,
      in `data`'s key order. */
  function ValidateAllowedKeys(allowedKeys: seq<string>, data: Entries): (c: Check)
    ensures c.Pass? <==> forall k :: k in Keys(data) ==> k in allowedKeys
    ensures c.Fail? ==> c.error.InvalidKeys? && Subsequence(c.error.keys, Keys(data))
    ensures c.Fail? ==> forall k :: k in c.error.keys <==> k in Keys(data) && k !in allowedKeys
  {
    var invalid := Difference(Keys(data), allowedKeys);
    if invalid == [] then Pass
    else
      assert invalid[0] in invalid;
      Fail(InvalidKeys(invalid))
  }

  /** The key list of a Ruby Hash has no duplicates. */
  lemma KeysNoDuplicates(h: Entries)
    requires UniqueKeys(h)
    ensures NoDuplicates(Keys(h))
  {
    forall i, j | 0 <= i < j < |h| ensures Keys(h)[i] != Keys(h)[j] {
      assert Keys(h)[i] == h[i].0 && Keys(h)[j] == h[j].0;
    }
  }

  /** The reported key lists are exactly the set differences, in the stated order: no
      other list satisfies what `ValidateRequiredKeys` and `ValidateAllowedKeys` promise. */
  lemma ReportedKeysAreExact(requiredKeys: seq<string>, allowedKeys: seq<string>, data: Entries)
    requires NoDuplicates(requiredKeys) && UniqueKeys(data)
    ensures ValidateRequiredKeys(requiredKeys, data).Fail? ==>
      ValidateRequiredKeys(requiredKeys, data).error.keys == Difference(requiredKeys, Keys(data))
    ensures ValidateAllowedKeys(allowedKeys, data).Fail? ==>
      ValidateAllowedKeys(allowedKeys, data).error.keys == Difference(Keys(data), allowedKeys)
  {
    var r := ValidateRequiredKeys(requiredKeys, data);
    if r.Fail? {
      DifferenceIsUnique(requiredKeys, Keys(data), r.error.keys);
    }
    var a := ValidateAllowedKeys(allowedKeys, data);
    if a.Fail? {
      KeysNoDuplicates(data);
      DifferenceIsUnique(Keys(data), allowedKeys, a.error.keys);
    }
  }

  /** Appending an element of `b` to `a` does not change `a - b`. */
  lemma {:induction false} DifferenceAppendExcluded(a: seq<string>, x: string, b: seq<string>)
    requires x in b
    ensures Difference(a + [x], b) == Difference(a, b)
    decreases |a|
  {
    if a == [] {
      assert [] + [x] == [x];
    } else {
      assert (a + [x])[1..] == a[1..] + [x];
      DifferenceAppendExcluded(a[1..], x, b);
    }
  }

  /** `a - b` depends on `b` only through which elements of `a` it holds. */
  lemma {:induction false} DifferenceSameMembership(a: seq<string>, b: seq<string>, b': seq<string>)
    requires forall x :: x in a ==> (x in b <==> x in b')
    ensures Difference(a, b) == Difference(a, b')
    decreases |a|
  {
    if a != [] {
      assert a[0] in a;
      assert forall x :: x in a[1..] ==> x in a;
      DifferenceSameMembership(a[1..], b, b');
    }
  }

  // ---------------------------------------------------------------------------
  // Compaction

  /** `value.compact` for a Hash or an Array. */
  function CompactValue(v: Value): (r: Value)
    requires v.Hash? || v.Arr?
    ensures v.Hash? ==> r.Hash? && forall e :: e in r.entries <==> e in v.entries && e.1 != Nil
    ensures v.Hash? ==> Subsequence(r.entries, v.entries)
    ensures v.Arr? ==> r.Arr? && forall x :: x in r.items <==> x in v.items && x != Nil
    ensures v.Arr? ==> Subsequence(r.items, v.items) && |r.items| == |v.items| - multiset(v.items)[Nil]
  {
    if v.Hash? then Hash(Compact(v.entries)) else Arr(CompactItems(v.items))
  }

  /** What `hash[path]` holds after `compact_hash!`: a Hash or an Array compacted, any
      other value as it was. */
  function AfterCompaction(v: Value): (r: Value)
    ensures !(v.Hash? || v.Arr?) ==> r == v
  {
    if v.Hash? || v.Arr? then CompactValue(v) else v
  }

  /** Whether compacting `v` raises: a truthy value without a `compact` method (a string,
      a number, `true`) raises NoMethodError; nil and false are skipped. */
  function CompactOutcome(v: Value): (c: Check)
    ensures c.Fail? <==> Truthy(v) && !(v.Hash? || v.Arr?)
    ensures c.Fail? ==> c.error == NoMethod("compact", v)
  {
    if Truthy(v) && !(v.Hash? || v.Arr?) then Fail(NoMethod("compact", v)) else Pass
  }

  /** The entries after `compact_hash!(hash, path)`: `hash[path]` compacted when it is a
      Hash or an Array, `hash` untouched otherwise. */
  function Compacted(h: Entries, path: string): Entries {
    var v := Get(h, path);
    if v.Hash? || v.Arr? then Put(h, path, CompactValue(v)) else h
  }

  /** Whether `compact_hash!(hash, path)` raises. */
  function CompactCheck(h: Entries, path: string): Check {
    CompactOutcome(Get(h, path))
  }

  /** `compact_hash!`: replaces `hash[path]` in place by its compacted copy. */
  method CompactHash(hash: RubyHash, path: string) returns (c: Check)
    requires hash.Valid()
    modifies hash
    ensures hash.Valid()
    ensures c == CompactCheck(old(hash.entries), path)
    ensures hash.entries == Compacted(old(hash.entries), path)
  {
    var v := hash.Fetch(path);
    if Truthy(v) {
      if v.Hash? || v.Arr? {
        hash.Store(path, CompactValue(v));
      } else {
        return Fail(NoMethod("compact", v));
      }
    }
    return Pass;
  }

  /** Compaction rewrites only `hash[path]`: the keys, their order, and every other entry
      stay as they were; a missing, nil or false `hash[path]` leaves the hash unchanged. */
  lemma CompactedEffect(h: Entries, path: string)
    ensures Keys(Compacted(h, path)) == Keys(h)
    ensures forall i :: 0 <= i < |h| && h[i].0 != path ==> Compacted(h, path)[i] == h[i]
    ensures forall k :: k != path ==> Get(Compacted(h, path), k) == Get(h, k)
    ensures !Truthy(Get(h, path)) ==> Compacted(h, path) == h
    ensures Get(Compacted(h, path), path) == AfterCompaction(Get(h, path))
  {
    var v := Get(h, path);
    if v.Hash? || v.Arr? {
      var r := CompactValue(v);
      assert path in Keys(h);
      PutKeys(h, path, r);
      PutGet(h, path, r);
      forall k | k != path ensures Get(Compacted(h, path), k) == Get(h, k) {
        PutGetOther(h, path, r, k);
      }
    }
  }

  /** `compact_hash!` is idempotent, and a second call raises exactly when the first did. */
  lemma CompactedIdempotent(h: Entries, path: string)
    ensures Compacted(Compacted(h, path), path) == Compacted(h, path)
    ensures CompactCheck(Compacted(h, path), path) == CompactCheck(h, path)
  {
    var v := Get(h, path);
    CompactedEffect(h, path);
    if v.Hash? || v.Arr? {
      var r := CompactValue(v);
      var once := Compacted(h, path);
      assert Get(once, path) == r;
      if v.Hash? {
        CompactWithoutNil(r.entries);
      } else {
        CompactItemsWithoutNil(r.items);
      }
      assert CompactValue(r) == r;
      PutPut(h, path, r, r);
    }
  }

  // ---------------------------------------------------------------------------
  // Shape of flat property hashes

  predicate Lower(c: char) {
    'a' <= c <= 'z'
  }

  /** `/\A[a-z]+(-[a-z]+)*\z/`: a letter, then what may follow a letter. */
  predicate KeyShape(s: string) {
    |s| > 0 && Lower(s[0]) && AfterLetter(s[1..])
  }

  /** What may follow a letter in a key: nothing, another letter, or a dash and a letter. */
  predicate AfterLetter(t: string)
    decreases |t|
  {
    t == [] ||
    (Lower(t[0]) && AfterLetter(t[1..])) ||
    (|t| >= 2 && t[0] == '-' && Lower(t[1]) && AfterLetter(t[2..]))
  }

  /** The same key pattern as a description of its characters: only lower-case letters
      and dashes, starting and ending with a letter, never two dashes in a row. */
  predicate FlatKeyShape(s: string) {
    |s| > 0 && Lower(s[0]) && FlatTail(s[1..])
  }

  predicate FlatTail(t: string) {
    && (forall i :: 0 <= i < |t| ==> Lower(t[i]) || t[i] == '-')
    && (t != [] ==> Lower(t[|t| - 1]))
    && (forall i, j :: 0 <= i < |t| && j == i + 1 < |t| ==> t[i] != '-' || t[j] != '-')
  }

  lemma {:induction false} AfterLetterIsFlatTail(t: string)
    ensures AfterLetter(t) <==> FlatTail(t)
    decreases |t|
  {
    if t == [] {
    } else if Lower(t[0]) {
      AfterLetterIsFlatTail(t[1..]);
      var u := t[1..];
      assert forall i :: 0 <= i < |u| ==> u[i] == t[i + 1];
      if FlatTail(u) {
        forall i, j | 0 <= i < |t| && j == i + 1 < |t| ensures t[i] != '-' || t[j] != '-' {
          if i > 0 {
            assert t[i] == u[i - 1] && t[j] == u[j - 1];
          }
        }
      }
      if FlatTail(t) {
        forall i, j | 0 <= i < |u| && j == i + 1 < |u| ensures u[i] != '-' || u[j] != '-' {
          assert u[i] == t[i + 1] && u[j] == t[j + 1];
        }
      }
    } else if t[0] == '-' {
      if |t| >= 2 && Lower(t[1]) {
        AfterLetterIsFlatTail(t[2..]);
        var u := t[2..];
        assert forall i :: 0 <= i < |u| ==> u[i] == t[i + 2];
        if FlatTail(u) {
          forall i, j | 0 <= i < |t| && j == i + 1 < |t| ensures t[i] != '-' || t[j] != '-' {
            if i > 1 {
              assert t[i] == u[i - 2] && t[j] == u[j - 2];
            }
          }
        }
        if FlatTail(t) {
          forall i, j | 0 <= i < |u| && j == i + 1 < |u| ensures u[i] != '-' || u[j] != '-' {
            assert u[i] == t[i + 2] && u[j] == t[j + 2];
          }
        }
      } else if |t| >= 2 {
        assert !(t[0] != '-' || t[1] != '-') || !(Lower(t[1]) || t[1] == '-');
      }
    }
  }

  /** The recursive matcher accepts exactly the keys the flat description allows. */
  lemma KeyShapeIsFlat(s: string)
    ensures KeyShape(s) <==> FlatKeyShape(s)
  {
    if |s| > 0 {
      AfterLetterIsFlatTail(s[1..]);
    }
  }

  /** Keys the client accepts. */
  lemma KeyShapeAccepts()
    ensures KeyShape("foo") && KeyShape("foo-bar")
  {
    assert AfterLetter("") && AfterLetter("o") && AfterLetter("oo");
    assert AfterLetter("r") && AfterLetter("ar") && AfterLetter("-bar") && AfterLetter("o-bar");
  }

  /** Keys the client rejects: upper case, punctuation, a leading or trailing dash,
      an underscore, digits, a double dash, the empty key. */
  lemma KeyShapeRejects()
    ensures !KeyShape("SomeKey") && !KeyShape("Foo!") && !KeyShape("-foo") && !KeyShape("12345")
    ensures !KeyShape("foo-") && !KeyShape("foo_bar") && !KeyShape("foo--bar") && !KeyShape("")
  {
    KeyShapeIsFlat("foo-");
    KeyShapeIsFlat("foo_bar");
    assert "foo_bar"[1..][2] == '_';
    KeyShapeIsFlat("foo--bar");
    assert "foo--bar"[1..][2] == '-' && "foo--bar"[1..][3] == '-';
  }

  /** `key.to_s.match?(...)`: strings and symbols match by their text, `true` and `false`
      by "true" and "false"; the text of nil, a number, an array or a hash never matches. */
  predicate KeyMatches(key: Value) {
    match key
    case Str(s) => KeyShape(s)
    case Bool(b) => KeyShape(if b then "true" else "false")
    case _ => false
  }

  /** `value.is_a?(String) || value.is_a?(TrueClass) || value.is_a?(FalseClass) || value.is_a?(Numeric)` */
  predicate Scalar(v: Value) {
    v.Str? || v.Bool? || v.Num?
  }

  /** The `|key, value|` pair an Array element yields to `each`: an inner array is spread
      over key and value, any other element is the key and the value is nil. */
  function ItemPair(item: Value): (Value, Value) {
    match item
    case Arr(xs) => (if |xs| > 0 then xs[0] else Nil, if |xs| > 1 then xs[1] else Nil)
    case _ => (item, Nil)
  }

  /** The pairs `hash.each` yields, in iteration order. */
  function EachPairs(h: Value): seq<(Value, Value)>
    requires h.Hash? || h.Arr?
  {
    if h.Hash? then seq(|h.entries|, i requires 0 <= i < |h.entries| => (Str(h.entries[i].0), h.entries[i].1))
    else seq(|h.items|, i requires 0 <= i < |h.items| => ItemPair(h.items[i]))
  }

  predicate PairOk(p: (Value, Value)) {
    KeyMatches(p.0) && Scalar(p.1)
  }

  /** The error for an offending pair: its key is checked before its value. */
  function PairError(p: (Value, Value)): Error {
    if !KeyMatches(p.0) then InvalidKey(p.0) else InvalidValue(p.0, p.1)
  }

  /** The outcome of walking the pairs in order and raising at the first bad one. */
  function FirstViolation(ps: seq<(Value, Value)>): (c: Check)
    ensures c.Pass? <==> forall i :: 0 <= i < |ps| ==> PairOk(ps[i])
  {
    if ps == [] then Pass
    else if !PairOk(ps[0]) then Fail(PairError(ps[0]))
    else
      assert forall i :: 1 <= i < |ps| ==> ps[i] == ps[1..][i - 1];
      FirstViolation(ps[1..])
  }

  /** A failing walk reports the first offending pair in iteration order. */
  lemma {:induction false} FirstViolationIsFirst(ps: seq<(Value, Value)>)
    requires FirstViolation(ps).Fail?
    ensures exists i :: 0 <= i < |ps| && !PairOk(ps[i]) && (forall j :: 0 <= j < i ==> PairOk(ps[j]))
                        && FirstViolation(ps).error == PairError(ps[i])
  {
    if PairOk(ps[0]) {
      FirstViolationIsFirst(ps[1..]);
      var i :| 0 <= i < |ps[1..]| && !PairOk(ps[1..][i]) && (forall j :: 0 <= j < i ==> PairOk(ps[1..][j]))
               && FirstViolation(ps[1..]).error == PairError(ps[1..][i]);
      assert forall j :: 1 <= j < i + 1 ==> ps[j] == ps[1..][j - 1];
      assert ps[i + 1] == ps[1..][i];
    } else {
      assert !PairOk(ps[0]);
    }
  }

  /** The outcome of `validate_hash(hash)`. */
  function HashCheck(h: Value): Check {
    if !Truthy(h) then Pass
    else if h.Hash? || h.Arr? then FirstViolation(EachPairs(h))
    else Fail(NoMethod("each", h))
  }

  /** `validate_hash`: nil (or false) passes; otherwise walk the pairs and raise at the
      first key that does not match the pattern or value that is not a scalar. */
  method ValidateHash(hash: Value) returns (c: Check)
    ensures c == HashCheck(hash)
  {
    if !Truthy(hash) {
      return Pass;
    }
    if !(hash.Hash? || hash.Arr?) {
      return Fail(NoMethod("each", hash));
    }
    var pairs := EachPairs(hash);
    var i := 0;
    while i < |pairs|
      invariant 0 <= i <= |pairs|
      invariant FirstViolation(pairs[i..]) == FirstViolation(pairs)
    {
      var (key, value) := pairs[i];
      if !KeyMatches(key) {
        return Fail(InvalidKey(key));
      }
      if !Scalar(value) {
        return Fail(InvalidValue(key, value));
      }
      assert pairs[i..][1..] == pairs[i + 1..];
      i := i + 1;
    }
    return Pass;
  }

  /** A Hash passes `validate_hash` exactly when every key has the pattern and every value
      is a string, a boolean or a number; nil passes. */
  lemma HashCheckOfHash(entries: Entries)
    ensures HashCheck(Hash(entries)).Pass? <==>
      forall i :: 0 <= i < |entries| ==> KeyShape(entries[i].0) && Scalar(entries[i].1)
    ensures HashCheck(Nil).Pass?
  {
    var ps := EachPairs(Hash(entries));
    assert forall i :: 0 <= i < |entries| ==> ps[i] == (Str(entries[i].0), entries[i].1);
  }

  /** When the first entry of a Hash is bad, `validate_hash` reports it, whatever follows,
      and it names the key when both the key and the value are bad. */
  lemma HashCheckFirstBad(entries: Entries)
    requires entries != [] && !(KeyShape(entries[0].0) && Scalar(entries[0].1))
    ensures HashCheck(Hash(entries)) ==
      Fail(if !KeyShape(entries[0].0) then InvalidKey(Str(entries[0].0))
           else InvalidValue(Str(entries[0].0), entries[0].1))
  {
    assert EachPairs(Hash(entries))[0] == (Str(entries[0].0), entries[0].1);
  }

  /** Hashes the client rejects, with the error it raises for each. */
  lemma HashCheckExamples()
    ensures HashCheck(Hash([("SomeKey", Str("invalid"))])) == Fail(InvalidKey(Str("SomeKey")))
    ensures HashCheck(Hash([("foo", Arr([Num(1)])), ("Bad", Nil)])) ==
      Fail(InvalidValue(Str("foo"), Arr([Num(1)])))
  {
    KeyShapeAccepts();
    KeyShapeRejects();
    HashCheckFirstBad([("SomeKey", Str("invalid"))]);
    HashCheckFirstBad([("foo", Arr([Num(1)])), ("Bad", Nil)]);
  }
}
