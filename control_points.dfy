/** The sorted control-point lists of `Terrace` and `Curve`. Both add a point
    the same way: a key within `f64::EPSILON` of a key already present is
    ignored; otherwise the point is inserted before the first key that is
    greater than or equal to it. Both look a source value up with the same
    `position` search. This module states that logic once, over the list of
    keys (the terrace's values, the curve's input values). */
module ControlPoints {
  import opened Numeric

  /** Keys ascending, any two at least `f64::EPSILON` apart: what adding
      points one at a time to an empty list produces. */
  predicate Spaced(keys: seq<real>)
  {
    forall i, j :: 0 <= i < j < |keys| ==> keys[i] + F64_EPSILON <= keys[j]
  }

  /** `iter().any(|x| (x - key).abs() < EPSILON)`. */
  predicate AnyNear(keys: seq<real>, key: real)
  {
    exists i :: 0 <= i < |keys| && Abs(keys[i] - key) < F64_EPSILON
  }

  /** `iter().position(|x| x >= key).unwrap_or(len)`: the index of the first
      key at least `key`, or the length when there is none. */
  function Position(keys: seq<real>, key: real): (r: nat)
    ensures r <= |keys|
    ensures forall i :: 0 <= i < r ==> keys[i] < key
    ensures r < |keys| ==> keys[r] >= key
  {
    if |keys| == 0 then 0
    else if keys[0] >= key then 0
    else 1 + Position(keys[1..], key)
  }

  /** `insert(index, x)`: `x` lands at `index`, the keys from `index` on move
      up by one. */
  function InsertAt<T>(s: seq<T>, index: nat, x: T): (r: seq<T>)
    requires index <= |s|
    ensures |r| == |s| + 1 && r[index] == x
    ensures forall i :: 0 <= i < index ==> r[i] == s[i]
    ensures forall i :: index < i < |r| ==> r[i] == s[i - 1]
    ensures multiset(r) == multiset(s) + multiset{x}
  {
    assert s == s[..index] + s[index..];
    s[..index] + [x] + s[index..]
  }

  /** The keys after `add_control_point(key)`. */
  function AddKey(keys: seq<real>, key: real): seq<real>
  {
    if AnyNear(keys, key) then keys else InsertAt(keys, Position(keys, key), key)
  }

  /** Adding a key keeps the list spaced: the new key goes after every
      smaller key and before every larger one, and is at least
      `f64::EPSILON` from each. */
  lemma AddKeySpaced(keys: seq<real>, key: real)
    requires Spaced(keys)
    ensures Spaced(AddKey(keys, key))
  {
    if !AnyNear(keys, key) {
      var k := Position(keys, key);
      var r := InsertAt(keys, k, key);
      forall j | k < j < |r|
        ensures key + F64_EPSILON <= r[j]
      {
        assert keys[k] <= keys[j - 1];
        assert !(Abs(keys[j - 1] - key) < F64_EPSILON);
      }
      forall i | 0 <= i < k
        ensures r[i] + F64_EPSILON <= key
      {
        assert !(Abs(keys[i] - key) < F64_EPSILON);
      }
    }
  }

  /** A key near one already present leaves the list as it was; any other
      key is added exactly once, and nothing else changes. */
  lemma AddKeyContents(keys: seq<real>, key: real)
    ensures AnyNear(keys, key) ==> AddKey(keys, key) == keys
    ensures !AnyNear(keys, key) ==> multiset(AddKey(keys, key)) == multiset(keys) + multiset{key}
    ensures key in AddKey(keys, key) || AnyNear(keys, key)
  {
  }

  /** After adding a key, a key near it is present. */
  lemma AddKeyNear(keys: seq<real>, key: real)
    ensures AnyNear(AddKey(keys, key), key)
  {
    var r := AddKey(keys, key);
    if !AnyNear(keys, key) {
      var k := Position(keys, key);
      assert Abs(r[k] - key) < F64_EPSILON;
    }
  }

  /** Adding the same key twice is adding it once. */
  lemma AddKeyIdempotent(keys: seq<real>, key: real)
    ensures AddKey(AddKey(keys, key), key) == AddKey(keys, key)
  {
    AddKeyNear(keys, key);
  }

  /** Whether a key is near one of the list depends only on the keys
      present. */
  lemma AnyNearMultiset(s: seq<real>, t: seq<real>, key: real)
    requires multiset(s) == multiset(t)
    ensures AnyNear(s, key) == AnyNear(t, key)
  {
    if AnyNear(s, key) {
      var i :| 0 <= i < |s| && Abs(s[i] - key) < F64_EPSILON;
      assert s[i] in multiset(t);
      var j :| 0 <= j < |t| && t[j] == s[i];
    }
    if AnyNear(t, key) {
      var j :| 0 <= j < |t| && Abs(t[j] - key) < F64_EPSILON;
      assert t[j] in multiset(s);
      var i :| 0 <= i < |s| && s[i] == t[j];
    }
  }

  /** A spaced list is fixed by its keys: two spaced lists holding the same
      keys are equal. */
  lemma {:induction false} SpacedUnique(s: seq<real>, t: seq<real>)
    requires Spaced(s) && Spaced(t) && multiset(s) == multiset(t)
    ensures s == t
  {
    assert |t| == |multiset(t)| == |multiset(s)| == |s|;
    if |s| > 0 {
      SpacedHeads(s, t);
      TailMultiset(s, t);
      SpacedTail(s);
      SpacedTail(t);
      SpacedUnique(s[1..], t[1..]);
      assert s == [s[0]] + s[1..] && t == [t[0]] + t[1..];
    }
  }

  /** Two spaced lists with the same keys start with the same, smallest,
      key. */
  lemma SpacedHeads(s: seq<real>, t: seq<real>)
    requires Spaced(s) && Spaced(t) && multiset(s) == multiset(t) && |s| > 0 && |t| > 0
    ensures s[0] == t[0]
  {
    assert s[0] in multiset(t) && t[0] in multiset(s);
    var j :| 0 <= j < |t| && t[j] == s[0];
    var i :| 0 <= i < |s| && s[i] == t[0];
  }

  lemma TailMultiset(s: seq<real>, t: seq<real>)
    requires multiset(s) == multiset(t) && |s| > 0 && |t| > 0 && s[0] == t[0]
    ensures multiset(s[1..]) == multiset(t[1..])
  {
    assert s == [s[0]] + s[1..] && t == [t[0]] + t[1..];
    assert multiset(s) == multiset{s[0]} + multiset(s[1..]);
    assert multiset(t) == multiset{s[0]} + multiset(t[1..]);
    assert multiset(s[1..]) == multiset(s) - multiset{s[0]} == multiset(t[1..]);
  }

  lemma SpacedTail(s: seq<real>)
    requires Spaced(s) && |s| > 0
    ensures Spaced(s[1..])
  {
    forall i, j | 0 <= i < j < |s| - 1
      ensures s[1..][i] + F64_EPSILON <= s[1..][j]
    {
      assert s[1..][i] == s[i + 1] && s[1..][j] == s[j + 1];
    }
  }

  /** The order in which two keys are added does not matter, as long as
      they are at least `f64::EPSILON` apart; two closer keys keep whichever
      came first. */
  lemma AddKeyCommutes(keys: seq<real>, a: real, b: real)
    requires Spaced(keys) && Abs(a - b) >= F64_EPSILON
    ensures AddKey(AddKey(keys, a), b) == AddKey(AddKey(keys, b), a)
  {
    AddKeySpaced(keys, a);
    AddKeySpaced(AddKey(keys, a), b);
    AddKeySpaced(keys, b);
    AddKeySpaced(AddKey(keys, b), a);
    AddTwoMultiset(keys, a, b);
    AddTwoMultiset(keys, b, a);
    SpacedUnique(AddKey(AddKey(keys, a), b), AddKey(AddKey(keys, b), a));
  }

  /** The keys a key adds to the list: itself, unless one near it is
      already present. */
  function Added(keys: seq<real>, key: real): multiset<real>
  {
    if AnyNear(keys, key) then multiset{} else multiset{key}
  }

  /** Adding `a` then `b`, far apart, adds each of them unless a key near
      it was already present. */
  lemma AddTwoMultiset(keys: seq<real>, a: real, b: real)
    requires Abs(a - b) >= F64_EPSILON
    ensures multiset(AddKey(AddKey(keys, a), b)) == multiset(keys) + Added(keys, a) + Added(keys, b)
  {
    AnyNearAfterAdd(keys, a, b);
    AddKeyContents(keys, a);
    AddKeyContents(AddKey(keys, a), b);
  }

  /** A key far from `a` is near the list after adding `a` exactly when it
      was near the list before. */
  lemma AnyNearAfterAdd(keys: seq<real>, a: real, b: real)
    requires Abs(a - b) >= F64_EPSILON
    ensures AnyNear(AddKey(keys, a), b) == AnyNear(keys, b)
  {
    if !AnyNear(keys, a) {
      AnyNearAfterInsert(keys, Position(keys, a), a, b);
    }
  }

  /** Inserting a key far from `b` anywhere does not change whether a key
      near `b` is present. */
  lemma AnyNearAfterInsert(keys: seq<real>, k: nat, a: real, b: real)
    requires k <= |keys| && Abs(a - b) >= F64_EPSILON
    ensures AnyNear(InsertAt(keys, k, a), b) == AnyNear(keys, b)
  {
    var r := InsertAt(keys, k, a);
    if AnyNear(r, b) {
      var i :| 0 <= i < |r| && Abs(r[i] - b) < F64_EPSILON;
      NearSurvives(keys, r, k, i, b);
    }
    if AnyNear(keys, b) {
      NearKept(keys, k, a, b);
    }
  }

  /** A key near `b` is still there after an insertion. */
  lemma NearKept(keys: seq<real>, k: nat, a: real, b: real)
    requires k <= |keys| && AnyNear(keys, b)
    ensures AnyNear(InsertAt(keys, k, a), b)
  {
    var r := InsertAt(keys, k, a);
    var i :| 0 <= i < |keys| && Abs(keys[i] - b) < F64_EPSILON;
    var i' := if i < k then i else i + 1;
    assert r[i'] == keys[i];
  }

  /** A key of the list after an insertion at `k`, other than the inserted
      one, was a key of the list before. */
  lemma NearSurvives(keys: seq<real>, r: seq<real>, k: nat, i: nat, b: real)
    requires k <= |keys| && |r| == |keys| + 1 && i < |r| && i != k
    requires forall j :: 0 <= j < k ==> r[j] == keys[j]
    requires forall j :: k < j < |r| ==> r[j] == keys[j - 1]
    requires Abs(r[i] - b) < F64_EPSILON
    ensures AnyNear(keys, b)
  {
    var i' := if i < k then i else i - 1;
    assert keys[i'] == r[i];
  }

  /** In a spaced list the position of a key of the list is that key's
      index. */
  lemma PositionOfKey(keys: seq<real>, k: nat)
    requires Spaced(keys) && k < |keys|
    ensures Position(keys, keys[k]) == k
  {
  }

  /** In a spaced list, a key above the last one is past every key. */
  lemma PositionAboveLast(keys: seq<real>, key: real)
    requires Spaced(keys) && |keys| > 0 && key > keys[|keys| - 1]
    ensures Position(keys, key) == |keys|
  {
  }

  /** The keys of a spaced list lie between its first and its last. */
  lemma SpacedBetweenEnds(keys: seq<real>, i: nat)
    requires Spaced(keys) && i < |keys|
    ensures keys[0] <= keys[i] <= keys[|keys| - 1]
  {
    if 0 < i {
      assert keys[0] + F64_EPSILON <= keys[i];
    }
    if i < |keys| - 1 {
      assert keys[i] + F64_EPSILON <= keys[|keys| - 1];
    }
  }
}
