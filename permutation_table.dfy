/** `PermutationTable`: a shuffled table of the 256 byte values, and the
    `get1`..`get4` lookups that hash lattice coordinates through it. */
module PermTable {
  import opened Numeric

  const TABLE_SIZE: nat := 256

  /** The byte values 0..n-1 in order (`(0..TABLE_SIZE).collect()`). */
  function Identity(n: nat): (r: seq<int>)
    ensures |r| == n && forall i :: 0 <= i < n ==> r[i] == i
  {
    seq(n, i => i)
  }

  /** `s` holds each of 0..255 exactly once. */
  ghost predicate IsBytePermutation(s: seq<int>)
  {
    |s| == TABLE_SIZE && multiset(s) == multiset(Identity(TABLE_SIZE))
  }

  /** Every entry of a byte permutation is a byte value. */
  lemma BytePermutationEntries(s: seq<int>)
    requires IsBytePermutation(s)
    ensures forall i :: 0 <= i < |s| ==> 0 <= s[i] < TABLE_SIZE
  {
    forall i | 0 <= i < |s|
      ensures 0 <= s[i] < TABLE_SIZE
    {
      assert s[i] in multiset(s);
      assert s[i] in Identity(TABLE_SIZE);
    }
  }

  /** `values.swap(i, j)`. */
  function Swap(s: seq<int>, i: nat, j: nat): (r: seq<int>)
    requires i < |s| && j < |s|
    ensures |r| == |s| && r[i] == s[j] && r[j] == s[i]
    ensures forall k :: 0 <= k < |s| && k != i && k != j ==> r[k] == s[k]
  {
    s[i := s[j]][j := s[i]]
  }

  lemma SwapPermutes(s: seq<int>, i: nat, j: nat)
    requires i < |s| && j < |s|
    ensures multiset(Swap(s, i, j)) == multiset(s)
  {
    var t := s[i := s[j]];
    assert multiset(t) == multiset(s) - multiset{s[i]} + multiset{s[j]};
    assert t[j] == (if i == j then s[j] else s[j]);
    assert multiset(t[j := s[i]]) == multiset(t) - multiset{t[j]} + multiset{s[i]};
  }

  /** `Rng::shuffle` (Fisher–Yates from the last position down), with the
      generator abstracted as its stream of draws: the k-th draw picks the
      partner of position |s| - 1 - k among positions 0..|s| - 1 - k. */
  function ShuffleSteps(s: seq<int>, draw: nat -> nat, i: nat): seq<int>
    requires i <= |s|
    decreases i
  {
    if i < 2 then s
    else
      var j := i - 1;
      ShuffleSteps(Swap(s, j, draw(|s| - i) % (j + 1)), draw, j)
  }

  function Shuffled(s: seq<int>, draw: nat -> nat): seq<int>
  {
    ShuffleSteps(s, draw, |s|)
  }

  lemma {:induction false} ShuffleStepsPermutes(s: seq<int>, draw: nat -> nat, i: nat)
    requires i <= |s|
    ensures |ShuffleSteps(s, draw, i)| == |s|
    ensures multiset(ShuffleSteps(s, draw, i)) == multiset(s)
    decreases i
  {
    if i >= 2 {
      var j := i - 1;
      var t := Swap(s, j, draw(|s| - i) % (j + 1));
      SwapPermutes(s, j, draw(|s| - i) % (j + 1));
      ShuffleStepsPermutes(t, draw, j);
    }
  }

  /** A shuffled identity table is a byte permutation, whatever the draws. */
  lemma ShuffledIdentityIsPermutation(draw: nat -> nat)
    ensures IsBytePermutation(Shuffled(Identity(TABLE_SIZE), draw))
  {
    ShuffleStepsPermutes(Identity(TABLE_SIZE), draw, TABLE_SIZE);
  }

  datatype PermutationTable = PermutationTable(values: seq<int>)
  {
    ghost predicate Valid()
    {
      IsBytePermutation(values)
    }
  }

  /** The copy loop of `rand`: a zero-initialised array of `|sq|` entries
      receives `sq` element by element. */
  method CopyValues(sq: seq<int>) returns (copied: seq<int>)
    ensures copied == sq
  {
    var values := new int[|sq|];
    for i := 0 to |sq|
      invariant forall k :: 0 <= k < i ==> values[k] == sq[k]
    {
      values[i] := sq[i];
    }
    copied := values[..];
  }

  /** `PermutationTable::rand`: shuffle the identity, then copy it into
      `values`. */
  method Rand(draw: nat -> nat) returns (t: PermutationTable)
    ensures t.Valid()
    ensures t.values == Shuffled(Identity(TABLE_SIZE), draw)
  {
    var sq := Shuffled(Identity(TABLE_SIZE), draw);
    var values := CopyValues(sq);
    t := PermutationTable(values);
    ShuffledIdentityIsPermutation(draw);
  }

  /** `PermutationTable::new(seed)`: `rand` driven by the XorShift generator
      seeded with `[1, seed, seed, seed]`, given here as `xorShift`, a map
      from the four seed words to the generator's stream of draws. The table
      depends on nothing but the seed. */
  method New(seed: nat, xorShift: seq<nat> -> (nat -> nat)) returns (t: PermutationTable)
    requires seed < U32_MODULUS
    ensures t.Valid()
    ensures t.values == Shuffled(Identity(TABLE_SIZE), xorShift([1, seed, seed, seed]))
  {
    t := Rand(xorShift([1, seed, seed, seed]));
  }

  /** `get1`: the entry at the low eight bits of the coordinate. */
  function Get1(t: PermutationTable, x: int): (r: int)
    requires t.Valid()
    ensures 0 <= r < TABLE_SIZE
    ensures r == t.values[x % 256]
  {
    BytePermutationEntries(t.values);
    t.values[Low8(x)]
  }

  /** `get2`: the entry at `get1(x) ^ (y & 0xff)`. */
  function Get2(t: PermutationTable, x: int, y: int): (r: int)
    requires t.Valid()
    ensures 0 <= r < TABLE_SIZE
  {
    BytePermutationEntries(t.values);
    t.values[Xor8(Get1(t, x), Low8(y))]
  }

  function Get3(t: PermutationTable, x: int, y: int, z: int): (r: int)
    requires t.Valid()
    ensures 0 <= r < TABLE_SIZE
  {
    BytePermutationEntries(t.values);
    t.values[Xor8(Get2(t, x, y), Low8(z))]
  }

  function Get4(t: PermutationTable, x: int, y: int, z: int, w: int): (r: int)
    requires t.Valid()
    ensures 0 <= r < TABLE_SIZE
  {
    BytePermutationEntries(t.values);
    t.values[Xor8(Get3(t, x, y, z), Low8(w))]
  }

  /** The hash of a lattice point of any dimension >= 1, chaining the
      lower-dimension hash exactly as `get2`..`get4` do; the noise functions
      hash their corners through it. */
  function Hash(t: PermutationTable, c: seq<int>): (r: int)
    requires t.Valid() && |c| >= 1
    ensures 0 <= r < TABLE_SIZE
    decreases |c|
  {
    BytePermutationEntries(t.values);
    if |c| == 1 then t.values[Low8(c[0])]
    else t.values[Xor8(Hash(t, c[..|c| - 1]), Low8(c[|c| - 1]))]
  }

  /** `Hash` agrees with the fixed-dimension lookups. */
  lemma HashAgreesWithGet(t: PermutationTable, x: int, y: int, z: int, w: int)
    requires t.Valid()
    ensures Hash(t, [x]) == Get1(t, x)
    ensures Hash(t, [x, y]) == Get2(t, x, y)
    ensures Hash(t, [x, y, z]) == Get3(t, x, y, z)
    ensures Hash(t, [x, y, z, w]) == Get4(t, x, y, z, w)
  {
    assert [x, y][..1] == [x];
    assert [x, y, z][..2] == [x, y];
    assert [x, y, z, w][..3] == [x, y, z];
  }

  /** Only the low eight bits of each coordinate matter: the hash repeats
      with period 256 along every axis. */
  lemma {:induction false} HashPeriodic(t: PermutationTable, c: seq<int>, d: seq<int>)
    requires t.Valid() && |c| >= 1 && |d| == |c|
    requires forall i :: 0 <= i < |c| ==> (c[i] - d[i]) % 256 == 0
    ensures Hash(t, c) == Hash(t, d)
    decreases |c|
  {
    var n := |c| - 1;
    LowBitsAgree(c[n], d[n]);
    if n > 0 {
      HashPeriodic(t, c[..n], d[..n]);
    }
  }

  lemma LowBitsAgree(a: int, b: int)
    requires (a - b) % 256 == 0
    ensures Low8(a) == Low8(b)
  {
    var k := (a - b) / 256;
    assert a == b + 256 * k;
  }

  lemma Get1Periodic(t: PermutationTable, x: int)
    requires t.Valid()
    ensures Get1(t, x) == Get1(t, x + 256)
  {
    LowBitsAgree(x, x + 256);
  }
}
