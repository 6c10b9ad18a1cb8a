/** `Seed`: the older 512-entry seed table. A swap loop permutes 0..255 in
    place, and the result is written twice in a row so that a lookup index of
    the form `(y mod 256) + get1(x)` never needs wrapping. */
module SeedTable {
  import opened PermTable

  /** The state of `seq` after the first `i` rounds of the swap loop: round
      `k` exchanges `seq[k]` with `seq[draw(k) % 256]`. */
  function SwapRounds(s: seq<int>, draw: nat -> nat, i: nat): (r: seq<int>)
    requires |s| == TABLE_SIZE && i <= TABLE_SIZE
    ensures |r| == TABLE_SIZE
  {
    if i == 0 then s
    else Swap(SwapRounds(s, draw, i - 1), draw(i - 1) % TABLE_SIZE, i - 1)
  }

  lemma {:induction false} SwapRoundsPermute(s: seq<int>, draw: nat -> nat, i: nat)
    requires |s| == TABLE_SIZE && i <= TABLE_SIZE
    ensures multiset(SwapRounds(s, draw, i)) == multiset(s)
  {
    if i > 0 {
      SwapRoundsPermute(s, draw, i - 1);
      SwapPermutes(SwapRounds(s, draw, i - 1), draw(i - 1) % TABLE_SIZE, i - 1);
    }
  }

  datatype Seed = Seed(values: seq<int>)
  {
    ghost predicate Valid()
    {
      |values| == 2 * TABLE_SIZE &&
      IsBytePermutation(values[..TABLE_SIZE]) &&
      forall i :: TABLE_SIZE <= i < 2 * TABLE_SIZE ==> values[i] == values[i - TABLE_SIZE]
    }
  }

  /** The swap loop of `Seed::rand`, run in place on `sq`. */
  method SwapLoop(sq: array<int>, draw: nat -> nat)
    requires sq.Length == TABLE_SIZE
    modifies sq
    ensures sq[..] == SwapRounds(old(sq[..]), draw, TABLE_SIZE)
  {
    for i := 0 to TABLE_SIZE
      invariant sq[..] == SwapRounds(old(sq[..]), draw, i)
    {
      var swapI := draw(i) % TABLE_SIZE;
      var swap := sq[swapI];
      sq[swapI] := sq[i];
      sq[i] := swap;
    }
  }

  /** The fill loop of `Seed::rand`: `values[i] = seq[i % 256]` for every i
      in 0..512. */
  method DoubleTable(sq: seq<int>) returns (values: seq<int>)
    requires |sq| == TABLE_SIZE
    ensures |values| == 2 * TABLE_SIZE
    ensures forall i :: 0 <= i < 2 * TABLE_SIZE ==> values[i] == sq[i % TABLE_SIZE]
  {
    var a := new int[2 * TABLE_SIZE];
    for i := 0 to 2 * TABLE_SIZE
      invariant forall k :: 0 <= k < i ==> a[k] == sq[k % TABLE_SIZE]
    {
      a[i] := sq[i % TABLE_SIZE];
    }
    values := a[..];
  }

  /** `Seed::rand`: the identity permuted by the swap loop, then doubled. */
  method Rand(draw: nat -> nat) returns (s: Seed)
    ensures s.Valid()
    ensures forall i :: 0 <= i < 2 * TABLE_SIZE ==>
      s.values[i] == SwapRounds(Identity(TABLE_SIZE), draw, TABLE_SIZE)[i % TABLE_SIZE]
  {
    var sq := IdentityArray();
    SwapLoop(sq, draw);
    ghost var p := SwapRounds(Identity(TABLE_SIZE), draw, TABLE_SIZE);
    var values := DoubleTable(sq[..]);
    s := Seed(values);
    SwapRoundsPermute(Identity(TABLE_SIZE), draw, TABLE_SIZE);
    assert values[..TABLE_SIZE] == p;
    forall i | TABLE_SIZE <= i < 2 * TABLE_SIZE
      ensures values[i] == values[i - TABLE_SIZE]
    {
      assert i % TABLE_SIZE == i - TABLE_SIZE;
      assert (i - TABLE_SIZE) % TABLE_SIZE == i - TABLE_SIZE;
    }
  }

  /** `range(0, TABLE_SIZE).collect()`. */
  method IdentityArray() returns (a: array<int>)
    ensures fresh(a) && a[..] == Identity(TABLE_SIZE)
  {
    a := new int[TABLE_SIZE](i => i);
    assert forall k :: 0 <= k < TABLE_SIZE ==> a[k] == k;
  }

  /** `signed_modulus(x, 256)`, which the lookups rely on to give an index
      in [0, 256). */
  function SignedModulus(x: int): (r: int)
    ensures 0 <= r < TABLE_SIZE
  {
    x % TABLE_SIZE
  }

  lemma SeedEntries(s: Seed)
    requires s.Valid()
    ensures forall i :: 0 <= i < |s.values| ==> 0 <= s.values[i] < TABLE_SIZE
  {
    BytePermutationEntries(s.values[..TABLE_SIZE]);
    forall i | 0 <= i < |s.values|
      ensures 0 <= s.values[i] < TABLE_SIZE
    {
      var j := if i < TABLE_SIZE then i else i - TABLE_SIZE;
      assert s.values[i] == s.values[..TABLE_SIZE][j];
    }
  }

  function Get1(s: Seed, x: int): (r: int)
    requires s.Valid()
    ensures 0 <= r < TABLE_SIZE
  {
    SeedEntries(s);
    s.values[SignedModulus(x)]
  }

  /** `get2`: the index `signed_modulus(y) + get1(x)` is below 512. */
  function Get2(s: Seed, x: int, y: int): (r: int)
    requires s.Valid()
    ensures 0 <= r < TABLE_SIZE
  {
    SeedEntries(s);
    s.values[SignedModulus(y) + Get1(s, x)]
  }

  function Get3(s: Seed, x: int, y: int, z: int): (r: int)
    requires s.Valid()
    ensures 0 <= r < TABLE_SIZE
  {
    SeedEntries(s);
    s.values[SignedModulus(z) + Get2(s, x, y)]
  }

  function Get4(s: Seed, x: int, y: int, z: int, w: int): (r: int)
    requires s.Valid()
    ensures 0 <= r < TABLE_SIZE
  {
    SeedEntries(s);
    s.values[SignedModulus(w) + Get3(s, x, y, z)]
  }

  /** Thanks to the doubled table, `get2(x, y)` reads the permutation at
      `(y + get1(x)) mod 256`. */
  lemma Get2Wraps(s: Seed, x: int, y: int)
    requires s.Valid()
    ensures Get2(s, x, y) == s.values[(SignedModulus(y) + Get1(s, x)) % TABLE_SIZE]
  {
  }

  /** `Seed::new(seed)`: `rand` driven by the XorShift generator seeded with
      `[1, seed, seed, seed]`, given as `xorShift`. */
  method New(seed: nat, xorShift: seq<nat> -> (nat -> nat)) returns (s: Seed)
    ensures s.Valid()
    ensures forall i :: 0 <= i < 2 * TABLE_SIZE ==>
      s.values[i] == SwapRounds(Identity(TABLE_SIZE), xorShift([1, seed, seed, seed]), TABLE_SIZE)[i % TABLE_SIZE]
  {
    s := Rand(xorShift([1, seed, seed, seed]));
  }
}
