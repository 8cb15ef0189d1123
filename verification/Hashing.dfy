/** Key hashing: PostgreSQL's 32-bit mixers and the batch hash kernel.

    `murmurhash32` and `hash_combine` are the functions of PostgreSQL's
    common/hashfn.h. Both joins and the aggregate skip a key comparison or
    declare an error branch impossible because the first is a bijection and the
    second is reversible in its second argument; this module proves exactly
    that, and ties the column-at-a-time kernel to one hash per row. */
module Hashing {
  import opened Vectors

  /** An int4 value as its 32-bit pattern. */
  type Cell = bv32
  type Key = seq<Cell>

  // ----- the mixers, stage by stage, and the inverse of each stage -----

  function Fold16(x: bv32): bv32 { x ^ (x >> 16) }
  function Fold13(x: bv32): bv32 { x ^ (x >> 13) }
  function Unfold13(x: bv32): bv32 { x ^ (x >> 13) ^ (x >> 26) }
  function MulA(x: bv32): bv32 { x * 0x85ebca6b }
  function UnmulA(x: bv32): bv32 { x * 0xa5cb9243 }
  function MulB(x: bv32): bv32 { x * 0xc2b2ae35 }
  function UnmulB(x: bv32): bv32 { x * 0x7ed1b41d }
  function Xor(a: bv32, b: bv32): bv32 { a ^ b }
  function Add(a: bv32, b: bv32): bv32 { a + b }
  function Spread(a: bv32): bv32 { 0x9e3779b9 + (a << 6) + (a >> 2) }

  function Murmur(h: bv32): bv32 {
    Fold16(MulB(Fold13(MulA(Fold16(h)))))
  }

  /** The value whose hash is `h`. */
  function Unmurmur(h: bv32): bv32 {
    Fold16(UnmulA(Unfold13(UnmulB(Fold16(h)))))
  }

  function Combine(a: bv32, b: bv32): bv32 {
    Xor(a, Add(b, Spread(a)))
  }

  lemma StagesOnFormulas(x: bv32)
    ensures Fold16(x ^ (x >> 16)) == x
    ensures Unfold13(x ^ (x >> 13)) == x
    ensures UnmulA(x * 0x85ebca6b) == x
    ensures UnmulB(x * 0xc2b2ae35) == x
  {}

  lemma StagesUndone(x: bv32)
    ensures Fold16(Fold16(x)) == x
    ensures Unfold13(Fold13(x)) == x
    ensures UnmulA(MulA(x)) == x
    ensures UnmulB(MulB(x)) == x
  {
    StagesOnFormulas(x);
  }

  /** Undoing reversible stages in the opposite order, whatever the stages are. */
  lemma ChainUndone(f1: bv32 -> bv32, f2: bv32 -> bv32, g2: bv32 -> bv32, f3: bv32 -> bv32, g3: bv32 -> bv32,
                    f4: bv32 -> bv32, g4: bv32 -> bv32, h: bv32)
    requires forall x :: f1(f1(x)) == x
    requires forall x :: g2(f2(x)) == x
    requires forall x :: g3(f3(x)) == x
    requires forall x :: g4(f4(x)) == x
    ensures f1(g2(g3(g4(f1(f1(f4(f3(f2(f1(h)))))))))) == h
  {
    var a := f1(h);
    var b := f2(a);
    var c := f3(b);
    var d := f4(c);
    assert f1(f1(d)) == d && g4(d) == c && g3(c) == b && g2(b) == a && f1(a) == h;
  }

  /** murmurhash32 is a permutation of the 32-bit values. */
  lemma MurmurUndone(h: bv32)
    ensures Unmurmur(Murmur(h)) == h
  {
    forall x: bv32
      ensures Fold16(Fold16(x)) == x && Unfold13(Fold13(x)) == x && UnmulA(MulA(x)) == x && UnmulB(MulB(x)) == x
    {
      StagesUndone(x);
    }
    ChainUndone(Fold16, MulA, UnmulA, Fold13, Unfold13, MulB, UnmulB, h);
  }

  lemma MurmurInjective(a: bv32, b: bv32)
    requires Murmur(a) == Murmur(b)
    ensures a == b
  {
    MurmurUndone(a);
    MurmurUndone(b);
  }

  function Sub(a: bv32, b: bv32): bv32 { a - b }

  lemma XorAddOnFormulas(a: bv32, t: bv32)
    ensures Xor(a, a ^ t) == t
    ensures Sub(t + a, a) == t
  {}

  lemma XorAddUndone(a: bv32, t: bv32)
    ensures Xor(a, Xor(a, t)) == t
    ensures Sub(Add(t, a), a) == t
  {
    XorAddOnFormulas(a, t);
  }

  lemma CombineInjectiveFor(xor: (bv32, bv32) -> bv32, add: (bv32, bv32) -> bv32, sub: (bv32, bv32) -> bv32,
                            a: bv32, s: bv32, b: bv32, c: bv32)
    requires forall x, t :: xor(x, xor(x, t)) == t
    requires forall x, t :: sub(add(t, x), x) == t
    requires xor(a, add(b, s)) == xor(a, add(c, s))
    ensures b == c
  {
    assert xor(a, xor(a, add(b, s))) == add(b, s) && xor(a, xor(a, add(c, s))) == add(c, s);
    assert sub(add(b, s), s) == b && sub(add(c, s), s) == c;
  }

  /** hash_combine is reversible in its second argument. */
  lemma CombineInjective(a: bv32, b: bv32, c: bv32)
    requires Combine(a, b) == Combine(a, c)
    ensures b == c
  {
    forall x: bv32, t: bv32
      ensures Xor(x, Xor(x, t)) == t && Sub(Add(t, x), x) == t
    {
      XorAddUndone(x, t);
    }
    CombineInjectiveFor(Xor, Add, Sub, a, Spread(a), b, c);
  }

  lemma BitsInjective(a: bv32, b: bv32)
    requires a as int == b as int
    ensures a == b
  {
    assert (a as int) as bv32 == a;
    assert (b as int) as bv32 == b;
  }

  // ----- the hash of a multi-column key -----

  /** The left fold the kernel computes, one key column after another. */
  function KeyHash(key: Key): bv32
    requires |key| > 0
  {
    var last := Murmur(key[|key| - 1]);
    if |key| == 1 then last else Combine(KeyHash(key[..|key| - 1]), last)
  }

  /** Equality of everything but the last key column, as both joins compare. */
  predicate SamePrefix(a: Key, b: Key)
    requires |a| == |b| > 0
  {
    a[..|a| - 1] == b[..|b| - 1]
  }

  /** The test both joins make instead of comparing whole keys. */
  ghost predicate Matches(hash: Key -> nat, a: Key, b: Key) {
    |a| == |b| > 0 && hash(a) == hash(b) && SamePrefix(a, b)
  }

  /** What the joins need of a hash: with the key prefix it fixes the last key. */
  ghost predicate FixesLastKey(hash: Key -> nat, nkeys: nat) {
    forall a: Key, b: Key | |a| == nkeys && Matches(hash, a, b) :: a == b
  }

  lemma LastKeyDetermined(a: Key, b: Key)
    requires |a| == |b| > 0
    ensures KeyHash(a) == KeyHash(b) && SamePrefix(a, b) <==> a == b
  {
    hide Murmur, Combine;
    if KeyHash(a) == KeyHash(b) && SamePrefix(a, b) {
      var n := |a| - 1;
      if n > 0 {
        CombineInjective(KeyHash(a[..n]), Murmur(a[n]), Murmur(b[n]));
      }
      MurmurInjective(a[n], b[n]);
      assert a == a[..n] + [a[n]] && b == b[..n] + [b[n]];
    }
  }

  /** The hash as the joins use it: a number below 2^32. */
  function RowHash(key: Key): nat {
    if |key| == 0 then 0 else KeyHash(key) as int
  }

  lemma RowHashFixesLastKey(nkeys: nat)
    ensures FixesLastKey(RowHash, nkeys)
  {
    hide KeyHash;
    forall a: Key, b: Key | |a| == nkeys && Matches(RowHash, a, b)
      ensures a == b
    {
      BitsInjective(KeyHash(a), KeyHash(b));
      LastKeyDetermined(a, b);
    }
  }

  // ----- the group hash of the aggregate -----

  const NULL_GROUP: bv32 := 0x9e3779b9

  /** The hash of one group key; NULL hashes like the value NULL_GROUP. */
  function GroupHash(key: Option<Cell>): bv32 {
    match key
    case None => Murmur(NULL_GROUP)
    case Some(v) => Murmur(v)
  }

  /** Two group keys collide on all 32 bits only when they are equal, or when
      they are NULL and the one value that NULL is hashed as. */
  lemma GroupHashCollisions(a: Option<Cell>, b: Option<Cell>)
    ensures GroupHash(a) as int == GroupHash(b) as int <==>
            a == b || (a == None && b == Some(0x9e3779b9)) || (a == Some(0x9e3779b9) && b == None)
  {
    hide Murmur;
    if GroupHash(a) as int == GroupHash(b) as int {
      BitsInjective(GroupHash(a), GroupHash(b));
      var x := if a == None then NULL_GROUP else a.value;
      var y := if b == None then NULL_GROUP else b.value;
      MurmurInjective(x, y);
    }
  }

  // ----- the kernel -----

  predicate AllCover(keys: seq<Vector<Cell>>, nrows: nat) {
    forall i | 0 <= i < |keys| :: keys[i].Covers(nrows)
  }

  /** The key of one row, column by column. */
  function RowKey(keys: seq<Vector<Cell>>, row: nat): (k: Key)
    requires AllCover(keys, row + 1)
    ensures |k| == |keys|
  {
    seq(|keys|, i requires 0 <= i < |keys| => keys[i].ValueAt(row))
  }

  predicate NoNullKey(keys: seq<Vector<Cell>>, row: nat)
    requires AllCover(keys, row + 1)
  {
    forall i | 0 <= i < |keys| :: !keys[i].IsNull(row)
  }

  lemma KeyHashExtends(keys: seq<Vector<Cell>>, n: nat, row: nat)
    requires n < |keys| && AllCover(keys, row + 1)
    ensures AllCover(keys[..n + 1], row + 1) && AllCover(keys[..n], row + 1)
    ensures n == 0 ==> KeyHash(RowKey(keys[..1], row)) == Murmur(keys[0].ValueAt(row))
    ensures n > 0 ==> KeyHash(RowKey(keys[..n + 1], row)) ==
                      Combine(KeyHash(RowKey(keys[..n], row)), Murmur(keys[n].ValueAt(row)))
  {
    hide Murmur, Combine;
    var k := RowKey(keys[..n + 1], row);
    if n > 0 {
      assert k[..n] == RowKey(keys[..n], row);
    }
  }

  /** The body of the fast loop: both column hashes, combined once. */
  method HashPair(left: Vector<Cell>, right: Vector<Cell>, row: nat) returns (hash: bv32)
    requires left.Covers(row + 1) && right.Covers(row + 1)
    ensures hash == KeyHash(RowKey([left, right], row))
  {
    hide Murmur, Combine;
    hash := Combine(Murmur(left.ValueAt(row)), Murmur(right.ValueAt(row)));
    ghost var keys := [left, right];
    KeyHashExtends(keys, 0, row);
    KeyHashExtends(keys, 1, row);
    assert keys[..2] == keys && keys[..1] == [left];
  }

  /** The selected rows with no NULL key, and their hashes. */
  ghost predicate Hashed(keys: seq<Vector<Cell>>, selected: seq<bool>, valid: seq<bool>, hashes: seq<bv32>)
    requires AllCover(keys, |selected|)
    requires |keys| > 0
  {
    && |valid| == |selected| <= |hashes|
    && (forall r | 0 <= r < |selected| :: valid[r] <==> selected[r] && NoNullKey(keys, r))
    && (forall r | 0 <= r < |selected| && valid[r] :: hashes[r] == KeyHash(RowKey(keys, r)))
  }

  /** The fast loop for exactly two keys. */
  method HashTwoKeys(left: Vector<Cell>, right: Vector<Cell>, selected: seq<bool>, hashes: array<bv32>)
    returns (valid: seq<bool>)
    requires left.Covers(|selected|) && right.Covers(|selected|) && |selected| <= hashes.Length
    modifies hashes
    ensures Hashed([left, right], selected, valid, hashes[..])
    ensures forall r | 0 <= r < |selected| && !selected[r] :: hashes[r] == old(hashes[r])
  {
    hide KeyHash;
    valid := [];
    for row := 0 to |selected|
      invariant |valid| == row
      invariant forall r | 0 <= r < row :: valid[r] <==> selected[r] && !left.IsNull(r) && !right.IsNull(r)
      invariant forall r | 0 <= r < row && valid[r] :: hashes[r] == KeyHash(RowKey([left, right], r))
      invariant forall r | 0 <= r < |selected| && (r >= row || !selected[r]) :: hashes[r] == old(hashes[r])
    {
      if selected[row] && !left.IsNull(row) && !right.IsNull(row) {
        hashes[row] := HashPair(left, right, row);
        valid := valid + [true];
      } else {
        valid := valid + [false];
      }
    }
    forall r | 0 <= r < |selected|
      ensures NoNullKey([left, right], r) <==> !left.IsNull(r) && !right.IsNull(r)
    {
      assert [left, right][0] == left && [left, right][1] == right;
    }
  }

  /** pg_batch_hash_int4: every key column in turn over the rows still valid. */
  method HashInt4(keys: seq<Vector<Cell>>, selected: seq<bool>, hashes: array<bv32>)
    returns (valid: seq<bool>)
    requires |keys| > 0 && |selected| <= hashes.Length
    requires AllCover(keys, |selected|)
    modifies hashes
    ensures Hashed(keys, selected, valid, hashes[..])
    ensures forall r | 0 <= r < |selected| && !selected[r] :: hashes[r] == old(hashes[r])
  {
    hide KeyHash;
    if |keys| == 2 {
      valid := HashTwoKeys(keys[0], keys[1], selected, hashes);
      assert keys == [keys[0], keys[1]];
      return;
    }
    valid := selected;
    for key := 0 to |keys|
      invariant |valid| == |selected|
      invariant forall r | 0 <= r < |selected| :: valid[r] <==> selected[r] && NoNullKey(keys[..key], r)
      invariant key > 0 ==> forall r | 0 <= r < |selected| && valid[r] :: hashes[r] == KeyHash(RowKey(keys[..key], r))
      invariant forall r | 0 <= r < |selected| && !selected[r] :: hashes[r] == old(hashes[r])
    {
      valid := HashColumn(keys, key, selected, valid, hashes);
    }
    assert keys[..|keys|] == keys;
  }

  /** One pass of the general loop: fold column `key` into every row still valid. */
  method HashColumn(keys: seq<Vector<Cell>>, key: nat, ghost selected: seq<bool>, before: seq<bool>,
                    hashes: array<bv32>)
    returns (valid: seq<bool>)
    requires key < |keys| && |before| == |selected| <= hashes.Length
    requires AllCover(keys, |selected|)
    requires forall r | 0 <= r < |selected| :: before[r] <==> selected[r] && NoNullKey(keys[..key], r)
    requires key > 0 ==> forall r | 0 <= r < |selected| && before[r] :: hashes[r] == KeyHash(RowKey(keys[..key], r))
    modifies hashes
    ensures |valid| == |selected|
    ensures forall r | 0 <= r < |selected| :: valid[r] <==> selected[r] && NoNullKey(keys[..key + 1], r)
    ensures forall r | 0 <= r < |selected| && valid[r] :: hashes[r] == KeyHash(RowKey(keys[..key + 1], r))
    ensures forall r | 0 <= r < |selected| && !selected[r] :: hashes[r] == old(hashes[r])
  {
    hide Murmur, Combine, KeyHash;
    var column := keys[key];
    valid := before;
    for row := 0 to |before|
      invariant |valid| == |before|
      invariant forall r | 0 <= r < row :: valid[r] <==> before[r] && !column.IsNull(r)
      invariant forall r | row <= r < |before| :: valid[r] == before[r]
      invariant forall r | 0 <= r < row && valid[r] :: hashes[r] == KeyHash(RowKey(keys[..key + 1], r))
      invariant forall r | 0 <= r < |before| && (r >= row || !before[r]) :: hashes[r] == old(hashes[r])
    {
      if valid[row] {
        if column.IsNull(row) {
          valid := valid[row := false];
        } else {
          var keyHash := Murmur(column.ValueAt(row));
          KeyHashExtends(keys, key, row);
          hashes[row] := if key == 0 then keyHash else Combine(hashes[row], keyHash);
        }
      }
    }
    forall r | 0 <= r < |selected|
      ensures valid[r] <==> selected[r] && NoNullKey(keys[..key + 1], r)
    {
      assert keys[..key + 1] == keys[..key] + [column];
    }
  }
}
