/**
 The sample allocator's block descriptors and its two ordered multisets:
 cached blocks ordered by size, live blocks ordered by pointer. A
 `std::multiset` is modelled as a sequence kept in ascending key order;
 `insert` places a new element after every element with an equal key.
 */
module BlockSets {
  import opened Platform
  import opened Allocation

  /** One allocation: its pointer, its size, the bytes actually in use and
      its bin. */
  datatype BlockDescriptor = BlockDescriptor(dPtr: Ptr, bytes: u64, used: u64, bin: u32)

  /** A block never claims more bytes in use than it holds. */
  predicate WellFormedBlock(b: BlockDescriptor) {
    b.used <= b.bytes
  }

  /** The two comparators: `sizecompare` and `ptrcompare`. */
  datatype BlockOrder = BySize | ByPtr

  function Key(order: BlockOrder, b: BlockDescriptor): (k: nat) {
    match order
    case BySize => b.bytes
    case ByPtr => b.dPtr
  }

  predicate Ordered(order: BlockOrder, s: seq<BlockDescriptor>) {
    forall i, j :: 0 <= i < j < |s| ==> Key(order, s[i]) <= Key(order, s[j])
  }

  /** The position `insert` gives a new block: after every element whose key
      is not greater than the block's. */
  function UpperBound(order: BlockOrder, s: seq<BlockDescriptor>, b: BlockDescriptor): (k: nat)
    ensures k <= |s|
    ensures Ordered(order, s) ==>
              && (forall i :: 0 <= i < k ==> Key(order, s[i]) <= Key(order, b))
              && (forall i :: k <= i < |s| ==> Key(order, b) < Key(order, s[i]))
  {
    if s == [] then 0
    else if Key(order, b) < Key(order, s[0]) then 0
    else 1 + UpperBound(order, s[1..], b)
  }

  /** `std::multiset::insert` under the given comparator. */
  function Insert(order: BlockOrder, s: seq<BlockDescriptor>, b: BlockDescriptor)
    : (r: seq<BlockDescriptor>)
    ensures |r| == |s| + 1
    ensures multiset(r) == multiset(s) + multiset{b}
    ensures Ordered(order, s) ==> Ordered(order, r)
    ensures var k := UpperBound(order, s, b);
            r[k] == b && r[..k] == s[..k] && r[k + 1..] == s[k..]
  {
    var k := UpperBound(order, s, b);
    var r := s[..k] + [b] + s[k..];
    assert s == s[..k] + s[k..];
    assert Ordered(order, s) ==> Ordered(order, r) by {
      if Ordered(order, s) {
        InsertAtUpperBoundKeepsOrder(order, s, b, k);
      }
    }
    r
  }

  lemma InsertAtUpperBoundKeepsOrder(order: BlockOrder, s: seq<BlockDescriptor>, b: BlockDescriptor, k: nat)
    requires Ordered(order, s)
    requires k == UpperBound(order, s, b)
    ensures Ordered(order, s[..k] + [b] + s[k..])
  {
  }

  /** Total bytes held by a sequence of blocks. */
  function SumBytes(s: seq<BlockDescriptor>): (n: nat) {
    if s == [] then 0 else SumBytes(s[..|s| - 1]) + s[|s| - 1].bytes
  }

  /** Total bytes in use in a sequence of blocks. */
  function SumUsed(s: seq<BlockDescriptor>): (n: nat) {
    if s == [] then 0 else SumUsed(s[..|s| - 1]) + s[|s| - 1].used
  }

  lemma {:induction false} SumBytesAppend(s: seq<BlockDescriptor>, t: seq<BlockDescriptor>)
    ensures SumBytes(s + t) == SumBytes(s) + SumBytes(t)
    decreases |t|
  {
    if t == [] {
      assert s + t == s;
    } else {
      var last := |t| - 1;
      assert (s + t)[..|s + t| - 1] == s + t[..last];
      SumBytesAppend(s, t[..last]);
    }
  }

  /** Inserting a block into either set adds exactly its size to the set's
      byte total. */
  lemma {:induction false} SumBytesInsert(order: BlockOrder, s: seq<BlockDescriptor>, b: BlockDescriptor)
    ensures SumBytes(Insert(order, s, b)) == SumBytes(s) + b.bytes
  {
    var k := UpperBound(order, s, b);
    assert Insert(order, s, b) == s[..k] + [b] + s[k..];
    assert s == s[..k] + s[k..];
    SumBytesAppend(s[..k] + [b], s[k..]);
    SumBytesAppend(s[..k], [b]);
    SumBytesAppend(s[..k], s[k..]);
    assert SumBytes([b]) == b.bytes by {
      assert [b][..0] == [];
    }
  }

  /** Blocks that are well formed one by one are well formed in total. */
  lemma {:induction false} SumUsedAtMostSumBytes(s: seq<BlockDescriptor>)
    requires forall i :: 0 <= i < |s| ==> WellFormedBlock(s[i])
    ensures SumUsed(s) <= SumBytes(s)
    decreases |s|
  {
    if s != [] {
      var prefix := s[..|s| - 1];
      assert forall i :: 0 <= i < |prefix| ==> prefix[i] == s[i];
      SumUsedAtMostSumBytes(prefix);
      assert WellFormedBlock(s[|s| - 1]);
    }
  }
}
